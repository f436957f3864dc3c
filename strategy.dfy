/**
 * The Strategy variant: stateless strategy objects write their result into the
 * `answer` field of a record owned by the caller.
 */
module Strategy {
  import opened Wrappers
  import opened Operations

  /** The record `{ number1, number2, answer? }` that every strategy updates in place. */
  class StrategyModel {
    var number1: int
    var number2: int
    var answer: Option<int>

    /** The object literal `{ number1: number1, number2: number2 }`: no answer yet. */
    constructor (number1: int, number2: int)
      ensures this.number1 == number1 && this.number2 == number2
      ensures answer == None
    {
      this.number1 := number1;
      this.number2 := number2;
      answer := None;
    }
  }

  /**
   * The three strategy classes. They have no fields, so a strategy is a bare tag
   * and two strategies of the same class cannot be told apart.
   */
  datatype Strategy = AddStrategy | SubtractStrategy | DoubleStrategy {

    /**
     * The answer this strategy writes into a record whose fields are `number1`,
     * `number2` and `answer` before the call. Double reads only the previous
     * answer and takes an absent one as 0.
     */
    function Answer(number1: int, number2: int, answer: Option<int>): int {
      match this
      case AddStrategy => number1 + number2
      case SubtractStrategy => number1 - number2
      case DoubleStrategy => answer.GetOr(0) * 2
    }

    /** `execute(value)`: overwrites `value.answer` and touches nothing else. */
    method Execute(value: StrategyModel)
      modifies value`answer
      ensures value.answer == Some(Answer(old(value.number1), old(value.number2), old(value.answer)))
      ensures value.number1 == old(value.number1) && value.number2 == old(value.number2)
    {
      value.answer := Some(Answer(value.number1, value.number2, value.answer));
    }
  }

  /**
   * `StrategyHandler.getStrategy`: total over the three tags; the strategy it
   * returns computes the operation the tag names, from the two operands for Add
   * and Subtract and from the previous answer (absent meaning 0) for Double.
   */
  function GetStrategy(op: Operation): (s: Strategy)
    ensures forall number1: int, number2: int, answer: Option<int> ::
      s.Answer(number1, number2, answer) ==
        if op == Double then Apply(Double, answer.GetOr(0), number2) else Apply(op, number1, number2)
  {
    match op
    case Add => AddStrategy
    case Subtract => SubtractStrategy
    case Double => DoubleStrategy
  }

  /** Distinct tags select distinct strategies, and every strategy is selected by some tag. */
  lemma GetStrategyIsBijective(s: Strategy)
    ensures forall op1: Operation, op2: Operation :: GetStrategy(op1) == GetStrategy(op2) ==> op1 == op2
    ensures exists op: Operation :: GetStrategy(op) == s
  {
    var op := match s case AddStrategy => Add case SubtractStrategy => Subtract case DoubleStrategy => Double;
    assert GetStrategy(op) == s;
  }

  /** `DoubleStrategy` on a record without an answer, the fallback the facades never reach, writes 0. */
  lemma DoubleWithoutAnswerIsZero(number1: int, number2: int)
    ensures GetStrategy(Double).Answer(number1, number2, None) == 0
  {
  }

  /**
   * `addNumbersThenDouble`: a fresh record, the Add strategy, then the Double
   * strategy; the answer read at the end is always present and equals (a+b)*2.
   */
  method AddNumbersThenDouble(number1: int, number2: int) returns (r: Option<int>)
    ensures r == Some(AddThenDouble(number1, number2))
  {
    var model := new StrategyModel(number1, number2);
    var addStrategy := GetStrategy(Add);
    var doubleStrategy := GetStrategy(Double);
    addStrategy.Execute(model);
    doubleStrategy.Execute(model);
    r := model.answer;
  }

  /**
   * `addOrSubtractNumbersThenDouble`: Subtract or Add chosen by the flag, then
   * Double, on one fresh record; the answer is always present.
   */
  method AddOrSubtractNumbersThenDouble(number1: int, number2: int, weShouldSubtract: bool)
    returns (r: Option<int>)
    ensures r == Some(AddOrSubtractThenDouble(number1, number2, weShouldSubtract))
  {
    var model := new StrategyModel(number1, number2);
    var doubleStrategy := GetStrategy(Double);
    var strategy: Strategy;
    if weShouldSubtract {
      strategy := GetStrategy(Subtract);
    } else {
      strategy := GetStrategy(Add);
    }
    strategy.Execute(model);
    doubleStrategy.Execute(model);
    r := model.answer;
  }
}
