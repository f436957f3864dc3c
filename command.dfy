/**
 * The Command variant: each command captures its operands when it is built,
 * and executing it computes a value without changing anything.
 */
module Command {
  import opened Wrappers
  import opened Operations

  /** The three command classes, each holding the operands given to its constructor. */
  datatype Command =
    | AddCommand(valueA: int, valueB: int)
    | SubtractCommand(valueA: int, valueB: int)
    | DoubleCommand(valueA: int)
  {
    /** The tag of the shared operation this command performs. */
    function Tag(): Operation {
      match this
      case AddCommand(_, _) => Add
      case SubtractCommand(_, _) => Subtract
      case DoubleCommand(_) => Double
    }

    /**
     * `execute()`: the command's operation on its captured operands (Double uses
     * only the first). It depends on nothing else, so every call gives the same value.
     */
    function Execute(): (r: int)
      ensures r == Apply(Tag(), valueA, if DoubleCommand? then 0 else valueB)
    {
      match this
      case AddCommand(a, b) => a + b
      case SubtractCommand(a, b) => a - b
      case DoubleCommand(a) => a * 2
    }
  }

  /** What `getCommand` asserts with `!`: a first operand always, a second one for the binary tags. */
  predicate OperandsSupplied(op: Operation, number1: Option<int>, number2: Option<int>) {
    number1.Some? && (op != Double ==> number2.Some?)
  }

  /**
   * `CommandHandler.getCommand`: the command for the tag, holding the supplied
   * operands; executing it computes the operation the tag names. Double takes
   * no second operand and ignores one if given.
   */
  function GetCommand(op: Operation, number1: Option<int>, number2: Option<int>): (c: Command)
    requires OperandsSupplied(op, number1, number2)
    ensures c.Execute() == Apply(op, number1.value, number2.GetOr(0))
    ensures c.Tag() == op
    ensures c.AddCommand? <==> op == Add
    ensures c.DoubleCommand? <==> op == Double
    ensures c.valueA == number1.value
    ensures op != Double ==> c.valueB == number2.value
  {
    match op
    case Add => AddCommand(number1.value, number2.value)
    case Subtract => SubtractCommand(number1.value, number2.value)
    case Double => DoubleCommand(number1.value)
  }

  /** `addNumbersThenDouble`: the Add command's result fed to a Double command. */
  function AddNumbersThenDouble(number1: int, number2: int): (r: int)
    ensures r == AddThenDouble(number1, number2)
  {
    var added := GetCommand(Add, Some(number1), Some(number2)).Execute();
    GetCommand(Double, Some(added), None).Execute()
  }

  /** `addOrSubtractNumbersThenDouble`: the Subtract or Add command chosen by the flag, then Double. */
  function AddOrSubtractNumbersThenDouble(number1: int, number2: int, weShouldSubtract: bool): (r: int)
    ensures r == AddOrSubtractThenDouble(number1, number2, weShouldSubtract)
  {
    var mathed := GetCommand(if weShouldSubtract then Subtract else Add, Some(number1), Some(number2)).Execute();
    GetCommand(Double, Some(mathed), None).Execute()
  }
}
