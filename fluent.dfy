/**
 * The Fluent variant: one mutable carrier whose `add`, `subtract` and `double`
 * overwrite its `value` and hand back the carrier itself, so calls can be chained.
 */
module Fluent {
  import opened Operations

  /** The carrier. Each operation returns `this`, which is what makes chaining possible. */
  class FluentPattern {
    var value: int

    constructor (value: int)
      ensures this.value == value
    {
      this.value := value;
    }

    /** `add(v)`: value becomes value + v; the result is the same carrier. */
    method Add(v: int) returns (self: FluentPattern)
      modifies this
      ensures self == this
      ensures value == old(value) + v
    {
      value := value + v;
      self := this;
    }

    /** `subtract(v)`: value becomes value - v; the result is the same carrier. */
    method Subtract(v: int) returns (self: FluentPattern)
      modifies this
      ensures self == this
      ensures value == old(value) - v
    {
      value := value - v;
      self := this;
    }

    /** `double()`: value becomes value * 2; the result is the same carrier. */
    method Double() returns (self: FluentPattern)
      modifies this
      ensures self == this
      ensures value == old(value) * 2
    {
      value := value * 2;
      self := this;
    }
  }

  /** One call in a fluent chain such as `.add(b).double()`. */
  datatype Call = AddCall(operand: int) | SubtractCall(operand: int) | DoubleCall

  /** The tag of the shared operation that a call performs. */
  function CallOperation(call: Call): Operation {
    match call
    case AddCall(_) => Add
    case SubtractCall(_) => Subtract
    case DoubleCall => Double
  }

  /** The carrier's value after one call: the call's operation on the current value. */
  function Step(value: int, call: Call): (r: int)
    ensures r == Apply(CallOperation(call), value, if call.DoubleCall? then 0 else call.operand)
  {
    match call
    case AddCall(v) => value + v
    case SubtractCall(v) => value - v
    case DoubleCall => value * 2
  }

  /** The carrier's value after the calls of a chain, applied left to right. */
  function Chain(value: int, calls: seq<Call>): int
    decreases |calls|
  {
    if calls == [] then value else Chain(Step(value, calls[0]), calls[1..])
  }

  /**
   * Because every call returns the same carrier, a chain may be split across
   * statements: running `xs` and then `ys` on the carrier equals running `xs + ys`.
   */
  lemma {:induction false} ChainAppend(value: int, xs: seq<Call>, ys: seq<Call>)
    ensures Chain(value, xs + ys) == Chain(Chain(value, xs), ys)
    decreases |xs|
  {
    if xs == [] {
      assert xs + ys == ys;
    } else {
      assert (xs + ys)[0] == xs[0];
      assert (xs + ys)[1..] == xs[1..] + ys;
      ChainAppend(Step(value, xs[0]), xs[1..], ys);
    }
  }

  /** The chain the facades build: Subtract or Add with the second operand, then Double. */
  function FacadeCalls(number2: int, weShouldSubtract: bool): seq<Call> {
    [if weShouldSubtract then SubtractCall(number2) else AddCall(number2), DoubleCall]
  }

  /** `FacadeCalls` started at the first operand meets the closed form of both facades. */
  lemma {:induction false} FacadeChainMeetsClosedForm(number1: int, number2: int, weShouldSubtract: bool)
    ensures Chain(number1, FacadeCalls(number2, weShouldSubtract)) ==
            AddOrSubtractThenDouble(number1, number2, weShouldSubtract)
    ensures Chain(number1, FacadeCalls(number2, false)) == AddThenDouble(number1, number2)
  {
    var calls := FacadeCalls(number2, weShouldSubtract);
    ChainAppend(number1, calls[..1], calls[1..]);
    ChainAppend(Step(number1, calls[0]), [DoubleCall], []);
    var adds := FacadeCalls(number2, false);
    ChainAppend(number1, adds[..1], adds[1..]);
    ChainAppend(Step(number1, adds[0]), [DoubleCall], []);
    assert calls[..1] + calls[1..] == calls;
    assert adds[..1] + adds[1..] == adds;
  }

  /** `addNumbersThenDouble`: the one-expression chain `new FluentPattern(a).add(b).double().value`. */
  method AddNumbersThenDouble(number1: int, number2: int) returns (r: int)
    ensures r == Chain(number1, FacadeCalls(number2, false))
    ensures r == AddThenDouble(number1, number2)
  {
    var fp := new FluentPattern(number1);
    var added := fp.Add(number2);
    var doubled := added.Double();
    r := doubled.value;
    FacadeChainMeetsClosedForm(number1, number2, false);
  }

  /**
   * `addOrSubtractNumbersThenDouble`: the first call is made inside an `if`,
   * the `double()` call in a later statement on the same carrier.
   */
  method AddOrSubtractNumbersThenDouble(number1: int, number2: int, weShouldSubtract: bool)
    returns (r: int)
    ensures r == Chain(number1, FacadeCalls(number2, weShouldSubtract))
    ensures r == AddOrSubtractThenDouble(number1, number2, weShouldSubtract)
  {
    var fp := new FluentPattern(number1);
    if weShouldSubtract {
      var _ := fp.Subtract(number2);
    } else {
      var _ := fp.Add(number2);
    }
    var doubled := fp.Double();
    r := doubled.value;
    FacadeChainMeetsClosedForm(number1, number2, weShouldSubtract);
  }
}
