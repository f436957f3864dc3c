/**
 * The scenarios of the test script, stated for each variant, and the claim they
 * sample: the three variants return the same number for every input.
 */
module Harness {
  import opened Wrappers
  import Strategy
  import Command
  import Fluent

  /** The three Strategy scenarios: (1, 2) gives 6; (1, 2, true) gives -2; (1, 2, false) gives 6. */
  method StrategyScenarios() returns (added: Option<int>, subtracted: Option<int>, notSubtracted: Option<int>)
    ensures added == Some(6) && subtracted == Some(-2) && notSubtracted == Some(6)
  {
    added := Strategy.AddNumbersThenDouble(1, 2);
    subtracted := Strategy.AddOrSubtractNumbersThenDouble(1, 2, true);
    notSubtracted := Strategy.AddOrSubtractNumbersThenDouble(1, 2, false);
  }

  /** The same three scenarios for the Command variant. */
  lemma CommandScenarios()
    ensures Command.AddNumbersThenDouble(1, 2) == 6
    ensures Command.AddOrSubtractNumbersThenDouble(1, 2, true) == -2
    ensures Command.AddOrSubtractNumbersThenDouble(1, 2, false) == 6
  {
  }

  /** The same three scenarios for the Fluent variant. */
  method FluentScenarios() returns (added: int, subtracted: int, notSubtracted: int)
    ensures added == 6 && subtracted == -2 && notSubtracted == 6
  {
    added := Fluent.AddNumbersThenDouble(1, 2);
    subtracted := Fluent.AddOrSubtractNumbersThenDouble(1, 2, true);
    notSubtracted := Fluent.AddOrSubtractNumbersThenDouble(1, 2, false);
  }

  /** For all operands, the three `addNumbersThenDouble` facades agree. */
  method AddNumbersThenDoubleAgree(number1: int, number2: int)
    returns (strategy: Option<int>, command: int, fluent: int)
    ensures command == Command.AddNumbersThenDouble(number1, number2)
    ensures strategy == Some(command) && fluent == command
  {
    strategy := Strategy.AddNumbersThenDouble(number1, number2);
    command := Command.AddNumbersThenDouble(number1, number2);
    fluent := Fluent.AddNumbersThenDouble(number1, number2);
  }

  /** For all operands and flags, the three `addOrSubtractNumbersThenDouble` facades agree. */
  method AddOrSubtractNumbersThenDoubleAgree(number1: int, number2: int, weShouldSubtract: bool)
    returns (strategy: Option<int>, command: int, fluent: int)
    ensures command == Command.AddOrSubtractNumbersThenDouble(number1, number2, weShouldSubtract)
    ensures strategy == Some(command) && fluent == command
  {
    strategy := Strategy.AddOrSubtractNumbersThenDouble(number1, number2, weShouldSubtract);
    command := Command.AddOrSubtractNumbersThenDouble(number1, number2, weShouldSubtract);
    fluent := Fluent.AddOrSubtractNumbersThenDouble(number1, number2, weShouldSubtract);
  }
}
