# PatternExamples in Dafny

A model of a small TypeScript teaching repository that computes "add or subtract
two numbers, then double the result" three times, each through a different
dispatch idiom:

- **Strategy** (`strategy.dfy`): stateless strategies selected from an
  `Operation` tag write their result into the `answer` field of a record
  `{number1, number2, answer?}` owned by the caller. The record is a class whose
  `answer` is an `Option<int>`. `Strategy.Execute` is a method that modifies only
  that field. Double reads the previous answer and treats a missing one as 0.
- **Command** (`command.dfy`): commands capture their operands when built, and
  `execute()` is a pure function of those operands. A command is a datatype and
  `Execute` is a function.
- **Fluent** (`fluent.dfy`): a mutable carrier whose `add`, `subtract` and
  `double` overwrite `value` and return the carrier itself. The carrier is a
  class with one field. The value a list of calls produces is described by the function
  `Fluent.Chain`. `Fluent.ChainAppend` proves that `Chain` over two
  concatenated call lists equals `Chain` of the second list started from the
  value of the first. This is the value-level counterpart of making the calls
  in separate statements on the same carrier, as `addOrSubtractNumbersThenDouble`
  does. The facade methods are tied to `Chain` through the methods' own
  `value` postconditions; no lemma relates an arbitrary sequence of method
  calls to `Chain`.

`operations.dfy` holds the `Operation` tag (`Add | Subtract | Double`), the
arithmetic each tag stands for (`Operations.Apply`) and the two closed forms
every facade must meet: `(a+b)*2` and `(s ? a-b : a+b)*2`. `harness.dfy` states
the nine scenarios of `test.ts` and proves that the three variants agree for all
inputs. `wrappers.dfy` holds `Option`, whose `GetOr` is the `??` operator.

The facade classes (`StrategyExample`, `CommandExample`, `FluentPatternExample`)
have no fields. Their two members are therefore module-level: methods where
the source allocates and mutates, functions for the Command variant. Operands
are mathematical integers; the source uses only integer values.

## Model

| member | source | states |
|---|---|---|
| Strategy.StrategyModel.constructor | patternExamples/StrategyExample.ts:7-11 | a new record holds the two operands and no answer, like the literal `{number1, number2}` |
| Strategy.Strategy.Execute | patternExamples/StrategyExample.ts:28-44 | sets `answer` to the strategy's result on the fields as they were before the call, and leaves `number1` and `number2` unchanged; the frame allows only `answer` to change |
| Strategy.GetStrategy | patternExamples/StrategyExample.ts:52-61 | total over the three tags; the strategy it returns computes the tag's operation: `number1 + number2` for Add, `number1 - number2` for Subtract, and twice the previous answer (0 when absent) for Double, for every record |
| Strategy.GetStrategyIsBijective | patternExamples/StrategyExample.ts:52-61 | different tags select different strategies, and every strategy is selected by some tag |
| Strategy.DoubleWithoutAnswerIsZero | patternExamples/StrategyExample.ts:40-44 | Double on a record with no answer writes 0, the `?? 0` fallback |
| Strategy.AddNumbersThenDouble | patternExamples/StrategyExample.ts:70-78 | the returned answer is always present and equals `(a+b)*2` |
| Strategy.AddOrSubtractNumbersThenDouble | patternExamples/StrategyExample.ts:81-97 | the returned answer is always present and equals `(s ? a-b : a+b)*2` |
| Command.Command.Execute | patternExamples/CommandPatternExample.ts:22-44 | every command's result is the shared operation of its tag on its captured operands: `valueA + valueB`, `valueA - valueB`, `valueA * 2` |
| Command.GetCommand | patternExamples/CommandPatternExample.ts:51-64 | given a first operand, and for Add and Subtract a second one, it returns the command whose tag is the requested one (AddCommand for Add, SubtractCommand for Subtract, DoubleCommand for Double) holding those operands; executing it gives the tag's operation on them; Double ignores any second operand |
| Command.AddNumbersThenDouble | patternExamples/CommandPatternExample.ts:72-79 | equals `(a+b)*2` for all integers |
| Command.AddOrSubtractNumbersThenDouble | patternExamples/CommandPatternExample.ts:82-93 | equals `(s ? a-b : a+b)*2` for all integers and flags |
| Fluent.FluentPattern.constructor | patternExamples/FluentPatternExample.ts:6-8 | the carrier's `value` is the argument |
| Fluent.FluentPattern.Add | patternExamples/FluentPatternExample.ts:21-24 | `value` becomes old `value` plus the argument, and the same carrier is returned |
| Fluent.FluentPattern.Subtract | patternExamples/FluentPatternExample.ts:30-33 | `value` becomes old `value` minus the argument, and the same carrier is returned |
| Fluent.FluentPattern.Double | patternExamples/FluentPatternExample.ts:39-42 | `value` becomes old `value` times 2, and the same carrier is returned |
| Fluent.Step | patternExamples/FluentPatternExample.ts:21-42 | one fluent call performs the shared operation of its tag on the current value |
| Fluent.ChainAppend | patternExamples/FluentPatternExample.ts:55-61 | running one chain and then another on the same carrier gives the value of the concatenated chain |
| Fluent.FacadeChainMeetsClosedForm | patternExamples/FluentPatternExample.ts:45-62 | the facades' chain (Subtract or Add, then Double) started at the first operand equals `(s ? a-b : a+b)*2`, and `(a+b)*2` when not subtracting |
| Fluent.AddNumbersThenDouble | patternExamples/FluentPatternExample.ts:45-47 | returns the value of the chain `.add(b).double()` from `a`, which is `(a+b)*2` |
| Fluent.AddOrSubtractNumbersThenDouble | patternExamples/FluentPatternExample.ts:50-62 | returns the value of the chain `.subtract(b)` or `.add(b)`, then `.double()`, from `a`, which is `(s ? a-b : a+b)*2` |
| Harness.StrategyScenarios | test.ts:6-15 | the Strategy facades give 6, -2 and 6 on `(1,2)`, `(1,2,true)`, `(1,2,false)` |
| Harness.CommandScenarios | test.ts:17-26 | the Command facades give 6, -2 and 6 on the same inputs |
| Harness.FluentScenarios | test.ts:28-37 | the Fluent facades give 6, -2 and 6 on the same inputs |
| Harness.AddNumbersThenDoubleAgree | test.ts:7-29 | for all operands, the Strategy answer is present and equal to the Command result, and the Fluent result equals it too |
| Harness.AddOrSubtractNumbersThenDoubleAgree | test.ts:8-37 | for all operands and flags, the Strategy, Command and Fluent facades return the same number |

## Left out

- `test.ts` mechanics (`node:assert`, `console.log`) are not modelled. Its nine assertions are given as the Harness scenarios instead.
- JavaScript `number` semantics (floating point, NaN, Infinity, loss of precision) are not modelled. Operands are unbounded integers.
- Command.GetCommand: in the source, a missing operand is not checked at run time. The non-null assertions (`!`) let `undefined` through, and the arithmetic then yields NaN; it does not fail loudly. The model makes "operands supplied" a precondition instead of modelling that arithmetic.
- The `../Operations` module is not part of this model. The `Operation` datatype with the three tags used by the examples stands in for it.
- The prototype patching and interface merging of the Fluent class are TypeScript artefacts. `Add`, `Subtract` and `Double` are declared directly as methods of the class.
- Strategy and command objects have no identity in the model. Each is a datatype value, because the strategy classes have no fields and the command classes have only read-only operands. Object allocation by `getStrategy` and `getCommand` is therefore not modelled.
- Command determinism (calling `execute()` twice gives the same value) holds by construction, because `Execute` is a function of the captured operands.
