/**
 * The closed set of operation tags shared by the three dispatch idioms, with the
 * arithmetic each tag stands for and the closed forms the two facades promise.
 */
module Operations {

  /** The `Operation` enumeration imported by the Strategy and Command examples. */
  datatype Operation = Add | Subtract | Double

  /**
   * Reference meaning of a tag: Add and Subtract combine both operands,
   * Double uses only the first one and ignores `y`.
   */
  function Apply(op: Operation, x: int, y: int): int {
    match op
    case Add => x + y
    case Subtract => x - y
    case Double => x * 2
  }

  /** What `addNumbersThenDouble(a, b)` must return in every variant. */
  function AddThenDouble(a: int, b: int): int {
    (a + b) * 2
  }

  /** What `addOrSubtractNumbersThenDouble(a, b, subtract)` must return in every variant. */
  function AddOrSubtractThenDouble(a: int, b: int, subtract: bool): int {
    (if subtract then a - b else a + b) * 2
  }
}
