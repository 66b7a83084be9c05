/** The operations a calculator brain knows: the four kinds of operation,
    the operator kinds standing for the closures of the original registry,
    their meaning over the reals, and the fixed symbol-to-operation registry. */
module Operation {
  import opened Wrappers

  /** The numeric library the registry relies on: the constants π and e and
      the functions √, sin, cos and tan. The model keeps them as values
      supplied from outside and assumes nothing about them. A division by a
      zero divisor gives `divideByZero(a)`, an arbitrary real: the infinity or
      not-a-number that floating-point division yields is not represented. */
  datatype MathLib = MathLib(
    pi: real,
    e: real,
    sqrt: real -> real,
    sin: real -> real,
    cos: real -> real,
    tan: real -> real,
    divideByZero: real -> real)

  /** The unary operators of the registry. */
  datatype UnOp = Negate | SquareRoot | Sine | Cosine | Tangent

  /** The binary operators of the registry. */
  datatype BinOp = Add | Subtract | Multiply | Divide

  /** An entry of the registry: a constant, a unary or binary operator, or equals. */
  datatype Operation = Constant(value: real) | Unary(un: UnOp) | Binary(bin: BinOp) | Equals

  /** What a unary operator does to the accumulator. */
  function ApplyUnary(lib: MathLib, op: UnOp, x: real): (r: real)
    ensures op == Negate ==> r + x == 0.0
    ensures op == SquareRoot ==> r == lib.sqrt(x)
    ensures op == Sine ==> r == lib.sin(x)
    ensures op == Cosine ==> r == lib.cos(x)
    ensures op == Tangent ==> r == lib.tan(x)
  {
    match op
    case Negate => -x
    case SquareRoot => lib.sqrt(x)
    case Sine => lib.sin(x)
    case Cosine => lib.cos(x)
    case Tangent => lib.tan(x)
  }

  /** What a binary operator does to its first operand `a` and second operand `b`. */
  function ApplyBinary(lib: MathLib, op: BinOp, a: real, b: real): (r: real)
    ensures op == Add ==> r - b == a
    ensures op == Subtract ==> r + b == a
    ensures op == Multiply ==> r == a * b
    ensures op == Divide && b != 0.0 ==> r * b == a
    ensures op == Divide && b == 0.0 ==> r == lib.divideByZero(a)
  {
    match op
    case Add => a + b
    case Subtract => a - b
    case Multiply => a * b
    case Divide => if b != 0.0 then a / b else lib.divideByZero(a)
  }

  /** The registry: the fixed dictionary from symbol to operation. */
  function Operations(lib: MathLib): (r: map<string, Operation>)
    ensures r.Keys == Symbols
    ensures forall symbol :: symbol in r && r[symbol] == Equals <==> symbol == "="
  {
    map[
      "π" := Constant(lib.pi),
      "e" := Constant(lib.e),
      "±" := Unary(Negate),
      "√" := Unary(SquareRoot),
      "sin" := Unary(Sine),
      "cos" := Unary(Cosine),
      "tan" := Unary(Tangent),
      "+" := Binary(Add),
      "-" := Binary(Subtract),
      "×" := Binary(Multiply),
      "÷" := Binary(Divide),
      "=" := Equals
    ]
  }

  /** The symbols the registry knows, by kind of operation. */
  const ConstantSymbols: set<string> := {"π", "e"}
  const UnarySymbols: set<string> := {"±", "√", "sin", "cos", "tan"}
  const BinarySymbols: set<string> := {"+", "-", "×", "÷"}
  const Symbols: set<string> := ConstantSymbols + UnarySymbols + BinarySymbols + {"="}

  /** The symbol under which the registry holds each binary operator. */
  function BinarySymbol(op: BinOp): string
  {
    match op
    case Add => "+"
    case Subtract => "-"
    case Multiply => "×"
    case Divide => "÷"
  }

  /** The symbol under which the registry holds each unary operator. */
  function UnarySymbol(op: UnOp): string
  {
    match op
    case Negate => "±"
    case SquareRoot => "√"
    case Sine => "sin"
    case Cosine => "cos"
    case Tangent => "tan"
  }

  /** Looks a symbol up in the registry; an unknown symbol gives None.
      The registry knows exactly `Symbols`, classifies each symbol by kind,
      and "=" is its only equals entry. */
  function Lookup(lib: MathLib, symbol: string): (r: Option<Operation>)
    ensures r.Some? <==> symbol in Symbols
    ensures (r.Some? && r.value.Constant?) <==> symbol in ConstantSymbols
    ensures (r.Some? && r.value.Unary?) <==> symbol in UnarySymbols
    ensures (r.Some? && r.value.Binary?) <==> symbol in BinarySymbols
    ensures r == Some(Equals) <==> symbol == "="
    ensures symbol == "π" ==> r == Some(Constant(lib.pi))
    ensures symbol == "e" ==> r == Some(Constant(lib.e))
  {
    var ops := Operations(lib);
    if symbol in ops then Some(ops[symbol]) else None
  }

  /** Every binary operator is registered under its symbol, and that symbol
      names no other entry. */
  lemma BinarySymbolLookup(lib: MathLib, op: BinOp)
    ensures Lookup(lib, BinarySymbol(op)) == Some(Binary(op))
    ensures forall other: BinOp :: BinarySymbol(other) == BinarySymbol(op) ==> other == op
  {
  }

  /** Every unary operator is registered under its symbol, and that symbol
      names no other entry. */
  lemma UnarySymbolLookup(lib: MathLib, op: UnOp)
    ensures Lookup(lib, UnarySymbol(op)) == Some(Unary(op))
    ensures forall other: UnOp :: UnarySymbol(other) == UnarySymbol(op) ==> other == op
  {
  }
}
