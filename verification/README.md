# CalculatorBrain in Dafny

A model of `CalculatorBrain`, the engine of a small calculator written in Swift.
The brain keeps a running value, the accumulator, which is 0 when it starts.
It also keeps at most one deferred binary operation, with the first operand captured
when its operator was pressed. Callers have three operations: set the operand,
perform the operation registered under a symbol, and reset. They can also read
the result. The registry maps twelve symbols to four kinds of operation:

- constants: π and e;
- unary operators: ±, √, sin, cos and tan;
- binary operators: +, -, × and ÷;
- equals: =.

A binary operator first resolves whatever was pending. It then defers itself, with
the current accumulator as its first operand. Equals resolves what is pending.
A symbol the registry does not know is ignored.

The project has four modules:

- `Wrappers` (`wrappers.dfy`) holds `Option`.
- `Operation` (`operation.dfy`) holds the operation variants and the operator kinds.
  The Swift closures in the registry become the enums `UnOp` and `BinOp`, plus the
  dispatch functions `ApplyUnary` and `ApplyBinary`. It also holds the registry
  `Operations` (a map, as in the source) and `Lookup`.
- `BrainSpec` (`brain_spec.dfy`) is the brain as a pure state machine.
  `State(accumulator, pending)` is its state, and `Resolve`, `Perform` and `Run` are
  its steps. It proves the pending-operation protocol, including left-to-right
  chaining of any length.
- `Brain` (`brain.dfy`) is the class `CalculatorBrain`, with the source's two mutable
  fields. Its methods are proved to follow `BrainSpec` exactly. Client methods replay
  these examples on an object: `4 + 3 =` gives 7, `5 + =` gives 10, `2 + 3 × 4 =` gives
  20, `9 = ?` stays at 9, and a reset then `=` gives 0, after which π gives π.

The numeric domain is `real`. The constants `M_PI` and `M_E`, the library functions
√, sin, cos and tan, and the value of a division by zero are fields of a `MathLib`
value, which is fixed when a brain is made. The model assumes nothing about them.

## Model

| member | source | states |
|---|---|---|
| `Operation.ApplyUnary` | Calculator/CalculatorBrain.swift:27-31 | ± gives the negation of the accumulator (the two sum to 0); √, sin, cos and tan give the library function of the accumulator |
| `Operation.ApplyBinary` | Calculator/CalculatorBrain.swift:32-35 | +, - and × are exact over the reals (a + b, a - b, a × b); ÷ with a nonzero divisor gives the r with r × b = a; ÷ with a zero divisor gives `lib.divideByZero(a)`, an arbitrary real |
| `Operation.Operations` | Calculator/CalculatorBrain.swift:24-37 | the dictionary's keys are exactly the twelve symbols, and "=" is the only key mapped to equals |
| `Operation.Lookup` | Calculator/CalculatorBrain.swift:24-37 | the registry knows exactly the twelve symbols; it classifies each as constant, unary or binary; "=" is its only equals entry; π and e map to their constants |
| `Operation.BinarySymbolLookup` | Calculator/CalculatorBrain.swift:32-35 | each binary operator is registered under its own symbol, and no two share one |
| `Operation.UnarySymbolLookup` | Calculator/CalculatorBrain.swift:27-31 | each unary operator is registered under its own symbol, and no two share one |
| `BrainSpec.Resolve` | Calculator/CalculatorBrain.swift:73-78 | resolving always leaves nothing pending; with nothing pending it is a no-op; otherwise the accumulator becomes op(firstOperand, accumulator) |
| `BrainSpec.SetOperand` | Calculator/CalculatorBrain.swift:48-50 | the operand becomes the accumulator; the pending operation is kept |
| `BrainSpec.Perform` | Calculator/CalculatorBrain.swift:52-66 | an unknown symbol changes nothing; equals is Resolve; constants and unary operators keep the pending operation; a binary operator leaves itself pending, with the post-resolution accumulator as its first operand |
| `BrainSpec.RunAppend` | Calculator/CalculatorBrain.swift:48-71 | running two input sequences one after the other equals running their concatenation |
| `BrainSpec.ResetForgetsHistory` | Calculator/CalculatorBrain.swift:68-71 | after a reset, the brain behaves on later inputs like a new brain, whatever came before |
| `BrainSpec.ResetThenEquals` | Calculator/CalculatorBrain.swift:68-78 | after a reset, the state is result 0 with nothing pending, and a following "=" leaves it so |
| `BrainSpec.SetOperandThenResult` | Calculator/CalculatorBrain.swift:42-50 | after setting x, the result is x and the pending operation is unchanged |
| `BrainSpec.UnknownSymbolIsNoOp` | Calculator/CalculatorBrain.swift:53 | a symbol missing from the registry leaves the accumulator and the pending operation as they were |
| `BrainSpec.ConstantIdempotent` | Calculator/CalculatorBrain.swift:55-56 | a constant sets the accumulator to its value from any state, keeps the pending operation, and performing it twice equals performing it once |
| `BrainSpec.UnaryMapsAccumulator` | Calculator/CalculatorBrain.swift:57-58 | a unary symbol replaces the accumulator with f(accumulator) and keeps the pending operation |
| `BrainSpec.BinaryDefers` | Calculator/CalculatorBrain.swift:59-61 | a binary symbol resolves what was pending, then leaves exactly itself pending, with the resolved accumulator as its first operand; from Idle the accumulator is unchanged |
| `BrainSpec.EqualsResolves` | Calculator/CalculatorBrain.swift:62-63 | "=" applies the pending operation to (firstOperand, accumulator) and returns to Idle; from Idle it is a no-op; a second "=" changes nothing |
| `BrainSpec.SelfApplication` | Calculator/CalculatorBrain.swift:59-63 | from Idle, a binary operator followed directly by "=" applies it to the accumulator twice over (op(a, a)) |
| `BrainSpec.ChainPending` | Calculator/CalculatorBrain.swift:59-61 | part way through a chain x0 op1 x1 … opn xn, exactly one operation is pending: the last operator, whose first operand is the left-to-right value of the chain before it |
| `BrainSpec.ChainLeftToRight` | Calculator/CalculatorBrain.swift:59-63 | from Idle, x0 op1 x1 … opn xn = yields the value of the chain evaluated strictly left to right, with no precedence, and nothing pending |
| `Brain.CalculatorBrain.Result` | Calculator/CalculatorBrain.swift:42-46 | the read-only result is the accumulator of the brain's current state |
| `Brain.CalculatorBrain.constructor` | Calculator/CalculatorBrain.swift:39-41 | a new brain has accumulator 0 and nothing pending |
| `Brain.CalculatorBrain.SetOperand` | Calculator/CalculatorBrain.swift:48-50 | the accumulator becomes the operand and the pending operation is unchanged, as BrainSpec.SetOperand prescribes |
| `Brain.CalculatorBrain.PerformOperation` | Calculator/CalculatorBrain.swift:52-66 | the new state is BrainSpec.Perform of the old one; an unknown symbol changes nothing; after a binary symbol, the pending first operand equals the accumulator; after "=", nothing is pending |
| `Brain.CalculatorBrain.ResetBrain` | Calculator/CalculatorBrain.swift:68-71 | the accumulator is 0 and nothing is pending |
| `Brain.CalculatorBrain.ExecutePendingBinaryOperation` | Calculator/CalculatorBrain.swift:73-78 | the new state is BrainSpec.Resolve of the old one, and nothing is pending |
| `Brain.AddExample` | Calculator/CalculatorBrain.swift:32 | on a new brain, 4 + 3 = gives 7 |
| `Brain.SelfApplicationExample` | Calculator/CalculatorBrain.swift:59-63 | on a new brain, 5 + = gives 10 |
| `Brain.ChainingExample` | Calculator/CalculatorBrain.swift:32-34 | on a new brain, 2 + 3 × 4 = gives 20 (left to right, no precedence) |
| `Brain.NoOpExample` | Calculator/CalculatorBrain.swift:53-63 | 9 = gives 9, and a following unknown symbol "?" still gives 9 |
| `Brain.ResetExample` | Calculator/CalculatorBrain.swift:68-71 | after any operand and a pending ×, a reset and "=" give 0; π then gives π after any operand y |

## Left out

- Floating-point (IEEE 754) semantics are not modelled. Values are reals, so rounding, infinities and not-a-number do not arise. The not-a-number result of √ of a negative number cannot be stated.
- √, sin, cos and tan are foreign library calls, and π and e are the library constants `M_PI` and `M_E`. All are fields of a `MathLib` parameter about which nothing is assumed.
- ApplyBinary: division by zero gives the arbitrary real `divideByZero(a)`, not an infinity or not-a-number. Later arithmetic treats it as finite, so `1 ÷ 0 = × 0 =` gives 0 in the model where floating point gives not-a-number.
- The registry stores closures and the source imports Foundation. Operator-kind enums with dispatch functions stand in for the closures.
- No caller of the brain (a user interface) is part of this model.
- Thread safety is not modelled. The brain is used from one thread, and the model is sequential.
