/** The calculator brain as the object the original program keeps: two
    mutable fields, the accumulator and the pending binary operation, changed
    in place by its methods. Each method is proved to take the state the pure
    machine in module BrainSpec prescribes. */
module Brain {
  import opened Wrappers
  import opened Operation
  import opened BrainSpec

  class CalculatorBrain {
    /** The numeric library the registry's entries call into. */
    const lib: MathLib
    var pending: Option<Pending>
    var accumulator: real

    /** The brain's state as a value of the pure machine. */
    function Current(): State
      reads this
    {
      State(accumulator, pending)
    }

    /** The read-only result: the current accumulator. */
    function Result(): (r: real)
      reads this
      ensures r == Current().accumulator
    {
      accumulator
    }

    /** A new brain: result 0, nothing pending. */
    constructor (lib: MathLib)
      ensures this.lib == lib
      ensures Current() == Initial
    {
      this.lib := lib;
      pending := None;
      accumulator := 0.0;
    }

    /** Overwrites the accumulator; the pending operation stays. */
    method SetOperand(operand: real)
      modifies this
      ensures accumulator == operand && pending == old(pending)
      ensures Current() == BrainSpec.SetOperand(old(Current()), operand)
    {
      accumulator := operand;
    }

    /** Looks `symbol` up and performs its operation; an unknown symbol is
        ignored. */
    method PerformOperation(symbol: string)
      modifies this
      ensures Current() == Perform(lib, old(Current()), symbol)
      ensures symbol !in Symbols ==> accumulator == old(accumulator) && pending == old(pending)
      ensures symbol in BinarySymbols ==> pending.Some? && pending.value.firstOperand == accumulator
      ensures symbol == "=" ==> pending == None
    {
      match Lookup(lib, symbol)
      case None =>
      case Some(Constant(value)) =>
        accumulator := value;
      case Some(Unary(op)) =>
        accumulator := ApplyUnary(lib, op, accumulator);
      case Some(Binary(op)) =>
        ExecutePendingBinaryOperation();
        pending := Some(Pending(op, accumulator));
      case Some(Equals) =>
        ExecutePendingBinaryOperation();
    }

    /** Returns to the state of a new brain. */
    method ResetBrain()
      modifies this
      ensures accumulator == 0.0 && pending == None
      ensures Current() == Initial
    {
      accumulator := 0.0;
      pending := None;
    }

    /** Applies the pending operation to its first operand and the
        accumulator, then clears it; with nothing pending, does nothing. */
    method ExecutePendingBinaryOperation()
      modifies this
      ensures Current() == Resolve(lib, old(Current()))
      ensures pending == None
    {
      if pending != None {
        accumulator := ApplyBinary(lib, pending.value.binaryOperation, pending.value.firstOperand, accumulator);
        pending := None;
      }
    }
  }

  /** `4 + 3 =` gives 7. */
  method AddExample(lib: MathLib) returns (r: real)
    ensures r == 7.0
  {
    var brain := new CalculatorBrain(lib);
    brain.SetOperand(4.0);
    brain.PerformOperation("+");
    brain.SetOperand(3.0);
    brain.PerformOperation("=");
    r := brain.Result();
  }

  /** `5 + =` gives 10: the accumulator is both operands. */
  method SelfApplicationExample(lib: MathLib) returns (r: real)
    ensures r == 10.0
  {
    var brain := new CalculatorBrain(lib);
    brain.SetOperand(5.0);
    brain.PerformOperation("+");
    brain.PerformOperation("=");
    r := brain.Result();
  }

  /** `2 + 3 × 4 =` gives 20: operators apply left to right, without precedence. */
  method ChainingExample(lib: MathLib) returns (r: real)
    ensures r == 20.0
  {
    var brain := new CalculatorBrain(lib);
    brain.SetOperand(2.0);
    brain.PerformOperation("+");
    brain.SetOperand(3.0);
    brain.PerformOperation("×");
    brain.SetOperand(4.0);
    brain.PerformOperation("=");
    r := brain.Result();
  }

  /** `9 =` gives 9, and a following `?`, a symbol the registry lacks,
      leaves it at 9. */
  method NoOpExample(lib: MathLib) returns (afterEquals: real, afterUnknown: real)
    ensures afterEquals == 9.0 && afterUnknown == 9.0
  {
    var brain := new CalculatorBrain(lib);
    brain.SetOperand(9.0);
    brain.PerformOperation("=");
    afterEquals := brain.Result();
    brain.PerformOperation("?");
    afterUnknown := brain.Result();
  }

  /** Whatever came before, a reset followed by equals gives 0, and a
      constant symbol then gives its value whatever the accumulator held. */
  method ResetExample(lib: MathLib, x: real, y: real) returns (afterReset: real, afterPi: real)
    ensures afterReset == 0.0 && afterPi == lib.pi
  {
    var brain := new CalculatorBrain(lib);
    brain.SetOperand(x);
    brain.PerformOperation("×");
    brain.ResetBrain();
    brain.PerformOperation("=");
    afterReset := brain.Result();
    brain.SetOperand(y);
    brain.PerformOperation("π");
    afterPi := brain.Result();
  }
}
