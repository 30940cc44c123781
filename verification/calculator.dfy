/**
 * The Calculator aggregate: a name, a fixed-capacity array of operation
 * slots of which the first `count` are in use, and the left-to-right
 * evaluation of `x0 op1 x1 ... opk xk =`. The specification functions come
 * first; the class's methods are proved against them.
 */
module Calculators {
  import opened Outcomes
  import opened Operations

  /** `MAX_OPERATORS`: the capacity of a calculator built from a list. */
  const MaxOperators: nat := 16

  /** One `<symbol> <number>` pair read after the first operand. */
  datatype Step = Step(symbol: string, operand: real)

  /** The lowest index whose symbol equals `symbol`, if any. */
  function FirstMatch(ops: seq<Operation>, symbol: string): (r: Option<nat>)
    ensures r.Some? ==> r.value < |ops| && ops[r.value].symbol == symbol
    ensures r.Some? ==> forall j | 0 <= j < r.value :: ops[j].symbol != symbol
    ensures r.None? <==> forall j | 0 <= j < |ops| :: ops[j].symbol != symbol
  {
    if ops == [] then None
    else if ops[0].symbol == symbol then Some(0)
    else match FirstMatch(ops[1..], symbol)
      case None => None
      case Some(i) => Some(i + 1)
  }

  /**
   * What `calculate` yields: the first operation whose symbol matches runs on
   * the operands; when none matches the step yields 0 and runs nothing.
   */
  function Dispatch(ops: seq<Operation>, n1: real, n2: real, symbol: string, lib: CMath): (r: Result<real>)
    ensures r.Failure? ==> exists i | 0 <= i < |ops| :: ops[i].symbol == symbol && !Defined(ops[i].kind, n1, n2)
  {
    match FirstMatch(ops, symbol)
    case None => Success(0.0)
    case Some(i) => Execute(ops[i].kind, n1, n2, lib)
  }

  /** A slot whose symbol matches and has no earlier match is the one that runs. */
  lemma DispatchRunsFirstMatch(ops: seq<Operation>, i: nat, n1: real, n2: real, symbol: string, lib: CMath)
    requires i < |ops| && ops[i].symbol == symbol
    requires forall j | 0 <= j < i :: ops[j].symbol != symbol
    ensures Dispatch(ops, n1, n2, symbol, lib) == Execute(ops[i].kind, n1, n2, lib)
  {
  }

  /** A symbol that no slot carries yields 0 without failing. */
  lemma DispatchUnmatched(ops: seq<Operation>, n1: real, n2: real, symbol: string, lib: CMath)
    requires forall j | 0 <= j < |ops| :: ops[j].symbol != symbol
    ensures Dispatch(ops, n1, n2, symbol, lib) == Success(0.0)
  {
  }

  /**
   * Appending a slot changes what a symbol dispatches to only when no earlier
   * slot carried that symbol: duplicates are allowed and the first one wins.
   */
  lemma DispatchAfterAppend(ops: seq<Operation>, op: Operation, n1: real, n2: real, symbol: string, lib: CMath)
    ensures Dispatch(ops + [op], n1, n2, symbol, lib) ==
      if FirstMatch(ops, symbol).Some? then Dispatch(ops, n1, n2, symbol, lib)
      else if op.symbol == symbol then Execute(op.kind, n1, n2, lib)
      else Success(0.0)
  {
    var ops' := ops + [op];
    match FirstMatch(ops, symbol)
    case Some(i) =>
      DispatchRunsFirstMatch(ops', i, n1, n2, symbol, lib);
    case None =>
      if op.symbol == symbol {
        DispatchRunsFirstMatch(ops', |ops|, n1, n2, symbol, lib);
      } else {
        DispatchUnmatched(ops', n1, n2, symbol, lib);
      }
  }

  /**
   * The value `startCalculation` prints for the stream `acc steps... =`:
   * each step combines the running result with its operand, and the first
   * failing step ends the calculation.
   */
  function Evaluate(ops: seq<Operation>, acc: real, steps: seq<Step>, lib: CMath): (r: Result<real>)
    ensures steps == [] ==> r == Success(acc)
    ensures r.Failure? ==> exists i | 0 <= i < |steps| :: FirstMatch(ops, steps[i].symbol).Some?
    decreases |steps|
  {
    if steps == [] then Success(acc)
    else match Dispatch(ops, acc, steps[0].operand, steps[0].symbol, lib)
      case Failure(e) => Failure(e)
      case Success(v) => Evaluate(ops, v, steps[1..], lib)
  }

  /**
   * The nested form `calc(...calc(calc(x0, x1, op1), x2, op2)..., xk, opk)`,
   * built from the last step inwards.
   */
  function LeftFold(ops: seq<Operation>, x0: real, steps: seq<Step>, lib: CMath): Result<real>
    decreases |steps|
  {
    if steps == [] then Success(x0)
    else
      var last := steps[|steps| - 1];
      match LeftFold(ops, x0, steps[..|steps| - 1], lib)
      case Failure(e) => Failure(e)
      case Success(v) => Dispatch(ops, v, last.operand, last.symbol, lib)
  }

  /** Evaluating a concatenation evaluates the second part from the first part's result. */
  lemma {:induction false} EvaluateAppend(ops: seq<Operation>, acc: real, a: seq<Step>, b: seq<Step>, lib: CMath)
    ensures Evaluate(ops, acc, a + b, lib) ==
      match Evaluate(ops, acc, a, lib)
      case Failure(e) => Failure(e)
      case Success(v) => Evaluate(ops, v, b, lib)
    decreases |a|
  {
    if a == [] {
      assert a + b == b;
    } else {
      assert (a + b)[0] == a[0];
      assert (a + b)[1..] == a[1..] + b;
      match Dispatch(ops, acc, a[0].operand, a[0].symbol, lib)
      case Failure(e) =>
      case Success(v) => EvaluateAppend(ops, v, a[1..], b, lib);
    }
  }

  /** The step-by-step evaluation is exactly the nested left fold. */
  lemma {:induction false} EvaluateIsLeftFold(ops: seq<Operation>, x0: real, steps: seq<Step>, lib: CMath)
    ensures Evaluate(ops, x0, steps, lib) == LeftFold(ops, x0, steps, lib)
    decreases |steps|
  {
    if steps != [] {
      var n := |steps| - 1;
      var init, last := steps[..n], steps[n];
      assert steps == init + [last];
      EvaluateAppend(ops, x0, init, [last], lib);
      EvaluateIsLeftFold(ops, x0, init, lib);
    }
  }

  predicate Total(kind: Kind)
  {
    kind == Add || kind == Subtract || kind == Multiply
  }

  /** With only Add, Subtract and Multiply registered, no calculation fails. */
  lemma {:induction false} TotalOperationsNeverFail(ops: seq<Operation>, acc: real, steps: seq<Step>, lib: CMath)
    requires forall i | 0 <= i < |ops| :: Total(ops[i].kind)
    ensures Evaluate(ops, acc, steps, lib).Success?
    decreases |steps|
  {
    if steps != [] {
      var d := Dispatch(ops, acc, steps[0].operand, steps[0].symbol, lib);
      assert d.Success?;
      TotalOperationsNeverFail(ops, d.value, steps[1..], lib);
    }
  }

  /** `10 + 5 - 3 =` with `+` and `-` registered yields 12. */
  lemma AddThenSubtract(lib: CMath)
    ensures Evaluate([Builtin(Add), Builtin(Subtract)], 10.0, [Step("+", 5.0), Step("-", 3.0)], lib) == Success(12.0)
  {
  }

  /** `8 / 0 =` with `/` registered fails with the divide-by-zero error. */
  lemma DivideByZeroStops(lib: CMath)
    ensures Evaluate([Builtin(Divide)], 8.0, [Step("/", 0.0)], lib) == Failure(DivideByZero)
  {
  }

  /** `5 * 2 =` with only `+` registered yields 0 rather than an error. */
  lemma UnregisteredSymbolYieldsZero(lib: CMath)
    ensures Evaluate([Builtin(Add)], 5.0, [Step("*", 2.0)], lib) == Success(0.0)
  {
  }

  /**
   * `numberOfSuccessfulCalculations`: one counter shared by every calculator
   * of the process, starting at 0.
   */
  class SuccessCounter {
    var successfulCalculations: nat

    constructor ()
      ensures successfulCalculations == 0
    {
      successfulCalculations := 0;
    }
  }

  class Calculator {
    var name: string
    var count: nat
    var capacity: nat
    var slots: array<Operation>

    /** `assertValidity`, plus the bookkeeping the array relies on. */
    ghost predicate Valid()
      reads this
    {
      name != [] && 0 < capacity && slots.Length == capacity && count <= capacity
    }

    /** The operations in use, in insertion order. */
    function InUse(): (ops: seq<Operation>)
      reads this, slots
      requires count <= slots.Length
      ensures |ops| == count
    {
      slots[..count]
    }

    /** The checks of `assertValidity`, in order: the name, then the capacity. */
    static function Validity(name: Option<string>, capacity: nat): (e: Option<Error>)
      ensures e.None? <==> name.Some? && name.value != [] && 0 < capacity
      ensures e == Some(ZeroCapacity) <==> name.Some? && name.value != [] && capacity == 0
      ensures e.Some? ==> e.value in {InvalidCalculatorName, ZeroCapacity}
    {
      if name.None? || name.value == [] then Some(InvalidCalculatorName)
      else if capacity == 0 then Some(ZeroCapacity)
      else None
    }

    /** `copyFrom` up to its validity check: fill a fresh array with the first n operations. */
    constructor CopyFrom(name: string, n: nat, capacity: nat, ops: seq<Operation>)
      requires n <= capacity && n <= |ops|
      ensures this.name == name && this.capacity == capacity && count == n
      ensures fresh(slots) && slots.Length == capacity
      ensures InUse() == ops[..n]
    {
      var a := new Operation[capacity];
      var i := 0;
      while i < n
        invariant 0 <= i <= n
        invariant forall j | 0 <= j < i :: a[j] == ops[j]
      {
        a[i] := ops[i];
        i := i + 1;
      }
      this.name := name;
      this.count := n;
      this.capacity := capacity;
      this.slots := a;
    }

    /**
     * `Calculator(name, n, ops)`: capacity 16 and the first n operations in
     * order; a null (None) or empty name is an error.
     */
    static method New(name: Option<string>, n: nat, ops: seq<Operation>) returns (r: Result<Calculator>)
      requires n <= MaxOperators && n <= |ops|
      ensures r.Success? <==> name.Some? && name.value != []
      ensures r.Failure? ==> r.error == InvalidCalculatorName
      ensures r.Success? ==> fresh(r.value) && fresh(r.value.slots) && r.value.Valid()
      ensures r.Success? ==> Some(r.value.name) == name && r.value.capacity == MaxOperators
      ensures r.Success? ==> r.value.InUse() == ops[..n]
    {
      var e := Validity(name, MaxOperators);
      if e.Some? {
        return Failure(e.value);
      }
      var c := new Calculator.CopyFrom(name.value, n, MaxOperators, ops);
      return Success(c);
    }

    /**
     * The default constructor: an empty name, two slots, none in use. Its
     * validity check rejects the empty name, so it never completes.
     */
    static method Default() returns (r: Result<Calculator>)
      ensures r == Failure(InvalidCalculatorName)
    {
      var c := new Calculator.CopyFrom([], 0, 2, []);
      var e := Validity(Some(c.name), c.capacity);
      r := Failure(e.value);
    }

    /** The copy constructor: same name, capacity and operations, in a new array. */
    method Clone() returns (c: Calculator)
      requires Valid()
      ensures fresh(c) && fresh(c.slots) && c.Valid()
      ensures c.name == name && c.capacity == capacity && c.InUse() == InUse()
    {
      c := new Calculator.CopyFrom(name, count, capacity, slots[..count]);
    }

    /** `calculate`: scan the slots in use and run the first whose symbol matches. */
    method Calculate(n1: real, n2: real, symbol: string, lib: CMath) returns (r: Result<real>)
      requires Valid()
      ensures r == Dispatch(InUse(), n1, n2, symbol, lib)
    {
      var i := 0;
      while i < count
        invariant 0 <= i <= count
        invariant forall j | 0 <= j < i :: slots[j].symbol != symbol
      {
        if slots[i].symbol == symbol {
          DispatchRunsFirstMatch(InUse(), i, n1, n2, symbol, lib);
          return Execute(slots[i].kind, n1, n2, lib);
        }
        i := i + 1;
      }
      DispatchUnmatched(InUse(), n1, n2, symbol, lib);
      return Success(0.0);
    }

    /**
     * Store the operation in the next free slot, or report that the slots are
     * full; the name, the capacity and the earlier slots stay as they were.
     */
    method Append(op: Operation) returns (r: Outcome)
      requires Valid()
      modifies this`count, slots
      ensures Valid()
      ensures r == if old(count) < capacity then Pass else Fail(CapacityExceeded)
      ensures InUse() == if r.Pass? then old(InUse()) + [op] else old(InUse())
    {
      if count == capacity {
        return Fail(CapacityExceeded);
      }
      slots[count] := op;
      count := count + 1;
      assert InUse() == old(InUse()) + [op];
      r := Pass;
    }

    /**
     * `addOperation` as written: it stores a copy like `Append`, but then
     * returns `*new Calculator()`, whose default constructor always fails, so
     * every call ends in an error.
     */
    method AddOperation(op: Operation) returns (r: Outcome)
      requires Valid()
      modifies this`count, slots
      ensures Valid()
      ensures r == if old(count) < capacity then Fail(InvalidCalculatorName) else Fail(CapacityExceeded)
      ensures InUse() == if old(count) < capacity then old(InUse()) + [op] else old(InUse())
    {
      r := Append(op);
      if r.Pass? {
        var d := Default();
        r := Fail(d.error);
      }
    }

    /**
     * `startCalculation` on the stream `first steps... =`: fold the steps left
     * to right through `calculate`; stop at the first error; on reaching `=`
     * count one more successful calculation.
     */
    method StartCalculation(first: real, steps: seq<Step>, lib: CMath, counter: SuccessCounter)
      returns (r: Result<real>)
      requires Valid()
      requires forall i | 0 <= i < |steps| :: steps[i].symbol != "="
      modifies counter
      ensures r == Evaluate(InUse(), first, steps, lib)
      ensures counter.successfulCalculations ==
        old(counter.successfulCalculations) + if r.Success? then 1 else 0
    {
      var result := first;
      var i := 0;
      while i < |steps|
        invariant 0 <= i <= |steps|
        invariant Evaluate(InUse(), first, steps, lib) == Evaluate(InUse(), result, steps[i..], lib)
        invariant counter.successfulCalculations == old(counter.successfulCalculations)
      {
        var step := Calculate(result, steps[i].operand, steps[i].symbol, lib);
        assert steps[i..][1..] == steps[i + 1..];
        if step.Failure? {
          return Failure(step.error);
        }
        result := step.value;
        i := i + 1;
      }
      counter.successfulCalculations := counter.successfulCalculations + 1;
      r := Success(result);
    }
  }
}
