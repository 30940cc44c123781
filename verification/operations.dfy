/**
 * The operation family: six closed variants, each with a display name, a
 * symbol that input tokens are matched against, and an `execute` guarded by
 * the variant's domain checks.
 */
module Operations {
  import opened Outcomes

  /** The six concrete operation classes. */
  datatype Kind = Add | Subtract | Multiply | Divide | Power | Root

  /**
   * An operation object. `kind` is its dynamic class, which decides what
   * `execute` does; `name` and `symbol` are the two string fields. Copies
   * (the copy constructor, `createNew`) are plain values.
   */
  datatype Operation = Operation(kind: Kind, name: string, symbol: string)

  /** The object invariant every operation keeps: both strings are non-empty. */
  predicate Valid(op: Operation)
  {
    op.name != [] && op.symbol != []
  }

  /** `assertValidity`: the name is checked first, then the symbol. */
  function AssertValidity(op: Operation): (r: Result<Operation>)
    ensures r.Success? <==> Valid(op)
    ensures r.Success? ==> r.value == op
    ensures r.Failure? ==> (r.error == InvalidOperationName <==> op.name == [])
    ensures r.Failure? ==> r.error in {InvalidOperationName, InvalidOperationSymbol}
  {
    if op.name == [] then Failure(InvalidOperationName)
    else if op.symbol == [] then Failure(InvalidOperationSymbol)
    else Success(op)
  }

  /** The base constructor (and copy): store both fields, then check them. */
  function NewOperation(kind: Kind, name: string, symbol: string): (r: Result<Operation>)
    ensures r.Success? <==> name != [] && symbol != []
    ensures r.Success? ==> Valid(r.value) && r.value == Operation(kind, name, symbol)
    ensures r.Failure? ==> (r.error == InvalidOperationName <==> name == [])
    ensures r.Failure? ==> r.error in {InvalidOperationName, InvalidOperationSymbol}
  {
    AssertValidity(Operation(kind, name, symbol))
  }

  /** `setName`: replace the name, then check the whole object. */
  function SetName(op: Operation, name: string): (r: Result<Operation>)
    ensures r.Success? <==> name != [] && op.symbol != []
    ensures r.Success? ==> r.value.name == name && r.value.symbol == op.symbol && r.value.kind == op.kind
    ensures Valid(op) && r.Failure? ==> r.error == InvalidOperationName
  {
    AssertValidity(op.(name := name))
  }

  /** `setSymbol`: replace the symbol, then check the whole object. */
  function SetSymbol(op: Operation, symbol: string): (r: Result<Operation>)
    ensures r.Success? <==> op.name != [] && symbol != []
    ensures r.Success? ==> r.value.symbol == symbol && r.value.name == op.name && r.value.kind == op.kind
    ensures Valid(op) && r.Failure? ==> r.error == InvalidOperationSymbol
  {
    AssertValidity(op.(symbol := symbol))
  }

  /** The default constructor of each variant, which fixes its name and symbol. */
  function Builtin(kind: Kind): (op: Operation)
    ensures Valid(op) && op.kind == kind
  {
    match kind
    case Add => Operation(Add, "Add", "+")
    case Subtract => Operation(Subtract, "Subtract", "-")
    case Multiply => Operation(Multiply, "Multiply", "*")
    case Divide => Operation(Divide, "Divide", "/")
    case Power => Operation(Power, "Power", "**")
    case Root => Operation(Root, "Root", "V")
  }

  /** The six tokens the symbol table knows. */
  const Symbols: set<string> := {"+", "-", "*", "/", "**", "V"}

  /** Different variants never share a symbol, so a symbol names one variant. */
  lemma BuiltinSymbolsDistinct(k1: Kind, k2: Kind)
    ensures Builtin(k1).symbol == Builtin(k2).symbol ==> k1 == k2
    ensures Builtin(k1).symbol in Symbols
  {
  }

  /** `createOperation`: the symbol table, with an error for any other token. */
  function CreateOperation(symbol: string): (r: Result<Operation>)
    ensures r.Success? <==> symbol in Symbols
    ensures r.Success? ==> r.value == Builtin(r.value.kind) && r.value.symbol == symbol
    ensures r.Failure? ==> r.error == InvalidOperator
  {
    if symbol == "+" then Success(Builtin(Add))
    else if symbol == "-" then Success(Builtin(Subtract))
    else if symbol == "*" then Success(Builtin(Multiply))
    else if symbol == "/" then Success(Builtin(Divide))
    else if symbol == "**" then Success(Builtin(Power))
    else if symbol == "V" then Success(Builtin(Root))
    else Failure(InvalidOperator)
  }

  /** Looking up a variant's own symbol gives back that variant. */
  lemma CreateOperationInverse(kind: Kind)
    ensures CreateOperation(Builtin(kind).symbol) == Success(Builtin(kind))
  {
  }

  /**
   * The two `<cmath>` results the model does not compute: `pow(n1, n2)` for
   * Power and `pow(n1, 1 / n2)` for Root, the latter as a function of n1 and n2.
   */
  datatype CMath = CMath(pow: (real, real) -> real, root: (real, real) -> real)

  /** C++'s `(int)x`: truncation toward zero. */
  function TruncateToInt(x: real): (t: int)
    ensures 0.0 <= x ==> t as real <= x < t as real + 1.0
    ensures x < 0.0 ==> t as real - 1.0 < x <= t as real
  {
    if x < 0.0 then -((-x).Floor) else x.Floor
  }

  predicate IsInteger(x: real)
  {
    x.Floor as real == x
  }

  /** Comparing a number with its truncation is exactly an integrality test. */
  lemma TruncationTestsIntegrality(x: real)
    ensures TruncateToInt(x) as real == x <==> IsInteger(x)
  {
    if x < 0.0 {
      var y := -x;
      if IsInteger(y) {
        var k := -(y.Floor);
        assert k as real == x;
        assert (k as real).Floor == k;
      }
      if IsInteger(x) {
        var k := -(x.Floor);
        assert k as real == y;
        assert (k as real).Floor == k;
      }
    }
  }

  lemma DivisionCancels(a: real, b: real)
    requires b != 0.0
    ensures (a / b) * b == a && (a * b) / b == a
  {
  }

  /** Where each variant's `execute` completes, stated positively. */
  predicate Defined(kind: Kind, n1: real, n2: real)
  {
    match kind
    case Add => true
    case Subtract => true
    case Multiply => true
    case Divide => n2 != 0.0
    case Power => n1 != 0.0 || n2 != 0.0
    case Root => 0.0 <= n1 || (0.0 <= n2 && IsInteger(n2))
  }

  /** `execute` of each variant, with its guards in the order the source checks them. */
  function Execute(kind: Kind, n1: real, n2: real, lib: CMath): (r: Result<real>)
    ensures r.Success? <==> Defined(kind, n1, n2)
    ensures r.Success? && kind == Add ==> r.value - n2 == n1
    ensures r.Success? && kind == Subtract ==> r.value + n2 == n1
    ensures r.Success? && kind == Multiply ==> if n2 == 0.0 then r.value == 0.0 else r.value / n2 == n1
    ensures r.Success? && kind == Divide ==> r.value * n2 == n1
    ensures r.Success? && kind == Power ==> r.value == lib.pow(n1, n2)
    ensures r.Success? && kind == Root ==> r.value == lib.root(n1, n2)
    ensures r.Failure? && kind == Divide ==> r.error == DivideByZero
    ensures r.Failure? && kind == Power ==> r.error == ZeroToThePowerOfZero
    ensures r.Failure? && kind == Root ==> (r.error == NegativeRootOfNegative <==> n2 < 0.0)
    ensures r.Failure? && kind == Root ==> r.error in {NegativeRootOfNegative, FractionalRootOfNegative}
  {
    match kind
    case Add => Success(n1 + n2)
    case Subtract => Success(n1 - n2)
    case Multiply =>
      if n2 != 0.0 then DivisionCancels(n1, n2); Success(n1 * n2) else Success(n1 * n2)
    case Divide =>
      if n2 == 0.0 then Failure(DivideByZero) else DivisionCancels(n1, n2); Success(n1 / n2)
    case Power =>
      if n1 == 0.0 && n2 == 0.0 then Failure(ZeroToThePowerOfZero) else Success(lib.pow(n1, n2))
    case Root =>
      TruncationTestsIntegrality(n2);
      if n1 < 0.0 && n2 < 0.0 then Failure(NegativeRootOfNegative)
      else if n1 < 0.0 && TruncateToInt(n2) as real != n2 then Failure(FractionalRootOfNegative)
      else Success(lib.root(n1, n2))
  }

  /** Subtract undoes Add. */
  lemma SubtractUndoesAdd(a: real, b: real, lib: CMath)
    ensures Execute(Subtract, Execute(Add, a, b, lib).value, b, lib) == Success(a)
  {
  }

  /** Divide undoes Multiply whenever it is allowed to run. */
  lemma DivideUndoesMultiply(a: real, b: real, lib: CMath)
    requires b != 0.0
    ensures Execute(Divide, Execute(Multiply, a, b, lib).value, b, lib) == Success(a)
  {
  }
}
