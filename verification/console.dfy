/**
 * The checks the console driver makes before it builds its calculator: the
 * number of operations, the batch of operation symbols, and the construction
 * of the calculator from them. Prompts, retries and the menu are console I/O.
 */
module Console {
  import opened Outcomes
  import opened Operations
  import opened Calculators

  /** The driver's answer to one typed operation count. */
  datatype CountReply = Accepted(count: nat) | NotANumber | OverCapacity

  /**
   * One read of the operation count: an entry that is not a number (None) or
   * that exceeds the capacity is rejected, anything else is taken as it is.
   */
  function AcceptCount(entry: Option<nat>): (r: CountReply)
    ensures r == NotANumber <==> entry.None?
    ensures r.Accepted? ==> entry == Some(r.count) && r.count <= MaxOperators
    ensures r == OverCapacity <==> entry.Some? && MaxOperators < entry.value
  {
    match entry
    case None => NotANumber
    case Some(n) => if n > MaxOperators then OverCapacity else Accepted(n)
  }

  /** The driver's own six-way test of a symbol typed at setup. */
  function IsSupportedSymbol(s: string): (ok: bool)
    ensures ok <==> s in Symbols
  {
    s == "+" || s == "-" || s == "*" || s == "/" || s == "**" || s == "V"
  }

  /** The driver's test and the symbol table accept exactly the same tokens. */
  lemma SupportedIffCreatable(s: string)
    ensures IsSupportedSymbol(s) <==> CreateOperation(s).Success?
    ensures IsSupportedSymbol(s) ==> CreateOperation(s).value.symbol == s
  {
  }

  /**
   * One pass over a batch of typed symbols: read them in order and stop at the
   * first unsupported one. The batch is accepted exactly when every symbol in
   * it is supported.
   */
  method ReadSymbols(batch: seq<string>) returns (valid: bool)
    ensures valid <==> forall i | 0 <= i < |batch| :: IsSupportedSymbol(batch[i])
  {
    valid := true;
    var i := 0;
    while i < |batch|
      invariant 0 <= i <= |batch|
      invariant forall j | 0 <= j < i :: IsSupportedSymbol(batch[j])
    {
      if !IsSupportedSymbol(batch[i]) {
        valid := false;
        break;
      }
      i := i + 1;
    }
  }

  /**
   * Build one operation per accepted symbol through the symbol table; the
   * batch check guarantees that the table's error is never reached.
   */
  method CreateOperations(symbols: seq<string>) returns (ops: seq<Operation>)
    requires forall i | 0 <= i < |symbols| :: IsSupportedSymbol(symbols[i])
    ensures |ops| == |symbols|
    ensures forall i | 0 <= i < |ops| :: ops[i].symbol == symbols[i] && ops[i] == Builtin(ops[i].kind)
  {
    ops := [];
    var i := 0;
    while i < |symbols|
      invariant 0 <= i <= |symbols|
      invariant |ops| == i
      invariant forall j | 0 <= j < i :: ops[j].symbol == symbols[j] && ops[j] == Builtin(ops[j].kind)
    {
      SupportedIffCreatable(symbols[i]);
      var op := CreateOperation(symbols[i]);
      ops := ops + [op.value];
      i := i + 1;
    }
  }

  /**
   * The driver's setup once the count and the batch are accepted: create the
   * operations and build the calculator, which fails only for an empty name.
   */
  method Setup(name: string, n: nat, batch: seq<string>) returns (r: Result<Calculator>)
    requires AcceptCount(Some(n)) == Accepted(n) && |batch| == n
    requires forall i | 0 <= i < n :: IsSupportedSymbol(batch[i])
    ensures r.Success? <==> name != []
    ensures r.Failure? ==> r.error == InvalidCalculatorName
    ensures r.Success? ==> fresh(r.value) && r.value.Valid() && r.value.name == name
    ensures r.Success? ==> r.value.capacity == MaxOperators
    ensures r.Success? ==> |r.value.InUse()| == n
    ensures r.Success? ==> forall i | 0 <= i < n ::
      r.value.InUse()[i].symbol == batch[i] && r.value.InUse()[i] == Builtin(r.value.InUse()[i].kind)
  {
    var ops := CreateOperations(batch);
    r := Calculator.New(Some(name), n, ops);
    if r.Success? {
      assert ops[..n] == ops;
    }
  }
}
