# C-Calculator, modelled in Dafny

This project models the core of a console calculator. The user names a
calculator and picks up to 16 operations from a fixed family of six: Add `+`,
Subtract `-`, Multiply `*`, Divide `/`, Power `**` and Root `V`. The
calculator then evaluates expressions `x0 op1 x1 ... opk xk =` strictly from
left to right. The program ends the process on every fatal error. Here each
such error is an `Error` value in a `Result` or an `Outcome`.

- `outcomes.dfy` (module `Outcomes`): `Option`, `Result`, `Outcome` and the ten
  fatal errors, each with the message the program prints.
- `operations.dfy` (module `Operations`): the `Operation` value (its variant,
  name and symbol), its validity check, `setName`/`setSymbol`, the six
  variants' default constructors, the symbol table `createOperation`, and
  `execute` with its domain guards. Power and Root take their `<cmath>`
  results from a `CMath` parameter.
- `calculator.dfy` (module `Calculators`): the specification functions.
  `FirstMatch` and `Dispatch` describe the first-match lookup of `calculate`.
  `Evaluate` and `LeftFold` describe the left fold of `startCalculation`. The
  file also holds the `Calculator` class: a name, a slot array `slots` with
  `count` slots in use out of `capacity`, and methods proved against those
  functions. The process-wide success counter is a `SuccessCounter` object
  that callers pass in.
- `console.dfy` (module `Console`): the driver's count check, its six-way
  symbol check on each setup batch, and the construction of the calculator
  from an accepted batch.

Two behaviours of the code are easy to miss:

- `addOperation` never returns normally. See Findings.
- A calculator built from a list stores exactly the `n` operations it is given.
  It requires `n <= 16`, because a larger `n` overruns the 16-slot array.

## Model

| member | source | states |
|---|---|---|
| `Operations.AssertValidity` | calculator.cpp:31-35 | Passes exactly on a valid operation (both strings non-empty) and then keeps it unchanged. On failure the name error is reported exactly when the name is empty, and otherwise the symbol error. |
| `Outcomes.Message` | calculator.cpp:9-13 | Every fatal error has a non-empty message, the text `throwException` prints for that guard. |
| `Outcomes.MessagesDistinct` | calculator.cpp:9-13 | No two fatal errors print the same text. |
| `Operations.NewOperation` | calculator.cpp:31-53 | Construction or copy succeeds exactly when the name and the symbol are both non-empty, and then stores both unchanged. An empty name is reported before an empty symbol. |
| `Operations.SetName` | calculator.cpp:78-82 | Succeeds exactly when the new name and the kept symbol are non-empty. It replaces only the name. On a valid operation the only possible error is the name error. |
| `Operations.SetSymbol` | calculator.cpp:84-88 | Succeeds exactly when the kept name and the new symbol are non-empty. It replaces only the symbol. On a valid operation the only possible error is the symbol error. |
| `Operations.Builtin` | calculator.cpp:94-216 | Each variant's default constructor yields a valid operation of that variant. |
| `Operations.BuiltinSymbolsDistinct` | calculator.cpp:361-368 | No two variants share a symbol, and every variant's symbol is one of the six table tokens. |
| `Operations.CreateOperation` | calculator.cpp:361-371 | Succeeds exactly for the six tokens `+ - * / ** V`. The result is that variant's default object, carrying the given symbol. Any other token gives the invalid-operator error. |
| `Operations.CreateOperationInverse` | calculator.cpp:361-368 | Looking up a variant's own symbol gives back exactly that variant's default object. |
| `Operations.TruncateToInt` | calculator.cpp:234 | The `(int)` cast truncates toward zero: for a non-negative number the result is at most the number and within 1 below it; for a negative number it is at least the number and within 1 above it. |
| `Operations.TruncationTestsIntegrality` | calculator.cpp:234 | Comparing `(int)n2`, which truncates toward zero, with `n2` is exactly a test that `n2` is an integer. |
| `Operations.Execute` | calculator.cpp:109-236 | Succeeds exactly on each variant's domain. Divide needs `n2 != 0`. Power needs `n1` and `n2` not both 0. Root needs `n1 >= 0`, or `n2 >= 0` and integral. Results: Add and Subtract are inverse, Divide's quotient times `n2` is `n1`, Power and Root give the `pow` values. The error names the failed guard; for Root, the negative-root error comes exactly when `n2 < 0`. |
| `Operations.SubtractUndoesAdd` | calculator.cpp:109-136 | Subtracting `b` from the sum with `b` gives back the first operand. |
| `Operations.DivideUndoesMultiply` | calculator.cpp:157-185 | For a non-zero `b`, dividing the product with `b` by `b` succeeds and gives back the first operand. |
| `Calculators.FirstMatch` | calculator.cpp:267-274 | Gives the lowest index whose symbol matches. Gives none exactly when no slot carries the symbol. |
| `Calculators.Dispatch` | calculator.cpp:267-274 | A step of `calculate` fails only when some slot carries the symbol and that slot's variant is outside its domain for the operands. |
| `Calculators.DispatchRunsFirstMatch` | calculator.cpp:269-271 | When slot `i` matches and no earlier slot does, the step runs slot `i`'s `execute`. |
| `Calculators.DispatchUnmatched` | calculator.cpp:273 | A symbol that no slot carries yields 0, without running any operation or failing. |
| `Calculators.DispatchAfterAppend` | calculator.cpp:267-274 | Appending a slot leaves the dispatch of every already-matched symbol unchanged: duplicates are allowed and the first one wins. The new slot only serves symbols that were unmatched before. |
| `Calculators.Evaluate` | calculator.cpp:342-348 | With no steps before `=` the result is the first operand. A calculation fails only if some step's symbol is carried by a slot. |
| `Calculators.EvaluateAppend` | calculator.cpp:342-348 | Evaluating two runs of steps back to back equals evaluating the second run from the first run's result. A failure in the first run stops the whole evaluation. |
| `Calculators.EvaluateIsLeftFold` | calculator.cpp:336-351 | The step-by-step evaluation equals the nested left fold `calc(...calc(calc(x0, x1, op1), x2, op2)..., xk, opk)` for every stream. |
| `Calculators.TotalOperationsNeverFail` | calculator.cpp:342-348 | A calculator whose operations are all Add, Subtract or Multiply never fails a calculation. |
| `Calculators.AddThenSubtract` | calculator.cpp:336-351 | `10 + 5 - 3 =` with `+` and `-` registered yields 12. |
| `Calculators.DivideByZeroStops` | calculator.cpp:181-185 | `8 / 0 =` with `/` registered ends in the divide-by-zero error. |
| `Calculators.UnregisteredSymbolYieldsZero` | calculator.cpp:267-274 | `5 * 2 =` with only `+` registered yields 0, not an error. |
| `Calculators.SuccessCounter.constructor` | calculator.cpp:359 | The shared counter of successful calculations starts at 0. |
| `Calculators.Calculator.Validity` | calculator.cpp:248-252 | The validity check passes exactly when the name is non-null and non-empty and the capacity is positive. The capacity error comes only with a valid name, because the name is checked first. |
| `Calculators.Calculator.CopyFrom` | calculator.cpp:254-265 | Stores the name, the count and the capacity. Allocates a fresh array of that capacity. The slots in use equal the first `n` supplied operations, in order. |
| `Calculators.Calculator.New` | calculator.cpp:248-291 | Fails with the name error exactly when the name is null or empty. Otherwise it yields a fresh valid calculator with capacity 16 whose operations are the first `n` supplied, in order. |
| `Calculators.Calculator.Default` | calculator.cpp:277-286 | The default constructor always ends in the name error, because it installs an empty name. |
| `Calculators.Calculator.Clone` | calculator.cpp:293-296 | The copy has a new array, the same name and capacity, and the same operations in use. |
| `Calculators.Calculator.Calculate` | calculator.cpp:267-274 | The scan's result equals `Dispatch`: the lowest matching slot's `execute`, or 0 when nothing matches. |
| `Calculators.Calculator.Append` | calculator.cpp:329-332 | Fails with capacity-exceeded exactly when `count == capacity`, changing nothing. Otherwise the new operation becomes the last slot in use: the count rises by one, and the earlier slots, the name and the capacity are unchanged. |
| `Calculators.Calculator.AddOperation` | calculator.cpp:329-334 | As written: stores the operation like `Append` when there is room, then always ends in an error. The error is the name error from `*new Calculator()`, or capacity-exceeded when full. |
| `Calculators.Calculator.StartCalculation` | calculator.cpp:336-351 | The result equals `Evaluate` over the steps read before `=`. The success counter rises by exactly one when the calculation reaches `=`, and not at all when a step fails. |
| `Console.AcceptCount` | calculator.cpp:382-392 | One read of the count: a non-number is rejected as such, a count above 16 is rejected as over capacity, and any other count is accepted unchanged. |
| `Console.IsSupportedSymbol` | calculator.cpp:412 | The driver's six-way test accepts exactly the six tokens of the symbol table. |
| `Console.SupportedIffCreatable` | calculator.cpp:412 | The driver's six-way symbol test accepts exactly the tokens the symbol table creates. |
| `Console.ReadSymbols` | calculator.cpp:409-422 | A batch is accepted exactly when every symbol in it is supported. |
| `Console.CreateOperations` | calculator.cpp:428-432 | Creates one operation per accepted symbol, in order. Each is that symbol's default variant object, and the table's error is never reached. |
| `Console.Setup` | calculator.cpp:428-433 | With an accepted count and batch, the calculator is built exactly when the name is non-empty. It has capacity 16, and its operations carry the batch's symbols, in order. |

## Left out

- Console I/O: the prompts, the re-prompt loops for the count and for the symbol batch, `cin.fail`/`clear`/`ignore` recovery, the menu `switch`, `listSupportedOperations` and `listInputFormat`. These only read or write the console. One read of the count survives as `AcceptCount`, and one pass over a batch as `ReadSymbols`.
- The 255-character limit of `getline` on the calculator's name: console input.
- The values of `pow(n1, n2)` and `pow(n1, 1 / n2)`. They are parameters (`CMath.pow`, `CMath.root`), and only the guards are modelled. The model therefore also does not show a gap the guards leave open. For a negative `n1` and an integer `n2 >= 2`, `1 / n2` is not an integer, so `<cmath>` `pow` returns NaN although the guards let the call through.
- `Operations.SubtractUndoesAdd`: the law `(a + b) - b == a` holds over `real` only; with `double` rounding it can fail, for example `(1.0 + 1e20) - 1e20` is `0.0`. The value clauses of `Operations.Execute` are likewise exact only over `real`.
- `Operations.DivideUndoesMultiply`: the law `(a * b) / b == a` holds over `real` only; with `double`, `a * b` can overflow to infinity or lose precision.
- IEEE `double` rounding, negative zero, infinities and NaN: operands are `real`. For Root with `n2 == 0`, the exponent `1 / n2` is infinite in C++; it is left inside the abstract `CMath.root`. Out-of-range `(int)` casts are undefined behaviour and are not modelled.
- Stream failures in `startCalculation`: after a non-numeric token or the end of input the loop usually spins forever. A failed operand read stores 0, though, so it can instead trip a guard: `8 / x =` with `/` registered ends in the divide-by-zero error, and `0 ** x =` in the 0-to-the-power-0 error. The input is modelled as already-parsed steps.
- `Calculators.Calculator.StartCalculation`: requires that no step's symbol is `=`. The steps are exactly what is read before the terminating `=`.
- `Calculators.Calculator.New`: requires `n <= 16`. A larger `n` writes past the 16-slot array; the driver's count check rules it out.
- Memory management: `new`/`delete`, the heap clones of `createNew` (here a value copy), the leaked object `addOperation` returns, and the `delete[]` of a borrowed name in the destructor and `operator=`. `operator=` itself is not modelled separately: apart from that deletion it does what the copy constructor does.
- Aliasing: the calculator shares its `Operation` objects with the driver's array. Operations are values here, which is sound because nothing mutates them after setup.
- `setName`/`setSymbol` return the updated operation instead of updating it in place. A failure ends the process, so no partial state is ever observable.
- `throwException`/`terminate()`: an `Error` result instead of a process exit.
- The hand-rolled `strlen`: the length of the name sequence.
- The `double` type of the static success counter: a `nat` field of `SuccessCounter`. `getNumberOfSuccessfulCalculations` is a read of that field.

## Findings

| source | as written | input that shows it | evidently intended | confidence | as-written member | corrected member |
|---|---|---|---|---|---|---|
| calculator.cpp:333 | `addOperation` returns `*new Calculator()`. That default constructor installs an empty name, and its validity check terminates the process. | any `addOperation` call on a calculator with a free slot | store the copy and return the calculator itself (`*this`) | high (not executed) | `Calculators.Calculator.AddOperation` | `Calculators.Calculator.Append` |
