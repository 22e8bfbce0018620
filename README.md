# glisp in Dafny

A model of glisp, a small Lisp written in Go, with proofs about it. The
model covers the front end and the evaluator:

- the character scanner `Tokenize` (`tokenizer.dfy`);
- the token classifier `BuildMetaTokens` (`lexer.dfy`);
- the grouper `BuildAst`, which turns tokens into nested lists (`ast.dfy`);
- the environment chain, `PutEnv`, `LookUp` and `DefaultEnv` (`env.dfy`);
- `Eval` and the `Apply` method of every built-in, closure and macro
  (`interpreter.dfy`). `primitives.dfy` holds what the built-ins do with
  their arguments once they have been evaluated.

Values are one datatype (`Values.Value`) shared by the parser and the
interpreter. `Values.Slice` stands for a bare Go slice that is not wrapped
in a `parser.List`; only `cons` produces one. An environment frame is a
class, `Values.Frame`. Its binding map is updated in place and is shared by
every closure that captured the frame. Its parent link does not change. A
ghost list of ancestors shows that every chain is finite and has no cycle.

Every evaluation method may write only the frame it is given
(`modifies env`) and the frames it creates itself. Go's unbounded call
stack becomes a `fuel` argument, and running out of it is the error
`OutOfFuel`. A Go panic is an `Err(Panic(reason))` value. Panics,
non-finite divisions and `OutOfFuel` (the abortive errors) pass through every
`if err != nil` handler unchanged; see `Values.Wrap`.

The contracts of the evaluation methods are predicates over the state
before and after a call (`DefPost`, `IfPost`, `FnPost`, `MacroPost`, ...).
They state the exact result and the new bindings whenever the elements
being evaluated are not calls themselves. That outcome is given by the
specification functions `EvalLeaf` and `LeafArgs`. Nested calls are
covered only by the facts that hold for every call (see "Left out").

The model keeps the code's quirks as written:

- `decomposeFn` reads element 0 of the parameter list on every iteration;
- `first` rejects lists and answers Nill for anything else;
- `list` returns its arguments unevaluated;
- `cons` gives a two-element list: the element, then the list's items as
  one bare slice (see "Findings");
- `=` panics on two lists;
- `*` and `/` with no operands panic;
- closures and `if` return a Thunk that nothing reduces;
- a macro evaluates its result again in the caller's frame.

## Model

| member | source | states |
|---|---|---|
| Tokenizer.IsBracket | parser/tokensizer.go:7-9 | the two parentheses |
| Tokenizer.IsQuote | parser/tokensizer.go:11-13 | the double quote |
| Tokenizer.IsSpace | parser/tokensizer.go:15-21 | exactly space, tab, newline, vertical tab, form feed and carriage return |
| Tokenizer.IsNonSpace | parser/tokensizer.go:49 | the stop test that skips leading white space: any character that is not one of the six white-space characters |
| Tokenizer.IsTokenStop | parser/tokensizer.go:7-25 | a plain token stops exactly at a bracket, a double quote or one of the six ASCII white-space characters |
| Tokenizer.ScanTo | parser/tokensizer.go:27-38 | the scan ends at the first position at or after the start whose character satisfies the stop test; no earlier character satisfies it; with no such character the scan ends at the end of the input |
| Tokenizer.ScanToUnique | parser/tokensizer.go:27-38 | any position with that first-stop property is the one the scan finds |
| Tokenizer.ReadNext | parser/tokensizer.go:27-44 | the token is the input slice from `start` to `advance`; `advance` is the first stop position (one past it when the stop character is included) or the end of the input; with nothing left it is `start` and the token is empty |
| Tokenizer.Tokenize | parser/tokensizer.go:46-63 | leading white space is skipped; a quote starts a token that runs through the next quote or to the end; a bracket is a one-character token; any other token is non-empty, contains no stop character and ends at the next one; all-blank input gives an empty token at the end; a token never starts with white space |
| Lexer.IsStringTok | parser/lexer.go:23-25 | a non-empty token whose first character is a double quote |
| Lexer.IsNumberTok | parser/lexer.go:27-30 | a scan for the pattern `^\d+(\.\d*)?$`; `NumberTokMatchesPattern` proves the two agree |
| Lexer.DigitRun | parser/lexer.go:27-30 | the run of ASCII digits starting at a position is maximal: all digits, followed by a non-digit or the end |
| Lexer.NumberTokMatchesPattern | parser/lexer.go:27-30 | the number test holds exactly when the token matches `^\d+(\.\d*)?$`: one or more digits, then optionally a dot and any number of digits (both directions) |
| Lexer.TrimQuotes | parser/lexer.go:38 | the result is a slice of the token with only quote characters cut off either end; it neither starts nor ends with a quote |
| Lexer.Classify | parser/lexer.go:35-47 | the tests come in the source's order: a leading quote makes a STRING whose text is the token with the quotes trimmed; otherwise a number; otherwise a leading `(` or `)`; otherwise an IDENT; every kind but STRING keeps the token text (each as an if-and-only-if) |
| Lexer.QuotedTokenIsString | parser/lexer.go:37-38 | a quoted token without inner quotes becomes a STRING holding exactly the text between its quotes |
| Lexer.BuildMetaTokens | parser/lexer.go:32-51 | one token out per token in, in order, each classified as `Classify` states |
| Ast.CloseFrom | parser/ast.go:45-57 | the `buildList` scan stops at or after its start and no later than the end, and where it stops before the end there is a right parenthesis |
| Ast.CloseFromIsMatchingClose | parser/ast.go:45-57 | the stop is the matching close: there the depth is back to zero; before it the depth never goes negative and no right parenthesis appears at depth zero |
| Ast.Parse | parser/ast.go:61-80 | the output of `BuildAst` for a token list, as a recursive definition |
| Ast.ParseFrom | parser/ast.go:63-78 | the nodes of the tokens from a position on: a group up to its matching close becomes one List, a stray close is skipped, any other token becomes its atom |
| Ast.ParseNoLonger | parser/ast.go:61-80 | `BuildAst` never yields more nodes than there are tokens |
| Ast.ParseFromWithin | parser/ast.go:63-78 | the nodes parsed from a position on never outnumber the tokens left from there |
| Ast.Atom | parser/ast.go:69-75 | a non-parenthesis token becomes a String, a Number read by the number parser, or an Ident, by its kind |
| Ast.ParseFlat | parser/ast.go:69-75 | tokens without parentheses become atoms one to one and in order: STRING to String, NUMBER to Number, IDENT to Ident |
| Ast.StrayCloseIsSkipped | parser/ast.go:64-77 | a right parenthesis at the top level produces no node, and parsing continues with the next token |
| Ast.GroupBecomesList | parser/ast.go:42-68 | a parenthesised group of atoms becomes one List of their nodes, and parsing resumes after its closing parenthesis |
| Ast.BuildList | parser/ast.go:42-59 | returns the index of the matching close (or the end) and the parsed nodes of exactly the tokens between the open and that index |
| Ast.BuildNode | parser/ast.go:64-77 | one step of the `BuildAst` loop: parsing from `i` is the nodes it appends followed by parsing from where the loop continues, and it always moves forward |
| Ast.BuildAst | parser/ast.go:61-80 | the loop builds exactly `Parse` of the tokens |
| Values.Frame.constructor | interpreter/functions.go:124 | a new frame has no bindings, the given parent, and a well-formed chain |
| Environment.PutEnv | interpreter/env.go:12-14 | binds the name in that frame only, replacing an earlier binding there |
| Environment.LookUp | interpreter/env.go:16-27 | a name bound in the first frame gives its value; the only possible error is the invalid-identifier error naming that name |
| Environment.LookUpShadowing | interpreter/env.go:16-27 | the innermost frame of the chain that binds a name supplies its value |
| Environment.LookUpFailsIffUnbound | interpreter/env.go:16-27 | a lookup fails exactly when no frame of the chain binds the name (both directions) |
| Environment.DefaultBindings | interpreter/env.go:29-45 | the twelve names of the global frame and their built-ins |
| Environment.DefaultEnv | interpreter/env.go:29-45 | a fresh parentless frame binding exactly the twelve default names to their built-ins |
| Environment.GlobalFrameLeavesOutSpecialForms | interpreter/env.go:29-45 | `if`, `quote`, `=`, `not`, `list` and `empty?` are unbound in the global frame |
| Primitives.IfChoice | interpreter/functions.go:185-200 | a truthy test yields the consequent as a Thunk in the caller's frame; a false test yields the alternative the same way, or Nill when there is none |
| Primitives.IfAgreesWithNot | interpreter/functions.go:185-200 | `if` takes its consequent exactly when `not` of the test gives false |
| Primitives.NotOf | interpreter/functions.go:231-239 | `not` needs exactly one argument and gives the negation of its truthiness, so Nill gives true |
| Primitives.Differ | interpreter/functions.go:219 | Go's `!=` on interface values: they are not different exactly when they are the same value of a comparable type; it panics exactly when both share a type that cannot be compared |
| Primitives.AdjacentEqual | interpreter/functions.go:218-223 | the comparison loop of `=` from a position on: the first differing pair gives false, a panic of `!=` is passed on, and reaching the end gives true |
| Primitives.EqualIsTrueIffNeighboursEqual | interpreter/functions.go:215-223 | `=` gives true exactly when every pair of neighbours is the same value of a comparable type (both directions) |
| Primitives.EqualOnComparablesDoesNotPanic | interpreter/functions.go:218-222 | with every argument of a comparable type, `=` gives a Bool and never panics |
| Primitives.EqualOnListsPanics | interpreter/functions.go:219 | comparing two lists panics, whatever they hold |
| Primitives.AsNumbers | interpreter/functions.go:247-255 | succeeds exactly when every value is a Number, and then gives their numbers in order; the failure is always the invalid-arg error naming "Add" |
| Primitives.AddOf | interpreter/functions.go:258-268 | `+` on its evaluated arguments: the operand error, or `AddNums` of the numbers |
| Primitives.MinusOf | interpreter/functions.go:270-283 | `-` on its evaluated arguments: the operand error, or `MinusNums` of the numbers |
| Primitives.MultOf | interpreter/functions.go:285-298 | `*` on its evaluated arguments: the operand error, or `MultNums` of the numbers |
| Primitives.DivOf | interpreter/functions.go:300-313 | `/` on its evaluated arguments: any operand error is replaced by the invalid-arg error of Div; otherwise `DivNums` of the numbers |
| Primitives.AddNums | interpreter/functions.go:263-267 | the sum of the numbers from 0; no operand count is rejected |
| Primitives.MinusNums | interpreter/functions.go:275-282 | no operands is the wrong-number-of-arguments error of Minus; otherwise the first minus each of the rest in turn |
| Primitives.MultNums | interpreter/functions.go:290-297 | one operand comes back as it is; none is the index-out-of-range panic; otherwise the first times each of the rest in turn |
| Primitives.DivNums | interpreter/functions.go:305-312 | one operand comes back as it is; none is the index-out-of-range panic; otherwise the first divided by each of the rest in turn, failing on a zero divisor |
| Primitives.SubtractAllIsMinusSum | interpreter/functions.go:278-281 | subtracting left to right is the first operand minus the sum of the rest |
| Primitives.MultiplyAllIsProduct | interpreter/functions.go:293-296 | multiplying left to right from a seed is the product of the seed and the rest |
| Primitives.DivideAllIsOverProduct | interpreter/functions.go:308-311 | dividing left to right fails exactly when some divisor is zero, and otherwise gives the first operand over the product of the divisors |
| Primitives.ArithmeticNeedsNumbers | interpreter/functions.go:247-313 | a non-number operand is the invalid-arg error of Add for `+`, `-` and `*`, and of Div for `/` |
| Primitives.ArithmeticClosedForms | interpreter/functions.go:258-313 | on numbers `+` is the sum, `-` the first minus the sum of the rest, `*` the product of two or more; one operand comes back unchanged from `*` and `/` |
| Primitives.ArithmeticExamples | interpreter/functions.go:258-313 | `(+)` is 0, `(* 7)` is 7, `(- 10 3 2)` is 5, `(/ 8 2 2)` is 2; `(*)` and `(/)` panic |
| Primitives.ListOperations | interpreter/functions.go:315-381 | `cons` of an element and a list gives the two-element list of the element and the bare slice of the list's items; `rest` drops the head and returns an empty list unchanged; `empty?` tests the length; each rejects a non-list where it needs a list |
| Primitives.ConsOf | interpreter/functions.go:315-330 | `cons` as written: the wrong number of arguments or a non-list second argument fails; otherwise the element followed by the list's items as one bare slice |
| Primitives.ConsDoesNotPrepend | interpreter/functions.go:329 | the result of `cons` always has two elements, and it differs from the prepended list on every list, a one-element list included, where the second element is the slice rather than the item; `(cons 1 ())` gives `(1 [])` and not `(1)` |
| Primitives.ConsPrepend | interpreter/functions.go:315-330 | `cons` as evidently intended: the same errors, and on success the element prepended to the list's items |
| Primitives.ConsPrependOfHeadAndRest | interpreter/functions.go:315-366 | the intended `cons` of a non-empty list's head and its `rest` gives the list back |
| Primitives.FirstOf | interpreter/functions.go:332-348 | `first` needs one argument; a list fails with the invalid-arg error and anything else gives Nill |
| Primitives.RestOf | interpreter/functions.go:350-366 | `rest` needs one list argument; an empty list comes back unchanged, otherwise the list without its head |
| Primitives.EmptyOf | interpreter/functions.go:368-381 | `empty?` needs one list argument and tells whether it has no items |
| Primitives.QuoteOf | interpreter/functions.go:203-208 | `quote` needs exactly one argument and gives it back unevaluated |
| Primitives.EqualOf | interpreter/functions.go:210-224 | `=` needs two or more values and compares neighbours left to right, stopping at the first pair that differs |
| Primitives.Truthy | interpreter/functions.go:185-193 | a Bool is its own truth value, Nill is false and every other value is true |
| Primitives.FirstNeverYieldsAnElement | interpreter/functions.go:332-348 | `first` fails on every list and gives Nill on anything else |
| Primitives.PrimOf | interpreter/functions.go:210-403 | the result of each argument-evaluating built-in on its evaluated arguments: `=`, `not`, the four arithmetic operators, `cons`, `first`, `rest` and `empty?` by their own functions, `print` and `println` giving Nill |
| Primitives.Decomposed | interpreter/functions.go:75-92 | `decomposeFn`: fewer than two arguments or a non-list first argument is rejected; the result has one parameter per element of the parameter list, and each of them is the name in the list's first element, which must be an identifier. The body is every argument after the first |
| Primitives.DecomposedShape | interpreter/functions.go:75-92 | a definition is rejected exactly when it has under two arguments, a non-list first argument, or a non-identifier at the head of that list; otherwise the body is every argument after the first (never empty) and each of the parameters is the name at the head of the list, one per element |
| Primitives.BindAll | interpreter/functions.go:125-131 | the bindings after one `PutEnv` per parameter, in order, so that a later repeat of a name overrides an earlier one |
| Primitives.BindAllKeys | interpreter/functions.go:125-132 | a call frame binds exactly the parameter names |
| Primitives.BindAllBindsLastOccurrence | interpreter/functions.go:161-163 | each parameter is bound to the argument at its last occurrence |
| Primitives.RepeatedParamBindsLastArgument | interpreter/functions.go:84-90 | with the repeated parameters `decomposeFn` produces, a call frame holds one binding, to the last argument |
| Interpreter.Applicable | interpreter/eval.go:33 | the values that pass the `Sexp` assertion at the head of a call: built-ins, closures and macros |
| Interpreter.EvalLeaf | interpreter/eval.go:17-37 | a non-call element evaluates to itself, to its lookup, or fails only with unknown-element or the invalid-identifier error naming it |
| Interpreter.LeafArgs | interpreter/functions.go:63-73 | the left-to-right outcome of evaluating non-calls: as many values as elements, or the first error, which is never a panic |
| Interpreter.LeafArgsPrefix | interpreter/functions.go:63-73 | the first error of a prefix is the first error of the whole list |
| Interpreter.LeafArgsElementwise | interpreter/functions.go:63-73 | the elements evaluate without error exactly when each one does, and then each value is that element's own value (both directions) |
| Interpreter.Eval | interpreter/eval.go:17-38 | no binding of the frame is ever removed; non-calls evaluate as `EvalLeaf` states and leave the frame unchanged; a failing head yields problem-calling; a non-applicable head panics; an applicable head is applied to the raw tail as `ApplyPost` states |
| Interpreter.EvalArgs | interpreter/functions.go:63-73 | one value per argument; for non-call arguments the outcome is `LeafArgs` and the frame is unchanged |
| Interpreter.DecomposeFn | interpreter/functions.go:75-92 | the loop computes exactly `Decomposed`, whose shape `DecomposedShape` gives |
| Interpreter.Apply | interpreter/eval.go:33-34 | dispatches on the head: built-in, closure or macro, with the matching postcondition |
| Interpreter.ApplyPrim | interpreter/functions.go:94-403 | each built-in's result: `fn` and `macro` capture the caller's frame around the decomposed definition; `quote` gives its single raw argument; `list` its raw arguments; the rest as their own rows state |
| Interpreter.ApplyDef | interpreter/functions.go:94-108 | the wrong number of arguments or a non-identifier name fails without changing the frame; success binds the name in the caller's frame to the returned value; a failing value gives the def error naming the symbol and its cause |
| Interpreter.ApplyIf | interpreter/functions.go:176-201 | under two arguments fails; the test's error is passed on; otherwise the result is `IfChoice` of the test's value, and the frame is unchanged |
| Interpreter.ApplyEqual | interpreter/functions.go:210-224 | on evaluated arguments the result is `EqualOf` of their values; an evaluation error is passed on |
| Interpreter.NumArgs | interpreter/functions.go:242-256 | the outcome is `AsNumbers` of the evaluated arguments, or their evaluation error |
| Interpreter.AddNumbers | interpreter/functions.go:263-267 | the loop computes the sum from 0 |
| Interpreter.SubtractNumbers | interpreter/functions.go:275-282 | fails on no operands; otherwise subtracts the rest from the first, left to right |
| Interpreter.MultiplyNumbers | interpreter/functions.go:290-297 | one operand is returned as it is; none panics; otherwise multiplies left to right |
| Interpreter.DivideNumbers | interpreter/functions.go:305-312 | one operand is returned as it is; none panics; otherwise divides left to right, and a zero divisor gives the non-finite error |
| Interpreter.ApplyArithmetic | interpreter/functions.go:258-313 | `+ - * /` on their evaluated arguments as `PrimOf` states; `/` reports every operand error as its own invalid-arg error |
| Interpreter.ApplyOnValues | interpreter/functions.go:226-403 | `not`, `cons`, `first`, `rest`, `empty?`, `print` and `println` on their evaluated arguments, as `PrimOf` states |
| Interpreter.BindArgs | interpreter/functions.go:124-132 | the argument values, evaluated in the caller's frame, are bound in the new frame as `BindAll` gives; an evaluation error becomes the arg-evaluation error around its cause; every failure is that error or an abortive error |
| Interpreter.RunFnBody | interpreter/functions.go:133-143 | every body form but the last is evaluated in the call frame; the last comes back as a Thunk in that frame; an error gives the body error; an empty body gives the unreachable error, and a non-empty body fails only with the body error or an abortive error |
| Interpreter.ApplyFn | interpreter/functions.go:119-144 | an arity mismatch fails without changing anything; a success is a Thunk of the last body form in a freshly allocated frame under the closure's own, binding the parameters to the argument values; every failure is an arity, argument or body error or an abortive error, and the unreachable error occurs only for an empty body |
| Interpreter.BindParams | interpreter/functions.go:160-163 | the raw arguments are bound in the new frame as `BindAll` gives |
| Interpreter.ApplyMacro | interpreter/functions.go:155-174 | an arity mismatch fails; a body error gives the body error; an empty body gives unknown-element; otherwise the value of the last body form, evaluated in the macro's frame over the raw arguments, is evaluated again in the caller's frame |
| Interpreter.AddOneTwo | main.go:12-25 | the driver's program `(+ 1 2)`, in the default environment, evaluates to 3 |
| Interpreter.ConsOneEmpty | interpreter/functions.go:315-330 | `(cons 1 ())` in the default environment evaluates to the two-element list of 1 and the empty bare slice |
| Interpreter.IfIsUnbound | interpreter/env.go:29-45 | `(if 1 2)` in the default environment fails with problem-calling, because `if` is not bound there |

## Left out

- Tokenizer.Tokenize: the whole rest of the input is given at once. The `atEOF` flag, the always-nil error result and the request for more data are left out, because they belong to the streaming protocol of `bufio.Scanner`.
- Tokenizer.ReadNext: each character counts as one position. UTF-8 decoding, multi-byte runes and `utf8.RuneError` are not modelled.
- The driver loop in `main.go` that feeds `Tokenize` to a scanner and prints the results is not modelled. It is I/O; `Interpreter.AddOneTwo` covers its evaluation step.
- Lexer.BuildMetaTokens: requires every token to be non-empty. Go's `tok[0]` would panic on an empty token, and `Tokenize` never produces one: at the end it returns the empty token together with the "no token" signal.
- Ast.Atom: `strconv.ParseFloat` is the parameter `parseNum`. Its error is discarded by the source, and which number it produces is not modelled.
- Numbers are mathematical reals. float64 rounding, overflow, infinities and NaN are not modelled.
- Interpreter.DivideNumbers: a zero divisor gives `Err(NonFinite)`, where Go produces an infinity or NaN and carries on, because reals have no infinity.
- Print and println: the output is not modelled. Their arguments are evaluated and the result is Nill.
- Error texts are not modelled. Each error keeps its kind and the call name or identifier that its text mentions.
- The `String()` methods used for printing values are not modelled.
- Thunk: the Go definition of Thunk is not part of this model. Thunks are values that no part of the model reduces. Eval treats a Thunk like any other unknown element, and a Thunk at the head of a call panics with not-applicable.
- `parser.Bool` is not part of this model; it is modelled as the `Bool` value.
- The leaf-only gap in the Interpreter lines below has one cause. Frames are mutable and shared, and a nested call can rebind names in them (through `def` or a macro), so the result of a nested call is not a function of the values before it. Stating that result exactly would need an evaluation function over the whole store of frames, which the model does not define.
- Interpreter.Eval: the exact result is stated when the call's head is not itself a call. For a call with a nested call at its head, the contract states only that no binding is removed.
- Interpreter.EvalArgs: the exact outcome is stated when no argument is a call, or when an error occurs before the first call. Otherwise the contract states the count of values.
- Interpreter.NumArgs: the exact outcome is stated when no argument is a call, as for `EvalArgs`.
- Interpreter.ApplyDef: the bound value is stated exactly when the value expression is not a call. Otherwise the contract states that the name is bound to the returned value.
- Interpreter.ApplyIf: the branch taken is stated exactly when the test is not a call. Otherwise the contract states that one of the two branches, or Nill, is returned.
- Interpreter.ApplyEqual: the exact outcome is stated when no argument is a call.
- Interpreter.ApplyArithmetic: the exact outcome is stated when no argument is a call.
- Interpreter.ApplyOnValues: the exact outcome is stated when no argument is a call.
- Interpreter.BindArgs: the exact outcome is stated when no argument is a call.
- Interpreter.RunFnBody: the exact outcome is stated when no body form before the last is a call.
- Interpreter.ApplyFn: the bindings of the new frame are stated when no argument and no body form before the last is a call.
- Interpreter.ApplyMacro: the exact outcome is stated when no body form is a call and the value of the last one is not a call either.
- Go copies the `Environment` struct by value, but the copies share the `Vars` map and the parent pointer. The model therefore uses one shared frame object per map, which has the same lookup and binding behaviour.
- The Go call stack is unbounded here only up to `fuel`. Running out of fuel stands for non-termination or stack exhaustion.

## Behaviour of the code

Points where the code behaves differently from what a Lisp reader might
expect. The model follows the code in each of them:

- Nothing reduces a Thunk. `Eval` returns whatever the call's Apply returns (interpreter/eval.go:33-34), so a closure call or an `if` evaluates to the Thunk itself (interpreter/functions.go:135, 195, 198).
- The global frame binds twelve names only (interpreter/env.go:29-45). `if`, `quote`, `=`, `not`, `list` and `empty?` are unbound in it.
- `first` rejects a list argument and gives Nill for anything else, because its type test is inverted (interpreter/functions.go:340-346).
- `=` compares with Go's `!=` on interface values (interpreter/functions.go:219). On two lists this panics.
- `list` returns its arguments unevaluated (interpreter/functions.go:383-385).
- `cons` calls `append` without spreading the list, so its result is the element followed by one bare slice of the list's items (interpreter/functions.go:329). See "Findings".
- `fn` and `macro` read the first element of the parameter list once per element (interpreter/functions.go:84-90).
- `*` and `/` index the first operand, so with no operands they panic. Both return a single operand unchanged (interpreter/functions.go:290-293, 305-308).
- `if` accepts two or more arguments and ignores any beyond the third (interpreter/functions.go:177-200).
- Several handlers replace an error with their own:
  - a failing call head becomes problem-calling (interpreter/eval.go:30-32);
  - `def` wraps a failing value (interpreter/functions.go:103-105);
  - a closure wraps a failing argument or body form (interpreter/functions.go:127-129, 138-141);
  - `/` replaces every operand error with its own invalid-arg error (interpreter/functions.go:302-304).
- The parser has no Bool literal. `true` and `false` are read as identifiers (parser/lexer.go:45-46, parser/ast.go:74-75).

## Findings

| source | as written | input that shows it | evidently intended | confidence | as-written member | corrected member |
|---|---|---|---|---|---|---|
| interpreter/functions.go:329 | `append([]interface{}{el}, lst.Val)` without `...` adds the whole slice as one element, so `cons` always gives a two-element list | `(cons 1 ())` gives the list of 1 and an empty bare slice, where `(1)` is expected | prepend the element to the list's items | not executed | `Primitives.ConsOf` (shown by `Primitives.ConsDoesNotPrepend`) | `Primitives.ConsPrepend` (proved by `Primitives.ConsPrependOfHeadAndRest`) |

The evaluator (`PrimOf`, `ApplyOnValues`, `Interpreter.ConsOneEmpty`) keeps
the behaviour as written. `ConsPrepend` is the intended definition, given so
that the intended round trip with `rest` can be stated and proved.
