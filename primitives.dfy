/** What each built-in computes once its arguments are in hand: truthiness,
    Go's interface comparison, the arithmetic folds, the list operations, the
    shape of a function definition, and the binding of parameters. */
module Primitives {
  import opened Values

  // ---------------------------------------------------------------- truthiness

  /** The test of `if`: false exactly for Bool(false) and Nill. */
  predicate Truthy(v: Value) {
    match v
    case Bool(b) => b
    case Nill => false
    case _ => true
  }

  /** What `if` returns once its test has the value `test`: the chosen branch,
      deferred in the caller's frame, or Nill for a false test without an
      else branch. */
  function IfChoice(env: Env, args: seq<Value>, test: Value): (r: Value)
    requires |args| >= 2
    ensures Truthy(test) ==> r == Thunk(env, args[1])
    ensures !Truthy(test) && |args| > 2 ==> r == Thunk(env, args[2])
    ensures !Truthy(test) && |args| == 2 ==> r == Nill
  {
    if Truthy(test) then Thunk(env, args[1])
    else if |args| > 2 then Thunk(env, args[2])
    else Nill
  }

  /** `not` on its evaluated arguments. */
  function NotOf(vals: seq<Value>): (r: Result<Value>)
    ensures |vals| != 1 ==> r == Err(WrongNumArgs("Not"))
    ensures |vals| == 1 ==> r == Ok(Bool(!Truthy(vals[0])))
  {
    if |vals| != 1 then Err(WrongNumArgs("Not"))
    else match vals[0]
      case Bool(b) => Ok(Bool(!b))
      case _ => Ok(Bool(vals[0].Nill?))
  }

  /** `if` and `not` agree on truthiness: `if` takes its consequent exactly
      when `not` of the test is false. */
  lemma IfAgreesWithNot(env: Env, args: seq<Value>, test: Value)
    requires |args| >= 2
    ensures IfChoice(env, args, test) ==
              if NotOf([test]) == Ok(Bool(false)) then Thunk(env, args[1])
              else if |args| > 2 then Thunk(env, args[2]) else Nill
  {
  }

  // ---------------------------------------------------------------- equality

  /** The dynamic Go type of a value; every built-in is a type of its own. */
  datatype GoType =
    | NumberType | StringType | IdentType | BoolType | NillType | ListType
    | FnType | MacroType | ThunkType | SliceType | BuiltinType(op: Builtin)

  function TypeOf(v: Value): GoType {
    match v
    case Number(_) => NumberType
    case String(_) => StringType
    case Ident(_) => IdentType
    case Bool(_) => BoolType
    case Nill => NillType
    case List(_) => ListType
    case Fn(_, _, _) => FnType
    case Macro(_, _, _) => MacroType
    case Thunk(_, _) => ThunkType
    case Slice(_) => SliceType
    case Prim(op) => BuiltinType(op)
  }

  /** Types whose values Go can compare with ==: those without a slice or a
      map inside. */
  predicate Comparable(t: GoType) {
    !(t.ListType? || t.FnType? || t.MacroType? || t.ThunkType? || t.SliceType?)
  }

  /** Go's `a != b` on two interface values: different dynamic types differ,
      the same uncomparable type panics, otherwise the values are compared. */
  function Differ(a: Value, b: Value): (r: Result<bool>)
    ensures r == Ok(false) <==> a == b && Comparable(TypeOf(a))
    ensures r.Err? <==> TypeOf(a) == TypeOf(b) && !Comparable(TypeOf(a))
  {
    if TypeOf(a) != TypeOf(b) then Ok(true)
    else if !Comparable(TypeOf(a)) then Err(Panic(UncomparableValues))
    else Ok(a != b)
  }

  /** The comparison loop of `=` from position `i` on. */
  function AdjacentEqual(vals: seq<Value>, i: nat): Result<Value>
    decreases |vals| - i
  {
    if i == 0 || i >= |vals| then Ok(Bool(true))
    else match Differ(vals[i - 1], vals[i])
      case Err(e) => Err(e)
      case Ok(d) => if d then Ok(Bool(false)) else AdjacentEqual(vals, i + 1)
  }

  /** `=` on its evaluated arguments. */
  function EqualOf(vals: seq<Value>): Result<Value> {
    if |vals| <= 1 then Err(WrongNumArgs("Equal")) else AdjacentEqual(vals, 1)
  }

  /** `=` gives true exactly when every pair of neighbours is the same value
      of a comparable type. */
  lemma {:induction false} EqualIsTrueIffNeighboursEqual(vals: seq<Value>, i: nat)
    requires 1 <= i
    ensures AdjacentEqual(vals, i) == Ok(Bool(true)) <==>
              forall k :: i <= k < |vals| ==> vals[k - 1] == vals[k] && Comparable(TypeOf(vals[k]))
    decreases |vals| - i
  {
    if i < |vals| {
      EqualIsTrueIffNeighboursEqual(vals, i + 1);
    }
  }

  /** When every argument is of a comparable type, `=` never panics. */
  lemma {:induction false} EqualOnComparablesDoesNotPanic(vals: seq<Value>, i: nat)
    requires 1 <= i
    requires forall k :: 0 <= k < |vals| ==> Comparable(TypeOf(vals[k]))
    ensures AdjacentEqual(vals, i).Ok? && AdjacentEqual(vals, i).value.Bool?
    decreases |vals| - i
  {
    if i < |vals| {
      EqualOnComparablesDoesNotPanic(vals, i + 1);
    }
  }

  /** Two lists of the same shape do not compare equal: Go panics on them. */
  lemma EqualOnListsPanics(a: seq<Value>, b: seq<Value>)
    ensures EqualOf([List(a), List(b)]) == Err(Panic(UncomparableValues))
  {
  }

  // ---------------------------------------------------------------- arithmetic

  /** The operands as numbers, or the invalid-arg error (which always names
      "Add") at the first operand that is not a Number. */
  function AsNumbers(vals: seq<Value>): (r: Result<seq<real>>)
    ensures r.Ok? <==> forall i :: 0 <= i < |vals| ==> vals[i].Number?
    ensures r.Ok? ==> |r.value| == |vals| && forall i :: 0 <= i < |vals| ==> r.value[i] == vals[i].num
    ensures r.Err? ==> r.error == InvalidArg("Add")
  {
    if vals == [] then Ok([])
    else if !vals[0].Number? then Err(InvalidArg("Add"))
    else match AsNumbers(vals[1..])
      case Err(e) => Err(e)
      case Ok(ns) => Ok([vals[0].num] + ns)
  }

  /** The sum of `xs`, added from left to right starting at 0. */
  function Sum(xs: seq<real>): real {
    if xs == [] then 0.0 else Sum(xs[..|xs| - 1]) + xs[|xs| - 1]
  }

  /** `acc` minus each of `xs` in turn. */
  function SubtractAll(acc: real, xs: seq<real>): real {
    if xs == [] then acc else SubtractAll(acc, xs[..|xs| - 1]) - xs[|xs| - 1]
  }

  /** The product of `xs`. */
  function Product(xs: seq<real>): real {
    if xs == [] then 1.0 else Product(xs[..|xs| - 1]) * xs[|xs| - 1]
  }

  /** `acc` times each of `xs` in turn. */
  function MultiplyAll(acc: real, xs: seq<real>): real {
    if xs == [] then acc else MultiplyAll(acc, xs[..|xs| - 1]) * xs[|xs| - 1]
  }

  /** `acc` divided by each of `xs` in turn; a zero divisor makes the float
      result an infinity or NaN, which this model reports as NonFinite. */
  function DivideAll(acc: real, xs: seq<real>): Result<real> {
    if xs == [] then Ok(acc)
    else match DivideAll(acc, xs[..|xs| - 1])
      case Err(e) => Err(e)
      case Ok(q) => if xs[|xs| - 1] == 0.0 then Err(NonFinite) else Ok(q / xs[|xs| - 1])
  }

  /** Subtracting left to right is subtracting the sum. */
  lemma {:induction false} SubtractAllIsMinusSum(acc: real, xs: seq<real>)
    ensures SubtractAll(acc, xs) == acc - Sum(xs)
  {
    if xs != [] {
      SubtractAllIsMinusSum(acc, xs[..|xs| - 1]);
    }
  }

  /** Multiplying left to right, starting from `acc`, is the product of
      `acc` and all of `xs`. */
  lemma {:induction false} MultiplyAllIsProduct(acc: real, xs: seq<real>)
    ensures MultiplyAll(acc, xs) == Product([acc] + xs)
  {
    if xs != [] {
      MultiplyAllIsProduct(acc, xs[..|xs| - 1]);
      assert ([acc] + xs)[..|xs|] == [acc] + xs[..|xs| - 1];
    }
  }

  /** Dividing by two non-zero numbers in turn is dividing by their product. */
  lemma DivideTwice(a: real, p: real, q: real)
    requires p != 0.0 && q != 0.0
    ensures p * q != 0.0 && a / p / q == a / (p * q)
  {
    var x := a / p;
    var y := x / q;
    assert x * p == a;
    assert y * q == x;
    calc {
      y * (p * q);
      (y * q) * p;
      x * p;
      a;
    }
  }

  /** Dividing left to right by non-zero divisors is dividing by their
      product; any zero divisor gives NonFinite. */
  lemma {:induction false} DivideAllIsOverProduct(acc: real, xs: seq<real>)
    ensures (forall i :: 0 <= i < |xs| ==> xs[i] != 0.0) ==>
              Product(xs) != 0.0 && DivideAll(acc, xs) == Ok(acc / Product(xs))
    ensures (exists i :: 0 <= i < |xs| && xs[i] == 0.0) ==> DivideAll(acc, xs) == Err(NonFinite)
  {
    if xs != [] {
      var init := xs[..|xs| - 1];
      var last := xs[|xs| - 1];
      DivideAllIsOverProduct(acc, init);
      if forall i :: 0 <= i < |xs| ==> xs[i] != 0.0 {
        assert forall i :: 0 <= i < |init| ==> init[i] == xs[i];
        var p := Product(init);
        assert p != 0.0 && DivideAll(acc, init) == Ok(acc / p);
        assert last != 0.0;
        assert Product(xs) == p * last;
        DivideTwice(acc, p, last);
      } else if exists i :: 0 <= i < |init| && init[i] == 0.0 {
      } else {
        assert last == 0.0;
      }
    }
  }

  /** `+` on operands that are all numbers. */
  function AddNums(nums: seq<real>): Result<Value> {
    Ok(Number(Sum(nums)))
  }

  /** `-` on operands that are all numbers; it needs at least one. */
  function MinusNums(nums: seq<real>): Result<Value> {
    if |nums| < 1 then Err(WrongNumArgs("Minus"))
    else Ok(Number(SubtractAll(nums[0], nums[1..])))
  }

  /** `*` on operands that are all numbers; a single operand is returned as
      it is, and with none Go indexes nums[0] and panics. */
  function MultNums(nums: seq<real>): Result<Value> {
    if |nums| == 1 then Ok(Number(nums[0]))
    else if |nums| == 0 then Err(Panic(IndexOutOfRange))
    else Ok(Number(MultiplyAll(nums[0], nums[1..])))
  }

  /** `/` on operands that are all numbers, like `*`. */
  function DivNums(nums: seq<real>): Result<Value> {
    if |nums| == 1 then Ok(Number(nums[0]))
    else if |nums| == 0 then Err(Panic(IndexOutOfRange))
    else match DivideAll(nums[0], nums[1..])
      case Err(e) => Err(e)
      case Ok(q) => Ok(Number(q))
  }

  /** `+` on its evaluated arguments. */
  function AddOf(vals: seq<Value>): Result<Value> {
    match AsNumbers(vals)
    case Err(e) => Err(e)
    case Ok(nums) => AddNums(nums)
  }

  /** `-` on its evaluated arguments. */
  function MinusOf(vals: seq<Value>): Result<Value> {
    match AsNumbers(vals)
    case Err(e) => Err(e)
    case Ok(nums) => MinusNums(nums)
  }

  /** `*` on its evaluated arguments. */
  function MultOf(vals: seq<Value>): Result<Value> {
    match AsNumbers(vals)
    case Err(e) => Err(e)
    case Ok(nums) => MultNums(nums)
  }

  /** `/` on its evaluated arguments; every operand error is reported as an
      invalid-arg error of Div. */
  function DivOf(vals: seq<Value>): Result<Value> {
    match AsNumbers(vals)
    case Err(_) => Err(InvalidArg("Div"))
    case Ok(nums) => DivNums(nums)
  }

  /** Every operand must be a Number: one that is not gives the invalid-arg
      error of Add, or of Div for `/`. */
  lemma ArithmeticNeedsNumbers(vals: seq<Value>)
    ensures (exists i :: 0 <= i < |vals| && !vals[i].Number?) ==>
              AddOf(vals) == Err(InvalidArg("Add")) && MinusOf(vals) == Err(InvalidArg("Add")) &&
              MultOf(vals) == Err(InvalidArg("Add")) && DivOf(vals) == Err(InvalidArg("Div"))
  {
  }

  /** On numbers `+` sums from 0, `-` subtracts the sum of the rest from the
      first, `*` gives the product of two or more operands, and `*` and `/`
      return a single operand unchanged. */
  lemma {:induction false} ArithmeticClosedForms(vals: seq<Value>)
    ensures (forall i :: 0 <= i < |vals| ==> vals[i].Number?) ==>
              var nums := AsNumbers(vals).value;
              AddOf(vals) == Ok(Number(Sum(nums))) &&
              (|vals| >= 1 ==> MinusOf(vals) == Ok(Number(nums[0] - Sum(nums[1..])))) &&
              (|vals| >= 2 ==> MultOf(vals) == Ok(Number(Product(nums)))) &&
              (|vals| == 1 ==> MultOf(vals) == Ok(vals[0]) && DivOf(vals) == Ok(vals[0]))
  {
    if forall i :: 0 <= i < |vals| ==> vals[i].Number? {
      var nums := AsNumbers(vals).value;
      if |vals| >= 1 {
        SubtractAllIsMinusSum(nums[0], nums[1..]);
        MultiplyAllIsProduct(nums[0], nums[1..]);
        assert [nums[0]] + nums[1..] == nums;
      }
    }
  }

  /** The identities (+) = 0, (* 7) = 7, (- 10 3 2) = 5 and (/ 8 2 2) = 2, and
      the panic of (*) and (/) without operands. */
  lemma {:induction false} ArithmeticExamples()
    ensures AddOf([]) == Ok(Number(0.0))
    ensures MultOf([Number(7.0)]) == Ok(Number(7.0))
    ensures MinusOf([Number(10.0), Number(3.0), Number(2.0)]) == Ok(Number(5.0))
    ensures DivOf([Number(8.0), Number(2.0), Number(2.0)]) == Ok(Number(2.0))
    ensures MultOf([]) == Err(Panic(IndexOutOfRange)) && DivOf([]) == Err(Panic(IndexOutOfRange))
  {
    var ten := [Number(10.0), Number(3.0), Number(2.0)];
    var tn := AsNumbers(ten).value;
    assert tn == [10.0, 3.0, 2.0] by {
      assert tn[0] == 10.0 && tn[1] == 3.0 && tn[2] == 2.0;
    }
    assert [3.0, 2.0][..1] == [3.0];
    assert SubtractAll(10.0, [3.0, 2.0]) == 5.0;
    var eight := [Number(8.0), Number(2.0), Number(2.0)];
    var en := AsNumbers(eight).value;
    assert en == [8.0, 2.0, 2.0] by {
      assert en[0] == 8.0 && en[1] == 2.0 && en[2] == 2.0;
    }
    assert [2.0, 2.0][..1] == [2.0];
    assert DivideAll(8.0, [2.0, 2.0]) == Ok(2.0);
  }

  // ---------------------------------------------------------------- lists

  /** `cons` on its evaluated arguments, as written: the element list is
      appended to without spreading it, so the result is a two-element List
      holding the element and the bare slice of the list's items. */
  function ConsOf(vals: seq<Value>): Result<Value> {
    if |vals| != 2 then Err(WrongNumArgs("Cons"))
    else if !vals[1].List? then Err(InvalidArg("Cons"))
    else Ok(List([vals[0], Slice(vals[1].items)]))
  }

  /** `cons` as evidently intended: prepends the element to the list. */
  function ConsPrepend(vals: seq<Value>): Result<Value> {
    if |vals| != 2 then Err(WrongNumArgs("Cons"))
    else if !vals[1].List? then Err(InvalidArg("Cons"))
    else Ok(List([vals[0]] + vals[1].items))
  }

  /** `first` on its evaluated arguments. Its type test is inverted: a list
      argument is rejected and any other argument gives Nill. */
  function FirstOf(vals: seq<Value>): Result<Value> {
    if |vals| != 1 then Err(WrongNumArgs("First"))
    else if vals[0].List? then Err(InvalidArg("First"))
    else Ok(Nill)
  }

  /** `rest` on its evaluated arguments. */
  function RestOf(vals: seq<Value>): Result<Value> {
    if |vals| != 1 then Err(WrongNumArgs("Rest"))
    else if !vals[0].List? then Err(InvalidArg("Rest"))
    else if |vals[0].items| == 0 then Ok(vals[0])
    else Ok(List(vals[0].items[1..]))
  }

  /** `empty?` on its evaluated arguments. */
  function EmptyOf(vals: seq<Value>): Result<Value> {
    if |vals| != 1 then Err(WrongNumArgs("Empty"))
    else if !vals[0].List? then Err(InvalidArg("Empty"))
    else Ok(Bool(|vals[0].items| == 0))
  }

  /** The list operations: cons pairs the element with the bare slice of
      the list, rest drops the head of a non-empty list and returns an empty
      one unchanged, empty? tests the length, and each rejects a non-list
      where it needs a list. */
  lemma ListOperations(x: Value, l: seq<Value>, v: Value)
    ensures ConsOf([x, List(l)]) == Ok(List([x, Slice(l)]))
    ensures RestOf([List(l)]) == Ok(List(if l == [] then [] else l[1..]))
    ensures EmptyOf([List(l)]) == Ok(Bool(l == []))
    ensures !v.List? ==> ConsOf([x, v]) == Err(InvalidArg("Cons")) &&
                         RestOf([v]) == Err(InvalidArg("Rest")) &&
                         EmptyOf([v]) == Err(InvalidArg("Empty"))
  {
  }

  /** `cons` as written never prepends: its result always has two elements,
      so it differs from the prepended list on every list. On a one-element
      list the lengths agree, but the second element is the slice holding the
      list's item rather than the item itself. `(cons 1 ())` is an instance. */
  lemma ConsDoesNotPrepend(x: Value, l: seq<Value>)
    ensures ConsOf([x, List(l)]).Ok? && |ConsOf([x, List(l)]).value.items| == 2
    ensures ConsOf([x, List(l)]) != ConsPrepend([x, List(l)])
    ensures ConsOf([Number(1.0), List([])]) == Ok(List([Number(1.0), Slice([])]))
    ensures ConsPrepend([Number(1.0), List([])]) == Ok(List([Number(1.0)]))
  {
    if |l| == 1 {
      assert l[0] < Slice(l);
      assert ConsPrepend([x, List(l)]).value.items[1] == l[0];
    } else {
      assert |ConsPrepend([x, List(l)]).value.items| == 1 + |l|;
    }
    assert [Number(1.0)] + [] == [Number(1.0)];
  }

  /** The intended `cons` undoes `rest` on a non-empty list when given its
      head. */
  lemma ConsPrependOfHeadAndRest(l: seq<Value>)
    requires l != []
    ensures match RestOf([List(l)])
            case Ok(r) => ConsPrepend([l[0], r]) == Ok(List(l))
            case Err(_) => false
  {
    assert [l[0]] + l[1..] == l;
  }

  /** `first` never returns an element: on a list it fails, on anything else
      it gives Nill; so (cons (first L) (rest L)) fails for every list L. */
  lemma FirstNeverYieldsAnElement(v: Value, l: seq<Value>)
    ensures FirstOf([v]) == (if v.List? then Err(InvalidArg("First")) else Ok(Nill))
    ensures FirstOf([List(l)]).Err?
  {
  }

  /** `quote` on its raw arguments. */
  function QuoteOf(args: seq<Value>): Result<Value> {
    if |args| != 1 then Err(WrongNumArgs("Quote")) else Ok(args[0])
  }

  /** The built-ins that evaluate all their arguments before anything else. */
  predicate EvaluatesArgs(op: Builtin) {
    op in {Equal, Not, Add, Minus, Mult, Div, Cons, First, Rest, Empty, Print, PrintLn}
  }

  /** What an argument-evaluating built-in returns once its arguments have
      been evaluated to `vals`; print and println return Nill. */
  function PrimOf(op: Builtin, vals: seq<Value>): Result<Value>
    requires EvaluatesArgs(op)
  {
    match op
    case Equal => EqualOf(vals)
    case Not => NotOf(vals)
    case Add => AddOf(vals)
    case Minus => MinusOf(vals)
    case Mult => MultOf(vals)
    case Div => DivOf(vals)
    case Cons => ConsOf(vals)
    case First => FirstOf(vals)
    case Rest => RestOf(vals)
    case Empty => EmptyOf(vals)
    case _ => Ok(Nill)
  }

  // ---------------------------------------------------------------- definitions

  /** The parameter names and body `decomposeFn` extracts from the raw
      arguments of `fn` or `macro`. Every parameter is read from element 0 of
      the parameter list, once per element. */
  function Decomposed(args: seq<Value>): Result<(seq<string>, seq<Value>)> {
    if |args| < 2 || !args[0].List? then Err(InvalidFnDef)
    else
      var lst := args[0].items;
      if |lst| == 0 then Ok(([], args[1..]))
      else if !lst[0].Ident? then Err(InvalidFnDef)
      else Ok((seq(|lst|, _ => lst[0].name), args[1..]))
  }

  /** A definition is rejected exactly when it has fewer than two arguments,
      a first argument that is not a list, or a non-identifier at the head of
      that list; otherwise the body is everything after the parameter list
      (so it is never empty) and there is one parameter per list element,
      each of them the name of the first element. */
  lemma DecomposedShape(args: seq<Value>)
    ensures Decomposed(args).Err? <==>
              |args| < 2 || !args[0].List? || (|args[0].items| > 0 && !args[0].items[0].Ident?)
    ensures Decomposed(args).Ok? ==>
              var (params, body) := Decomposed(args).value;
              body == args[1..] && |body| >= 1 && |params| == |args[0].items| &&
              forall i :: 0 <= i < |params| ==> params[i] == args[0].items[0].name
  {
  }

  // ---------------------------------------------------------------- binding

  /** The bindings after putting params[i] := vals[i] into `vars` for i in
      order, so that a later duplicate overrides an earlier one. */
  function BindAll(vars: map<string, Value>, params: seq<string>, vals: seq<Value>): map<string, Value>
    requires |params| == |vals|
  {
    if params == [] then vars
    else BindAll(vars, params[..|params| - 1], vals[..|vals| - 1])[params[|params| - 1] := vals[|vals| - 1]]
  }

  /** A fresh frame binds exactly the parameter names. */
  lemma {:induction false} BindAllKeys(params: seq<string>, vals: seq<Value>)
    requires |params| == |vals|
    ensures BindAll(map[], params, vals).Keys == set i | 0 <= i < |params| :: params[i]
  {
    if params != [] {
      var n := |params| - 1;
      BindAllKeys(params[..n], vals[..n]);
      var keys := set i | 0 <= i < |params| :: params[i];
      var prev := set i | 0 <= i < n :: params[..n][i];
      assert keys == prev + {params[n]} by {
        forall k | k in keys ensures k in prev + {params[n]} {
          var i :| 0 <= i < |params| && params[i] == k;
          if i < n { assert params[..n][i] == k; }
        }
      }
    }
  }

  /** Each parameter name is bound to the value of its last occurrence. */
  lemma {:induction false} BindAllBindsLastOccurrence(params: seq<string>, vals: seq<Value>, i: nat)
    requires |params| == |vals| && i < |params|
    requires forall j :: i < j < |params| ==> params[j] != params[i]
    ensures params[i] in BindAll(map[], params, vals)
    ensures BindAll(map[], params, vals)[params[i]] == vals[i]
  {
    var n := |params| - 1;
    if i < n {
      assert params[..n][i] == params[i] && vals[..n][i] == vals[i];
      BindAllBindsLastOccurrence(params[..n], vals[..n], i);
    }
  }

  /** With the parameters `decomposeFn` produces, all equal, a call frame ends
      up with a single binding, to the last argument. */
  lemma {:induction false} RepeatedParamBindsLastArgument(x: string, vals: seq<Value>)
    requires |vals| > 0
    ensures BindAll(map[], seq(|vals|, _ => x), vals) == map[x := vals[|vals| - 1]]
  {
    var params := seq(|vals|, _ => x);
    BindAllKeys(params, vals);
    BindAllBindsLastOccurrence(params, vals, |vals| - 1);
    var keys := set i | 0 <= i < |params| :: params[i];
    assert keys == {x} by {
      assert params[0] in keys;
    }
  }
}
