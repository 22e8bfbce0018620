/** The evaluator: Eval, the argument evaluation shared by the built-ins,
    decomposeFn, and the Apply method of every built-in and of closures and
    macros. Every method writes only to the frame it is given and to frames it
    creates itself; a bound on the nesting of evaluation (`fuel`) stands for
    the Go call stack. */
module Interpreter {
  import opened Values
  import opened Environment
  import opened Primitives

  // ---------------------------------------------------------------- specification

  /** An element Eval treats as a call: a non-empty list. */
  predicate IsApplication(el: Value) { el.List? && |el.items| > 0 }

  /** The values the assertion val.(Sexp) accepts at the head of a call. */
  predicate Applicable(v: Value) { v.Fn? || v.Macro? || v.Prim? }

  /** Lookup in a frame whose bindings are `vars` and whose parent is `parent`. */
  function LookUpIn(ident: string, vars: map<string, Value>, parent: Env): (r: Result<Value>)
    reads if parent == null then [] else parent.ancestors
    ensures r.Err? ==> r.error == InvalidIdentifier(ident)
    ensures ident in vars ==> r == Ok(vars[ident])
  {
    if ident in vars then Ok(vars[ident]) else LookUp(ident, parent)
  }

  /** What Eval returns for an element that is not a call, in a frame whose
      bindings are `vars` and whose parent is `parent`. */
  function EvalLeaf(el: Value, vars: map<string, Value>, parent: Env): (r: Result<Value>)
    requires !IsApplication(el)
    reads if parent == null then [] else parent.ancestors
    ensures r.Err? ==> r.error == UnknownElement || (el.Ident? && r.error == InvalidIdentifier(el.name))
  {
    match el
    case Number(_) => Ok(el)
    case String(_) => Ok(el)
    case List(_) => Ok(el)
    case Ident(name) => LookUpIn(name, vars, parent)
    case _ => Err(UnknownElement)
  }

  /** The outcome of evaluating `elems` left to right in such a frame,
      stopping at the first error, as long as no element up to that point is
      a call; None if a call is met first. */
  function LeafArgs(elems: seq<Value>, vars: map<string, Value>, parent: Env): (r: Option<Result<seq<Value>>>)
    reads if parent == null then [] else parent.ancestors
    ensures r.Some? && r.value.Ok? ==> |r.value.value| == |elems|
    ensures r.Some? && r.value.Err? ==> !r.value.error.Abortive()
  {
    if elems == [] then Some(Ok([]))
    else match LeafArgs(elems[..|elems| - 1], vars, parent)
      case None => None
      case Some(Err(e)) => Some(Err(e))
      case Some(Ok(vs)) =>
        var last := elems[|elems| - 1];
        if IsApplication(last) then None
        else match EvalLeaf(last, vars, parent)
          case Err(e) => Some(Err(e))
          case Ok(v) => Some(Ok(vs + [v]))
  }

  /** A prefix of a list of non-calls is one, and the first error of a prefix
      is the first error of the whole list. */
  lemma {:induction false} LeafArgsPrefix(elems: seq<Value>, k: nat, vars: map<string, Value>, parent: Env)
    requires k <= |elems|
    ensures LeafArgs(elems, vars, parent).Some? ==> LeafArgs(elems[..k], vars, parent).Some?
    ensures LeafArgs(elems[..k], vars, parent).Some? && LeafArgs(elems[..k], vars, parent).value.Err? ==>
              LeafArgs(elems, vars, parent) == LeafArgs(elems[..k], vars, parent)
    decreases |elems| - k
  {
    if k < |elems| {
      var init := elems[..|elems| - 1];
      assert init[..k] == elems[..k];
      LeafArgsPrefix(init, k, vars, parent);
    } else {
      assert elems[..k] == elems;
    }
  }

  /** One step of a left-to-right evaluation of non-calls: the next element
      is not a call, and its value extends the prefix or its error is the
      error of the whole list. */
  lemma LeafArgsStep(elems: seq<Value>, i: nat, vars: map<string, Value>, parent: Env, vals: seq<Value>)
    requires i < |elems|
    requires LeafArgs(elems, vars, parent).Some? && LeafArgs(elems[..i], vars, parent) == Some(Ok(vals))
    ensures !IsApplication(elems[i])
    ensures EvalLeaf(elems[i], vars, parent).Err? ==>
              LeafArgs(elems, vars, parent) == Some(Err(EvalLeaf(elems[i], vars, parent).error))
    ensures EvalLeaf(elems[i], vars, parent).Ok? ==>
              LeafArgs(elems[..i + 1], vars, parent) == Some(Ok(vals + [EvalLeaf(elems[i], vars, parent).value]))
  {
    LeafArgsPrefix(elems, i + 1, vars, parent);
    assert elems[..i + 1][..i] == elems[..i];
  }

  /** A list of elements evaluates without error exactly when every element is
      a non-call whose evaluation succeeds, and then to their values in order. */
  lemma {:induction false} LeafArgsElementwise(elems: seq<Value>, vars: map<string, Value>, parent: Env)
    ensures (LeafArgs(elems, vars, parent).Some? && LeafArgs(elems, vars, parent).value.Ok?) <==>
              forall i :: 0 <= i < |elems| ==> !IsApplication(elems[i]) && EvalLeaf(elems[i], vars, parent).Ok?
    ensures LeafArgs(elems, vars, parent).Some? && LeafArgs(elems, vars, parent).value.Ok? ==>
              forall i :: 0 <= i < |elems| ==>
                !IsApplication(elems[i]) && LeafArgs(elems, vars, parent).value.value[i] == EvalLeaf(elems[i], vars, parent).value
  {
    if elems != [] {
      var init := elems[..|elems| - 1];
      LeafArgsElementwise(init, vars, parent);
      assert forall i :: 0 <= i < |init| ==> init[i] == elems[i];
    }
  }

  /** `def`: binds the value of its second argument to the identifier given
      as its first, in the caller's frame. */
  ghost predicate DefPost(env: Frame, args: seq<Value>, before: map<string, Value>, fuel: nat, r: Result<Value>)
    requires env.Linked()
    reads *
  {
    (|args| != 2 ==> r == Err(WrongNumArgs("Def")) && env.vars == before) &&
    (|args| == 2 && !args[0].Ident? ==> r == Err(InvalidArg("Def")) && env.vars == before) &&
    (r.Ok? ==> |args| == 2 && args[0].Ident? && args[0].name in env.vars && env.vars[args[0].name] == r.value) &&
    (r.Err? && |args| == 2 && args[0].Ident? ==>
       r.error.Abortive() || (r.error.DefFailed? && r.error.sym == args[0].name)) &&
    (|args| == 2 && args[0].Ident? && fuel > 0 && !IsApplication(args[1]) ==>
       match EvalLeaf(args[1], before, env.parent)
       case Ok(v) => r == Ok(v) && env.vars == before[args[0].name := v]
       case Err(e) => r == Err(DefFailed(args[0].name, e)) && env.vars == before)
  }

  /** `if`: evaluates the test and returns the chosen branch unevaluated, as a
      Thunk in the caller's frame. */
  ghost predicate IfPost(env: Frame, args: seq<Value>, before: map<string, Value>, fuel: nat, r: Result<Value>)
    requires env.Linked()
    reads *
  {
    (|args| < 2 ==> r == Err(WrongNumArgs("IF")) && env.vars == before) &&
    (r.Ok? ==>
       |args| >= 2 &&
       (r.value == Thunk(env, args[1]) || (|args| > 2 && r.value == Thunk(env, args[2])) ||
        (|args| == 2 && r.value == Nill))) &&
    (|args| >= 2 && fuel > 0 && !IsApplication(args[0]) ==>
       env.vars == before &&
       match EvalLeaf(args[0], before, env.parent)
       case Err(e) => r == Err(e)
       case Ok(t) => r == Ok(IfChoice(env, args, t)))
  }

  /** A built-in that evaluates all its arguments first, in the caller's
      frame; an evaluation error is passed on (Div replaces it by its own). */
  ghost predicate EvaluatingPost(op: Builtin, env: Frame, args: seq<Value>, before: map<string, Value>,
                                 fuel: nat, r: Result<Value>)
    requires env.Linked() && EvaluatesArgs(op)
    reads *
  {
    fuel > 0 && LeafArgs(args, before, env.parent).Some? ==>
      env.vars == before &&
      match LeafArgs(args, before, env.parent).value
      case Err(e) => r == Err(if op == Div then InvalidArg("Div") else e)
      case Ok(vals) => r == PrimOf(op, vals)
  }

  /** What each built-in does when applied to the raw arguments `args` in the
      frame `env`, whose bindings were `before`. */
  ghost predicate PrimPost(op: Builtin, env: Frame, args: seq<Value>, before: map<string, Value>,
                           fuel: nat, r: Result<Value>)
    requires env.Linked()
    reads *
  {
    match op
    case Def => DefPost(env, args, before, fuel, r)
    case FnBuilder =>
      env.vars == before &&
      r == (match Decomposed(args) case Ok(d) => Ok(Fn(env, d.0, d.1)) case Err(e) => Err(e))
    case MacroBuilder =>
      env.vars == before &&
      r == (match Decomposed(args) case Ok(d) => Ok(Macro(env, d.0, d.1)) case Err(e) => Err(e))
    case If => IfPost(env, args, before, fuel, r)
    case Quote => env.vars == before && r == QuoteOf(args)
    case ListFn => env.vars == before && r == Ok(List(args))
    case _ => EvaluatingPost(op, env, args, before, fuel, r)
  }

  /** Applying a closure: the arguments are evaluated in the caller's frame
      and bound in a new frame under the closure's one; every body form but
      the last is evaluated there, and the last is returned unevaluated as a
      Thunk in the new frame. */
  ghost predicate FnPost(cenv: Env, params: seq<string>, body: seq<Value>, env: Frame, args: seq<Value>,
                         before: map<string, Value>, fuel: nat, r: Result<Value>)
    requires env.Linked()
    reads *
  {
    (|args| != |params| ==> r == Err(WrongNumArgs("Fn")) && env.vars == before) &&
    (r.Ok? ==> |args| == |params| && |body| > 0 && r.value.Thunk? && r.value.expr == body[|body| - 1] &&
               r.value.env != null && r.value.env.parent == cenv) &&
    (r.Err? ==> r.error.Abortive() || r.error == WrongNumArgs("Fn") || r.error.ArgEvalFailed? ||
                r.error == BodyEvalFailed || (r.error == Unreachable && |body| == 0)) &&
    (|args| == |params| && fuel > 0 && LeafArgs(args, before, env.parent).Some? ==>
       env.vars == before &&
       match LeafArgs(args, before, env.parent).value
       case Err(e) => r == Err(ArgEvalFailed(e))
       case Ok(vals) =>
         var bound := BindAll(map[], params, vals);
         (|body| == 0 ==> r == Err(Unreachable)) &&
         (|body| > 0 && LeafArgs(body[..|body| - 1], bound, cenv).Some? ==>
            match LeafArgs(body[..|body| - 1], bound, cenv).value
            case Err(_) => r == Err(BodyEvalFailed)
            case Ok(_) => r.Ok? && r.value.env != null && r.value.env.vars == bound))
  }

  /** The outcome, in the state at the time of the call, of evaluating the
      body forms of a macro as leaves in a frame binding its raw arguments. */
  ghost function MacroBodyLeaves(f: Value, args: seq<Value>): Option<Result<seq<Value>>>
    reads *
  {
    if f.Macro? && |args| == |f.params| then LeafArgs(f.body, BindAll(map[], f.params, args), f.env)
    else None
  }

  /** Applying a macro: the raw arguments are bound in a new frame under the
      macro's one, every body form is evaluated there, and the value of the
      last is then evaluated in the caller's frame. `leaves` is
      MacroBodyLeaves at the time of the call. */
  ghost predicate MacroPost(cenv: Env, params: seq<string>, body: seq<Value>, env: Frame, args: seq<Value>,
                            before: map<string, Value>, leaves: Option<Result<seq<Value>>>,
                            fuel: nat, r: Result<Value>)
    requires env.Linked()
    reads *
  {
    (|args| != |params| ==> r == Err(WrongNumArgs("Macro")) && env.vars == before) &&
    (|args| == |params| && fuel > 0 && leaves.Some? ==>
       match leaves.value
       case Err(_) => r == Err(BodyEvalFailed) && env.vars == before
       case Ok(vs) =>
         (|body| == 0 ==> r == Err(UnknownElement) && env.vars == before) &&
         (|body| > 0 && |vs| == |body| && !IsApplication(vs[|body| - 1]) ==>
            r == EvalLeaf(vs[|body| - 1], before, env.parent) && env.vars == before))
  }

  /** MacroBodyLeaves for a call whose head is not itself a call. */
  ghost function CallLeaves(el: Value, env: Frame): Option<Result<seq<Value>>>
    requires env.Linked()
    reads *
  {
    if IsApplication(el) && !IsApplication(el.items[0]) then
      match EvalLeaf(el.items[0], env.vars, env.parent)
      case Ok(h) => MacroBodyLeaves(h, el.items[1..])
      case Err(_) => None
    else None
  }

  /** What applying the head value `f` to the raw arguments `args` does. */
  ghost predicate ApplyPost(f: Value, env: Frame, args: seq<Value>, before: map<string, Value>,
                            leaves: Option<Result<seq<Value>>>, fuel: nat, r: Result<Value>)
    requires env.Linked() && Applicable(f)
    reads *
  {
    match f
    case Prim(op) => PrimPost(op, env, args, before, fuel, r)
    case Fn(cenv, params, body) => FnPost(cenv, params, body, env, args, before, fuel, r)
    case Macro(cenv, params, body) => MacroPost(cenv, params, body, env, args, before, leaves, fuel, r)
  }

  // ---------------------------------------------------------------- evaluation

  /** Numbers, strings and the empty list evaluate to themselves, identifiers
      are looked up, a non-empty list is a call of its head on its raw tail,
      and anything else is an unknown element. The result of the call, a
      Thunk included, is returned as it is. */
  method Eval(el: Value, env: Frame, fuel: nat) returns (r: Result<Value>)
    requires env.Linked()
    modifies env
    ensures old(env.vars).Keys <= env.vars.Keys
    ensures fuel == 0 ==> r == Err(OutOfFuel) && env.vars == old(env.vars)
    ensures fuel > 0 && !IsApplication(el) ==>
              r == EvalLeaf(el, old(env.vars), env.parent) && unchanged(env)
    ensures fuel > 1 && IsApplication(el) && !IsApplication(el.items[0]) ==>
              match EvalLeaf(el.items[0], old(env.vars), env.parent)
              case Err(_) => r == Err(ProblemCalling) && env.vars == old(env.vars)
              case Ok(h) =>
                if Applicable(h)
                then ApplyPost(h, env, el.items[1..], old(env.vars), old(CallLeaves(el, env)), fuel - 1, r)
                else r == Err(Panic(NotApplicable)) && env.vars == old(env.vars)
    decreases fuel, 0
  {
    if fuel == 0 {
      return Err(OutOfFuel);
    }
    match el {
      case Number(_) =>
        r := Ok(el);
      case String(_) =>
        r := Ok(el);
      case Ident(name) =>
        r := LookUp(name, env);
      case List(items) =>
        if |items| == 0 {
          return Ok(el);
        }
        var head := Eval(items[0], env, fuel - 1);
        if head.Err? {
          return Err(Wrap(head.error, ProblemCalling));
        }
        if !Applicable(head.value) {
          return Err(Panic(NotApplicable));
        }
        assert fuel > 1 && !IsApplication(items[0]) ==>
                 MacroBodyLeaves(head.value, items[1..]) == old(CallLeaves(el, env));
        r := Apply(head.value, env, items[1..], fuel - 1);
      case _ =>
        r := Err(UnknownElement);
    }
  }

  /** `evalArgs`: evaluates the arguments left to right in the caller's
      frame and stops at the first error. */
  method EvalArgs(args: seq<Value>, env: Frame, fuel: nat) returns (r: Result<seq<Value>>)
    requires env.Linked()
    modifies env
    ensures old(env.vars).Keys <= env.vars.Keys
    ensures r.Ok? ==> |r.value| == |args|
    ensures fuel > 0 && LeafArgs(args, old(env.vars), env.parent).Some? ==>
              env.vars == old(env.vars) && r == LeafArgs(args, old(env.vars), env.parent).value
    decreases fuel, 1
  {
    ghost var before := env.vars;
    var vals: seq<Value> := [];
    for i := 0 to |args|
      invariant |vals| == i
      invariant before.Keys <= env.vars.Keys
      invariant fuel > 0 && LeafArgs(args, before, env.parent).Some? ==>
                  env.vars == before && LeafArgs(args[..i], before, env.parent) == Some(Ok(vals))
    {
      if fuel > 0 && LeafArgs(args, before, env.parent).Some? {
        LeafArgsStep(args, i, before, env.parent, vals);
      }
      var v := Eval(args[i], env, fuel);
      if v.Err? {
        return Err(v.error);
      }
      vals := vals + [v.value];
    }
    assert args[..|args|] == args;
    r := Ok(vals);
  }

  /** `decomposeFn`: splits the raw arguments of `fn` or `macro` into the
      parameter names and the body. */
  method DecomposeFn(args: seq<Value>) returns (r: Result<(seq<string>, seq<Value>)>)
    ensures r == Decomposed(args)
  {
    if |args| < 2 {
      return Err(InvalidFnDef);
    }
    if !args[0].List? {
      return Err(InvalidFnDef);
    }
    var argLst := args[0].items;
    var identArgs: seq<string> := [];
    for i := 0 to |argLst|
      invariant |identArgs| == i
      invariant i > 0 ==> argLst[0].Ident?
      invariant forall j :: 0 <= j < i ==> identArgs[j] == argLst[0].name
    {
      if !argLst[0].Ident? {
        return Err(InvalidFnDef);
      }
      identArgs := identArgs + [argLst[0].name];
    }
    if argLst != [] {
      assert identArgs == seq(|argLst|, _ => argLst[0].name);
    }
    r := Ok((identArgs, args[1..]));
  }

  /** Applies a head value to the raw arguments of a call. */
  method Apply(f: Value, env: Frame, args: seq<Value>, fuel: nat) returns (r: Result<Value>)
    requires env.Linked() && Applicable(f)
    modifies env
    ensures old(env.vars).Keys <= env.vars.Keys
    ensures ApplyPost(f, env, args, old(env.vars), old(MacroBodyLeaves(f, args)), fuel, r)
    decreases fuel, 5
  {
    match f {
      case Prim(op) =>
        r := ApplyPrim(op, env, args, fuel);
      case Fn(cenv, params, body) =>
        r := ApplyFn(cenv, params, body, env, args, fuel);
      case Macro(cenv, params, body) =>
        r := ApplyMacro(cenv, params, body, env, args, fuel);
    }
  }

  /** The Apply method of each built-in. */
  method ApplyPrim(op: Builtin, env: Frame, args: seq<Value>, fuel: nat) returns (r: Result<Value>)
    requires env.Linked()
    modifies env
    ensures old(env.vars).Keys <= env.vars.Keys
    ensures PrimPost(op, env, args, old(env.vars), fuel, r)
    decreases fuel, 4
  {
    match op {
      case Def =>
        r := ApplyDef(env, args, fuel);
      case FnBuilder =>
        var d := DecomposeFn(args);
        r := if d.Ok? then Ok(Fn(env, d.value.0, d.value.1)) else Err(d.error);
      case MacroBuilder =>
        var d := DecomposeFn(args);
        r := if d.Ok? then Ok(Macro(env, d.value.0, d.value.1)) else Err(d.error);
      case If =>
        r := ApplyIf(env, args, fuel);
      case Quote =>
        r := QuoteOf(args);
      case ListFn =>
        r := Ok(List(args));
      case Equal =>
        r := ApplyEqual(env, args, fuel);
      case Add =>
        r := ApplyArithmetic(op, env, args, fuel);
      case Minus =>
        r := ApplyArithmetic(op, env, args, fuel);
      case Mult =>
        r := ApplyArithmetic(op, env, args, fuel);
      case Div =>
        r := ApplyArithmetic(op, env, args, fuel);
      case _ =>
        r := ApplyOnValues(op, env, args, fuel);
    }
  }

  /** `Def.Apply`. */
  method ApplyDef(env: Frame, args: seq<Value>, fuel: nat) returns (r: Result<Value>)
    requires env.Linked()
    modifies env
    ensures old(env.vars).Keys <= env.vars.Keys
    ensures DefPost(env, args, old(env.vars), fuel, r)
    decreases fuel, 3
  {
    if |args| != 2 {
      return Err(WrongNumArgs("Def"));
    }
    if !args[0].Ident? {
      return Err(InvalidArg("Def"));
    }
    var sym := args[0].name;
    var body := Eval(args[1], env, fuel);
    if body.Err? {
      return Err(Wrap(body.error, DefFailed(sym, body.error)));
    }
    PutEnv(env, sym, body.value);
    r := body;
  }

  /** `If.Apply`. */
  method ApplyIf(env: Frame, args: seq<Value>, fuel: nat) returns (r: Result<Value>)
    requires env.Linked()
    modifies env
    ensures old(env.vars).Keys <= env.vars.Keys
    ensures IfPost(env, args, old(env.vars), fuel, r)
    decreases fuel, 3
  {
    if |args| < 2 {
      return Err(WrongNumArgs("IF"));
    }
    var testVal := Eval(args[0], env, fuel);
    if testVal.Err? {
      return Err(testVal.error);
    }
    if Truthy(testVal.value) {
      return Ok(Thunk(env, args[1]));
    }
    if |args| > 2 {
      return Ok(Thunk(env, args[2]));
    }
    r := Ok(Nill);
  }

  /** `Equal.Apply`: compares neighbouring values with Go's `!=`. */
  method ApplyEqual(env: Frame, args: seq<Value>, fuel: nat) returns (r: Result<Value>)
    requires env.Linked()
    modifies env
    ensures old(env.vars).Keys <= env.vars.Keys
    ensures EvaluatingPost(Equal, env, args, old(env.vars), fuel, r)
    decreases fuel, 3
  {
    var ev := EvalArgs(args, env, fuel);
    if ev.Err? {
      return Err(ev.error);
    }
    var vals := ev.value;
    if |vals| <= 1 {
      return Err(WrongNumArgs("Equal"));
    }
    for i := 1 to |vals|
      invariant AdjacentEqual(vals, i) == AdjacentEqual(vals, 1)
    {
      var d := Differ(vals[i - 1], vals[i]);
      if d.Err? {
        return Err(d.error);
      }
      if d.value {
        return Ok(Bool(false));
      }
    }
    r := Ok(Bool(true));
  }

  /** `numArgs`: evaluates the arguments and checks that each is a Number. */
  method NumArgs(args: seq<Value>, env: Frame, fuel: nat) returns (r: Result<seq<real>>)
    requires env.Linked()
    modifies env
    ensures old(env.vars).Keys <= env.vars.Keys
    ensures r.Ok? ==> |r.value| == |args|
    ensures fuel > 0 && LeafArgs(args, old(env.vars), env.parent).Some? ==>
              env.vars == old(env.vars) &&
              match LeafArgs(args, old(env.vars), env.parent).value
              case Err(e) => r == Err(e)
              case Ok(vals) => r == AsNumbers(vals)
    decreases fuel, 2
  {
    var ev := EvalArgs(args, env, fuel);
    if ev.Err? {
      return Err(ev.error);
    }
    var vals := ev.value;
    var nums: seq<real> := [];
    for i := 0 to |vals|
      invariant |nums| == i
      invariant forall j :: 0 <= j < i ==> vals[j].Number? && nums[j] == vals[j].num
    {
      if !vals[i].Number? {
        return Err(InvalidArg("Add"));
      }
      nums := nums + [vals[i].num];
    }
    assert nums == AsNumbers(vals).value;
    r := Ok(nums);
  }

  /** The loop of `Add.Apply`. */
  method AddNumbers(ns: seq<real>) returns (r: Result<Value>)
    ensures r == AddNums(ns)
  {
    var res := 0.0;
    for i := 0 to |ns|
      invariant res == Sum(ns[..i])
    {
      assert ns[..i + 1][..i] == ns[..i];
      res := res + ns[i];
    }
    assert ns[..|ns|] == ns;
    r := Ok(Number(res));
  }

  /** The length check and the loop of `Minus.Apply`. */
  method SubtractNumbers(ns: seq<real>) returns (r: Result<Value>)
    ensures r == MinusNums(ns)
  {
    if |ns| < 1 {
      return Err(WrongNumArgs("Minus"));
    }
    var res := ns[0];
    for i := 1 to |ns|
      invariant res == SubtractAll(ns[0], ns[1..i])
    {
      assert ns[1..i + 1][..i - 1] == ns[1..i];
      res := res - ns[i];
    }
    assert ns[1..|ns|] == ns[1..];
    r := Ok(Number(res));
  }

  /** The length checks and the loop of `Mult.Apply`. */
  method MultiplyNumbers(ns: seq<real>) returns (r: Result<Value>)
    ensures r == MultNums(ns)
  {
    if |ns| == 1 {
      return Ok(Number(ns[0]));
    }
    if |ns| == 0 {
      return Err(Panic(IndexOutOfRange));
    }
    var res := ns[0];
    for i := 1 to |ns|
      invariant res == MultiplyAll(ns[0], ns[1..i])
    {
      assert ns[1..i + 1][..i - 1] == ns[1..i];
      res := res * ns[i];
    }
    assert ns[1..|ns|] == ns[1..];
    r := Ok(Number(res));
  }

  /** The length checks and the loop of `Div.Apply`. */
  method DivideNumbers(ns: seq<real>) returns (r: Result<Value>)
    ensures r == DivNums(ns)
  {
    if |ns| == 1 {
      return Ok(Number(ns[0]));
    }
    if |ns| == 0 {
      return Err(Panic(IndexOutOfRange));
    }
    var res := ns[0];
    for i := 1 to |ns|
      invariant DivideAll(ns[0], ns[1..i]) == Ok(res)
    {
      assert ns[1..i + 1][..i - 1] == ns[1..i];
      if ns[i] == 0.0 {
        DivideAllIsOverProduct(ns[0], ns[1..]);
        return Err(NonFinite);
      }
      res := res / ns[i];
    }
    assert ns[1..|ns|] == ns[1..];
    r := Ok(Number(res));
  }

  /** `Add.Apply`, `Minus.Apply`, `Mult.Apply` and `Div.Apply`. */
  method ApplyArithmetic(op: Builtin, env: Frame, args: seq<Value>, fuel: nat) returns (r: Result<Value>)
    requires env.Linked() && op in {Add, Minus, Mult, Div}
    modifies env
    ensures old(env.vars).Keys <= env.vars.Keys
    ensures EvaluatingPost(op, env, args, old(env.vars), fuel, r)
    decreases fuel, 3
  {
    var nums := NumArgs(args, env, fuel);
    if nums.Err? {
      return Err(if op == Div then Wrap(nums.error, InvalidArg("Div")) else nums.error);
    }
    match op {
      case Add => r := AddNumbers(nums.value);
      case Minus => r := SubtractNumbers(nums.value);
      case Mult => r := MultiplyNumbers(nums.value);
      case Div => r := DivideNumbers(nums.value);
    }
  }

  /** The Apply methods of not, cons, first, rest, empty?, print and
      println: each evaluates its arguments and then works on their values. */
  method ApplyOnValues(op: Builtin, env: Frame, args: seq<Value>, fuel: nat) returns (r: Result<Value>)
    requires env.Linked() && op in {Not, Cons, First, Rest, Empty, Print, PrintLn}
    modifies env
    ensures old(env.vars).Keys <= env.vars.Keys
    ensures EvaluatingPost(op, env, args, old(env.vars), fuel, r)
    decreases fuel, 3
  {
    var ev := EvalArgs(args, env, fuel);
    if ev.Err? {
      return Err(ev.error);
    }
    r := PrimOf(op, ev.value);
  }

  /** The argument loop of `Fn.Apply`: evaluates each argument in the
      caller's frame and binds it in the new frame `nenv`. */
  method BindArgs(params: seq<string>, args: seq<Value>, env: Frame, nenv: Frame, fuel: nat)
    returns (r: Result<seq<Value>>)
    requires env.Linked() && nenv != env && |args| == |params| && nenv.vars == map[]
    requires env.parent == null || nenv !in env.parent.ancestors
    modifies env, nenv
    ensures old(env.vars).Keys <= env.vars.Keys
    ensures r.Ok? ==> |r.value| == |args| && nenv.vars == BindAll(map[], params, r.value)
    ensures r.Err? ==> r.error.ArgEvalFailed? || r.error.Abortive()
    ensures fuel > 0 && LeafArgs(args, old(env.vars), env.parent).Some? ==>
              env.vars == old(env.vars) &&
              match LeafArgs(args, old(env.vars), env.parent).value
              case Err(e) => r == Err(ArgEvalFailed(e))
              case Ok(vals) => r == Ok(vals)
    decreases fuel, 2
  {
    ghost var before := env.vars;
    var vals: seq<Value> := [];
    for i := 0 to |args|
      invariant |vals| == i
      invariant nenv.vars == BindAll(map[], params[..i], vals)
      invariant before.Keys <= env.vars.Keys
      invariant fuel > 0 && LeafArgs(args, before, env.parent).Some? ==>
                  env.vars == before && LeafArgs(args[..i], before, env.parent) == Some(Ok(vals))
    {
      if fuel > 0 && LeafArgs(args, before, env.parent).Some? {
        LeafArgsStep(args, i, before, env.parent, vals);
      }
      var v := Eval(args[i], env, fuel);
      if v.Err? {
        return Err(Wrap(v.error, ArgEvalFailed(v.error)));
      }
      assert params[..i + 1][..i] == params[..i];
      PutEnv(nenv, params[i], v.value);
      vals := vals + [v.value];
    }
    assert args[..|args|] == args && params[..|params|] == params;
    r := Ok(vals);
  }

  /** The body loop of `Fn.Apply`: evaluates every body form but the last in
      `nenv` and returns the last one unevaluated, as a Thunk in `nenv`. */
  method RunFnBody(body: seq<Value>, nenv: Frame, fuel: nat) returns (r: Result<Value>)
    requires nenv.Linked()
    modifies nenv
    ensures r.Ok? ==> |body| > 0 && r.value == Thunk(nenv, body[|body| - 1])
    ensures |body| == 0 ==> r == Err(Unreachable)
    ensures r.Err? && |body| > 0 ==> r.error == BodyEvalFailed || r.error.Abortive()
    ensures fuel > 0 && |body| > 0 && LeafArgs(body[..|body| - 1], old(nenv.vars), nenv.parent).Some? ==>
              nenv.vars == old(nenv.vars) &&
              match LeafArgs(body[..|body| - 1], old(nenv.vars), nenv.parent).value
              case Err(_) => r == Err(BodyEvalFailed)
              case Ok(_) => r == Ok(Thunk(nenv, body[|body| - 1]))
    decreases fuel, 2
  {
    ghost var before := nenv.vars;
    ghost var init := if |body| == 0 then [] else body[..|body| - 1];
    for i := 0 to |body|
      invariant |body| > 0 ==> i <= |body| - 1
      invariant fuel > 0 && LeafArgs(init, before, nenv.parent).Some? ==>
                  nenv.vars == before && LeafArgs(init[..i], before, nenv.parent).Some? &&
                  LeafArgs(init[..i], before, nenv.parent).value.Ok?
    {
      if i == |body| - 1 {
        assert init[..i] == init;
        return Ok(Thunk(nenv, body[i]));
      }
      if fuel > 0 && LeafArgs(init, before, nenv.parent).Some? {
        assert init[i] == body[i];
        LeafArgsStep(init, i, before, nenv.parent, LeafArgs(init[..i], before, nenv.parent).value.value);
      }
      var e := Eval(body[i], nenv, fuel);
      if e.Err? {
        return Err(Wrap(e.error, BodyEvalFailed));
      }
    }
    r := Err(Unreachable);
  }

  /** `Fn.Apply`. */
  method ApplyFn(cenv: Env, params: seq<string>, body: seq<Value>, env: Frame, args: seq<Value>, fuel: nat)
    returns (r: Result<Value>)
    requires env.Linked()
    modifies env
    ensures old(env.vars).Keys <= env.vars.Keys
    ensures FnPost(cenv, params, body, env, args, old(env.vars), fuel, r)
    ensures r.Ok? ==> r.value.Thunk? && r.value.env != null && fresh(r.value.env)
    ensures r.Err? && |body| > 0 ==> r.error != Unreachable
    decreases fuel, 3
  {
    if |args| != |params| {
      return Err(WrongNumArgs("Fn"));
    }
    var nenv := new Frame(cenv);
    var vals := BindArgs(params, args, env, nenv, fuel);
    if vals.Err? {
      return Err(vals.error);
    }
    r := RunFnBody(body, nenv, fuel);
  }

  /** The binding loop of `Macro.Apply`: binds the raw arguments. */
  method BindParams(nenv: Frame, params: seq<string>, args: seq<Value>)
    requires |params| == |args| && nenv.vars == map[]
    modifies nenv
    ensures nenv.vars == BindAll(map[], params, args)
  {
    for i := 0 to |args|
      invariant nenv.vars == BindAll(map[], params[..i], args[..i])
    {
      assert params[..i + 1][..i] == params[..i] && args[..i + 1][..i] == args[..i];
      PutEnv(nenv, params[i], args[i]);
    }
    assert args[..|args|] == args && params[..|params|] == params;
  }

  /** `Macro.Apply`. The body loop evaluates the forms in the new frame one
      after the other and stops at the first error, as `evalArgs` does. */
  method ApplyMacro(cenv: Env, params: seq<string>, body: seq<Value>, env: Frame, args: seq<Value>, fuel: nat)
    returns (r: Result<Value>)
    requires env.Linked()
    modifies env
    ensures old(env.vars).Keys <= env.vars.Keys
    ensures MacroPost(cenv, params, body, env, args, old(env.vars),
                      old(MacroBodyLeaves(Macro(cenv, params, body), args)), fuel, r)
    decreases fuel, 3
  {
    if |args| != |params| {
      return Err(WrongNumArgs("Macro"));
    }
    var nenv := new Frame(cenv);
    BindParams(nenv, params, args);
    var res := EvalArgs(body, nenv, fuel);
    if res.Err? {
      return Err(Wrap(res.error, BodyEvalFailed));
    }
    if |res.value| == 0 {
      return Err(UnknownElement);
    }
    var tail := res.value[|res.value| - 1];
    r := Eval(tail, env, fuel);
  }

  // ---------------------------------------------------------------- examples

  /** The program of the driver, `(+ 1 2)`, in the default environment. */
  method AddOneTwo() returns (r: Result<Value>)
    ensures r == Ok(Number(3.0))
  {
    var env := DefaultEnv();
    r := Eval(List([Ident("+"), Number(1.0), Number(2.0)]), env, 2);
    var args := [Number(1.0), Number(2.0)];
    assert EvalLeaf(args[0], DefaultBindings(), null) == Ok(args[0]);
    assert EvalLeaf(args[1], DefaultBindings(), null) == Ok(args[1]);
    LeafArgsElementwise(args, DefaultBindings(), null);
    var vs := LeafArgs(args, DefaultBindings(), null).value.value;
    assert vs == args by {
      assert vs[0] == args[0] && vs[1] == args[1];
    }
    var nums := AsNumbers(args).value;
    assert nums == [1.0, 2.0] by {
      assert nums[0] == 1.0 && nums[1] == 2.0;
    }
    assert [1.0, 2.0][..1] == [1.0] && [1.0][..0] == [];
  }

  /** `if` is not bound in the default environment, so a program that uses
      it fails at its head. */
  method IfIsUnbound() returns (r: Result<Value>)
    ensures r == Err(ProblemCalling)
  {
    var env := DefaultEnv();
    r := Eval(List([Ident("if"), Number(1.0), Number(2.0)]), env, 2);
  }

  /** `(cons 1 ())` in the default environment: the result holds the
      element and the bare empty slice, not the one-element list. */
  method ConsOneEmpty() returns (r: Result<Value>)
    ensures r == Ok(List([Number(1.0), Slice([])]))
  {
    var env := DefaultEnv();
    r := Eval(List([Ident("cons"), Number(1.0), List([])]), env, 2);
    var args := [Number(1.0), List([])];
    assert EvalLeaf(args[0], DefaultBindings(), null) == Ok(args[0]);
    assert EvalLeaf(args[1], DefaultBindings(), null) == Ok(args[1]);
    LeafArgsElementwise(args, DefaultBindings(), null);
    var vs := LeafArgs(args, DefaultBindings(), null).value.value;
    assert vs == args by {
      assert vs[0] == args[0] && vs[1] == args[1];
    }
  }
}
