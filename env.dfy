/** The environment chain: binding into a frame, lookup through the parent
    links, and the global frame every program starts from. */
module Environment {
  import opened Values

  /** Binds `ident` in the frame `env` itself, replacing any earlier binding
      there. Ancestors and every other frame are left alone. */
  method PutEnv(env: Frame, ident: string, val: Value)
    modifies env
    ensures env.vars == old(env.vars)[ident := val]
  {
    env.vars := env.vars[ident := val];
  }

  /** The value bound to `ident` in the innermost frame of the chain that
      binds it; an exhausted chain gives an invalid-identifier error. */
  function LookUp(ident: string, env: Env): (r: Result<Value>)
    reads if env == null then [] else env.ancestors
    ensures r.Err? ==> r.error == InvalidIdentifier(ident)
    ensures env != null && ident in env.vars ==> r == Ok(env.vars[ident])
    decreases if env == null then 0 else |env.ancestors|
  {
    if env == null then Err(InvalidIdentifier(ident))
    else if ident in env.vars then Ok(env.vars[ident])
    else LookUp(ident, env.parent)
  }

  /** Inner bindings shadow outer ones: the first frame of the chain that
      binds the name supplies the value. */
  lemma {:induction false} LookUpShadowing(ident: string, env: Frame, k: nat)
    requires env.Linked()
    requires k < |env.ancestors| && ident in env.ancestors[k].vars
    requires forall j :: 0 <= j < k ==> ident !in env.ancestors[j].vars
    ensures LookUp(ident, env) == Ok(env.ancestors[k].vars[ident])
    decreases k
  {
    if k > 0 {
      assert ident !in env.ancestors[0].vars;
      var p := env.parent;
      assert p.ancestors == env.ancestors[1..];
      forall j | 0 <= j < k - 1 ensures ident !in p.ancestors[j].vars {
        assert p.ancestors[j] == env.ancestors[j + 1];
      }
      LookUpShadowing(ident, p, k - 1);
    }
  }

  /** A lookup fails exactly when no frame on the chain binds the name; so a
      name bound anywhere on the chain is always found. */
  lemma {:induction false} LookUpFailsIffUnbound(ident: string, env: Frame)
    requires env.Linked()
    ensures LookUp(ident, env).Err? <==>
              forall j :: 0 <= j < |env.ancestors| ==> ident !in env.ancestors[j].vars
    decreases |env.ancestors|
  {
    if ident !in env.vars && env.parent != null {
      var p := env.parent;
      LookUpFailsIffUnbound(ident, p);
      assert forall j :: 0 <= j < |p.ancestors| ==> p.ancestors[j] == env.ancestors[j + 1];
      if LookUp(ident, env).Ok? {
        var j :| 0 <= j < |p.ancestors| && ident in p.ancestors[j].vars;
        assert ident in env.ancestors[j + 1].vars;
      }
    }
  }

  /** The bindings of the global frame: def, fn, macro, the four arithmetic
      operators, cons, first, rest, print and println. `if`, `quote`, `=`,
      `not`, `list` and `empty?` are not among them. */
  function DefaultBindings(): map<string, Value> {
    map[
      "def" := Prim(Def), "fn" := Prim(FnBuilder), "macro" := Prim(MacroBuilder),
      "+" := Prim(Add), "-" := Prim(Minus), "*" := Prim(Mult), "/" := Prim(Div),
      "cons" := Prim(Cons), "first" := Prim(First), "rest" := Prim(Rest),
      "print" := Prim(Print), "println" := Prim(PrintLn)]
  }

  /** A fresh parentless frame holding exactly the default bindings. */
  method DefaultEnv() returns (env: Frame)
    ensures fresh(env) && env.Linked() && env.parent == null
    ensures env.vars == DefaultBindings()
  {
    env := new Frame(null);
    PutEnv(env, "def", Prim(Def));
    PutEnv(env, "fn", Prim(FnBuilder));
    PutEnv(env, "macro", Prim(MacroBuilder));
    PutEnv(env, "+", Prim(Add));
    PutEnv(env, "-", Prim(Minus));
    PutEnv(env, "*", Prim(Mult));
    PutEnv(env, "/", Prim(Div));
    PutEnv(env, "cons", Prim(Cons));
    PutEnv(env, "first", Prim(First));
    PutEnv(env, "rest", Prim(Rest));
    PutEnv(env, "print", Prim(Print));
    PutEnv(env, "println", Prim(PrintLn));
  }

  /** In the global frame every name outside the twelve default ones is
      unbound, among them the special forms the frame leaves out. */
  lemma GlobalFrameLeavesOutSpecialForms(env: Frame, name: string)
    requires env.Linked() && env.parent == null && env.vars == DefaultBindings()
    requires name in {"if", "quote", "=", "not", "list", "empty?"}
    ensures LookUp(name, env) == Err(InvalidIdentifier(name))
  {
  }
}
