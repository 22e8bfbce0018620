/** The value union shared by the parser and the interpreter, the error values
    of the interpreter, and the environment frame. They live in one module
    because a closure value holds a frame and a frame holds values. */
module Values {

  /** The built-in forms; each one is a distinct, field-less Go struct. */
  datatype Builtin =
    | Def | FnBuilder | MacroBuilder | If | Quote | Equal | Not
    | Add | Minus | Mult | Div
    | Cons | First | Rest | Empty | ListFn
    | Print | PrintLn

  /** Every value the program manipulates. Number, String, Ident and List are
      the parser's node types; Bool and Nill are produced by the built-ins;
      Fn and Macro are closures over a frame; Prim is a built-in; Thunk is the
      deferred last expression that closures and `if` return; Slice is a bare
      Go []interface{} not wrapped in a List, which `cons` nests in its
      result. Numbers are reals: float64 rounding is not modelled. */
  datatype Value =
    | Number(num: real)
    | String(str: string)
    | Ident(name: string)
    | Bool(b: bool)
    | Nill
    | List(items: seq<Value>)
    | Fn(env: Env, params: seq<string>, body: seq<Value>)
    | Macro(env: Env, params: seq<string>, body: seq<Value>)
    | Prim(op: Builtin)
    | Thunk(env: Env, expr: Value)
    | Slice(elems: seq<Value>)

  /** Why the Go runtime would panic at a given point. */
  datatype PanicReason =
    | NotApplicable      // the type assertion val.(Sexp) fails
    | IndexOutOfRange    // nums[0] with no operands
    | UncomparableValues // == on two interface values of an uncomparable type

  /** The interpreter's errors. Message text is not modelled, only its kind
      and the identifier or call name it mentions. Panic, NonFinite and
      OutOfFuel are not GLispErrors: they stand for a Go panic, for a float
      division whose result would be an infinity or NaN, and for running out
      of the evaluation bound of this model. */
  datatype Error =
    | InvalidIdentifier(name: string)
    | ProblemCalling
    | UnknownElement
    | InvalidFnDef
    | WrongNumArgs(call: string)
    | InvalidArg(call: string)
    | DefFailed(sym: string, cause: Error)
    | ArgEvalFailed(cause: Error)
    | BodyEvalFailed
    | Unreachable
    | Panic(reason: PanicReason)
    | NonFinite
    | OutOfFuel
  {
    /** Errors that no `if err != nil` handler ever sees or rewraps. */
    predicate Abortive() { Panic? || NonFinite? || OutOfFuel? }
  }

  /** The error a handler returns when it replaces `e` by its own `outer`. */
  function Wrap(e: Error, outer: Error): Error {
    if e.Abortive() then e else outer
  }

  datatype Result<T> = Ok(value: T) | Err(error: Error)

  datatype Option<T> = None | Some(value: T)

  /** A frame of the environment chain: the `Vars` map, updated in place and
      shared by every closure that captured the frame, and the parent link. */
  class Frame {
    var vars: map<string, Value>
    const parent: Frame?
    /** This frame, its parent, its parent's parent, ... up to the root; a
        frame never occurs again among its own ancestors. */
    ghost const ancestors: seq<Frame>

    ghost predicate Linked()
      ensures Linked() ==> |ancestors| > 0 && ancestors[0] == this
      ensures Linked() && parent != null ==>
                ancestors[1..] == parent.ancestors && parent.Linked() && this !in parent.ancestors
      decreases |ancestors|
    {
      if parent == null then ancestors == [this]
      else ancestors == [this] + parent.ancestors && parent.Linked() && this !in parent.ancestors
    }

    constructor (parent: Env)
      ensures this.parent == parent && vars == map[] && Linked()
    {
      this.parent := parent;
      vars := map[];
      ancestors := if parent == null then [this] else [this] + parent.ancestors;
    }
  }

  /** A frame whose parent chain is well-formed, or no frame at all. */
  type Env = f: Frame? | f == null || f.Linked() witness null
}
