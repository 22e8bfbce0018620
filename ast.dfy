/** The grouper of the front end: turns the classified token stream into a
    sequence of value trees, one List per parenthesised group. */
module Ast {
  import opened Lexer
  import opened Values

  /** How a token moves the parenthesis nesting depth. */
  function Delta(t: MetaToken): int {
    match t.tok
    case LeftParen => 1
    case RightParen => -1
    case _ => 0
  }

  /** Left parentheses minus right parentheses in `s`. */
  function Depth(s: seq<MetaToken>): int {
    if s == [] then 0 else Delta(s[0]) + Depth(s[1..])
  }

  predicate IsParen(t: MetaToken) { t.tok == LeftParen || t.tok == RightParen }

  /** The index at which the scan of `buildList`, started at `idx` with
      `depth` still-open parentheses, stops: the first right parenthesis met
      when no parenthesis is open, or the end of the tokens. */
  function CloseFrom(tokens: seq<MetaToken>, idx: nat, depth: nat): (r: nat)
    requires idx <= |tokens|
    ensures idx <= r <= |tokens|
    ensures r < |tokens| ==> tokens[r].tok == RightParen
    decreases |tokens| - idx
  {
    if idx == |tokens| then idx
    else if tokens[idx].tok == RightParen then
      if depth == 0 then idx else CloseFrom(tokens, idx + 1, depth - 1)
    else if tokens[idx].tok == LeftParen then CloseFrom(tokens, idx + 1, depth + 1)
    else CloseFrom(tokens, idx + 1, depth)
  }

  lemma DepthStep(tokens: seq<MetaToken>, idx: nat, k: nat)
    requires idx < k <= |tokens|
    ensures Depth(tokens[idx..k]) == Delta(tokens[idx]) + Depth(tokens[idx + 1..k])
  {
    assert tokens[idx..k][1..] == tokens[idx + 1..k];
  }

  /** Where the scan stops, the depth is back to zero and the token is a
      right parenthesis; before that, the depth never drops below zero and no
      right parenthesis was met at depth zero. */
  lemma {:induction false} CloseFromIsMatchingClose(tokens: seq<MetaToken>, idx: nat, depth: nat)
    requires idx <= |tokens|
    ensures var r := CloseFrom(tokens, idx, depth);
            (r < |tokens| ==> tokens[r].tok == RightParen && depth + Depth(tokens[idx..r]) == 0) &&
            (forall k :: idx <= k <= r ==> depth + Depth(tokens[idx..k]) >= 0) &&
            (forall k :: idx <= k < r ==>
               !(tokens[k].tok == RightParen && depth + Depth(tokens[idx..k]) == 0))
    decreases |tokens| - idx
  {
    var r := CloseFrom(tokens, idx, depth);
    if idx == |tokens| || (tokens[idx].tok == RightParen && depth == 0) {
      assert r == idx;
    } else {
      var d: nat := depth + Delta(tokens[idx]);
      assert r == CloseFrom(tokens, idx + 1, d);
      CloseFromIsMatchingClose(tokens, idx + 1, d);
      forall k | idx < k <= r
        ensures depth + Depth(tokens[idx..k]) == d + Depth(tokens[idx + 1..k])
      {
        DepthStep(tokens, idx, k);
      }
    }
  }

  /** The node a single non-parenthesis token becomes. Number literals are
      converted by `parseNum`, which stands for strconv.ParseFloat. */
  function Atom(t: MetaToken, parseNum: string -> real): Value
    requires !IsParen(t)
  {
    match t.tok
    case StringTok => String(t.lit)
    case NumberTok => Number(parseNum(t.lit))
    case IdentTok => Ident(t.lit)
  }

  /** The trees `BuildAst` returns for `tokens`. */
  function Parse(tokens: seq<MetaToken>, parseNum: string -> real): seq<Value>
    decreases |tokens|, 1
  {
    ParseFrom(tokens, 0, parseNum)
  }

  /** The trees of the tokens from position `i` on. */
  function ParseFrom(tokens: seq<MetaToken>, i: nat, parseNum: string -> real): seq<Value>
    decreases |tokens|, 0, |tokens| - i
  {
    if i >= |tokens| then []
    else match tokens[i].tok
      case LeftParen =>
        var adv := CloseFrom(tokens, i + 1, 0);
        [List(Parse(tokens[i + 1..adv], parseNum))] + ParseFrom(tokens, adv + 1, parseNum)
      case RightParen => ParseFrom(tokens, i + 1, parseNum)
      case _ => [Atom(tokens[i], parseNum)] + ParseFrom(tokens, i + 1, parseNum)
  }

  /** The trees parsed from position `i` on never outnumber the tokens
      left from `i`: each tree consumes at least one token. */
  lemma {:induction false} ParseFromWithin(tokens: seq<MetaToken>, i: nat, parseNum: string -> real)
    ensures var r := ParseFrom(tokens, i, parseNum);
            r == [] || i + |r| <= |tokens|
    decreases |tokens| - i
  {
    if i < |tokens| {
      match tokens[i].tok
      case LeftParen =>
        ParseFromWithin(tokens, CloseFrom(tokens, i + 1, 0) + 1, parseNum);
      case RightParen =>
        ParseFromWithin(tokens, i + 1, parseNum);
      case _ =>
        ParseFromWithin(tokens, i + 1, parseNum);
    }
  }

  /** `BuildAst` never yields more trees than there are tokens. */
  lemma ParseNoLonger(tokens: seq<MetaToken>, parseNum: string -> real)
    ensures |Parse(tokens, parseNum)| <= |tokens|
  {
    ParseFromWithin(tokens, 0, parseNum);
  }

  /** `t` ends with `q`, which starts at position `off` of `t`. */
  predicate EndsWith(t: seq<MetaToken>, off: nat, q: seq<MetaToken>) {
    |t| == off + |q| && forall k :: 0 <= k < |q| ==> t[off + k] == q[k]
  }

  /** Scanning the tail `q` of `t` gives the same stop, shifted. */
  lemma {:induction false} CloseFromShift(t: seq<MetaToken>, off: nat, q: seq<MetaToken>, j: nat, depth: nat)
    requires EndsWith(t, off, q) && j <= |q|
    ensures CloseFrom(t, off + j, depth) == off + CloseFrom(q, j, depth)
    decreases |q| - j
  {
    if j < |q| {
      assert t[off + j] == q[j];
      var d: nat := if q[j].tok == RightParen && depth > 0 then depth - 1
                    else if q[j].tok == LeftParen then depth + 1 else depth;
      if !(q[j].tok == RightParen && depth == 0) {
        CloseFromShift(t, off, q, j + 1, d);
      }
    }
  }

  /** `ParseFrom` at a left parenthesis whose scan stops at `adv`: the group
      up to that close becomes one List, and parsing goes on at `after`, just
      past the close. */
  lemma ParseFromAtOpen(tokens: seq<MetaToken>, i: nat, next: nat, adv: nat, after: nat,
                        parseNum: string -> real)
    requires i < |tokens| && tokens[i].tok == LeftParen && next == i + 1
    requires adv == CloseFrom(tokens, next, 0) && after == adv + 1
    ensures ParseFrom(tokens, i, parseNum) ==
            [List(Parse(tokens[next..adv], parseNum))] + ParseFrom(tokens, after, parseNum)
  {
  }

  /** A slice of the tail `q` of `t` is the same slice of `q`. */
  lemma SliceOfTail(t: seq<MetaToken>, off: nat, q: seq<MetaToken>, a: nat, b: nat)
    requires EndsWith(t, off, q) && a <= b <= |q|
    ensures t[off + a..off + b] == q[a..b]
  {
    forall k | 0 <= k < b - a
      ensures t[off + a..off + b][k] == q[a..b][k]
    {
      assert t[off + (a + k)] == q[a + k];
    }
  }

  /** Two left parentheses whose groups hold the same tokens, and after
      whose closes parsing agrees, parse alike. */
  lemma ShiftAtOpen(t: seq<MetaToken>, i: nat, next: nat, adv: nat, after: nat,
                    q: seq<MetaToken>, j: nat, next': nat, adv': nat, after': nat,
                    parseNum: string -> real)
    requires i < |t| && t[i].tok == LeftParen && next == i + 1
    requires adv == CloseFrom(t, next, 0) && after == adv + 1
    requires j < |q| && q[j].tok == LeftParen && next' == j + 1
    requires adv' == CloseFrom(q, next', 0) && after' == adv' + 1
    requires t[next..adv] == q[next'..adv']
    requires ParseFrom(t, after, parseNum) == ParseFrom(q, after', parseNum)
    ensures ParseFrom(t, i, parseNum) == ParseFrom(q, j, parseNum)
  {
    ParseFromAtOpen(t, i, next, adv, after, parseNum);
    ParseFromAtOpen(q, j, next', adv', after', parseNum);
  }

  /** A left parenthesis of the tail `q` of `t` is one in `t` too, and its
      group closes at the shifted stop with the same tokens inside. */
  lemma OpenShifted(t: seq<MetaToken>, off: nat, q: seq<MetaToken>, j: nat)
    requires EndsWith(t, off, q) && j < |q| && q[j].tok == LeftParen
    ensures var adv := CloseFrom(q, j + 1, 0);
            off + j < |t| && t[off + j].tok == LeftParen &&
            off + adv == CloseFrom(t, off + (j + 1), 0) &&
            t[off + (j + 1)..off + adv] == q[j + 1..adv]
  {
    var adv := CloseFrom(q, j + 1, 0);
    CloseFromShift(t, off, q, j + 1, 0);
    SliceOfTail(t, off, q, j + 1, adv);
    assert t[off + j] == q[j];
  }

  /** One step of `ParseFromShifted` at a left parenthesis. */
  lemma ShiftAtOpenTail(t: seq<MetaToken>, off: nat, q: seq<MetaToken>, j: nat, adv: nat,
                        parseNum: string -> real)
    requires EndsWith(t, off, q) && j < |q| && q[j].tok == LeftParen && adv == CloseFrom(q, j + 1, 0)
    requires ParseFrom(t, off + (adv + 1), parseNum) == ParseFrom(q, adv + 1, parseNum)
    ensures ParseFrom(t, off + j, parseNum) == ParseFrom(q, j, parseNum)
  {
    OpenShifted(t, off, q, j);
    ShiftAtOpen(t, off + j, off + (j + 1), off + adv, off + (adv + 1), q, j, j + 1, adv, adv + 1, parseNum);
  }

  /** One step of `ParseFromShifted` at any other token. */
  lemma ShiftAtOther(t: seq<MetaToken>, off: nat, q: seq<MetaToken>, j: nat, parseNum: string -> real)
    requires EndsWith(t, off, q) && j < |q| && q[j].tok != LeftParen
    requires ParseFrom(t, off + (j + 1), parseNum) == ParseFrom(q, j + 1, parseNum)
    ensures ParseFrom(t, off + j, parseNum) == ParseFrom(q, j, parseNum)
  {
    assert t[off + j] == q[j];
  }

  /** Parsing the tail `q` of `t` from its start parses `q`. */
  lemma {:induction false} ParseFromShifted(t: seq<MetaToken>, off: nat, q: seq<MetaToken>, j: nat,
                                            parseNum: string -> real)
    requires EndsWith(t, off, q)
    ensures ParseFrom(t, off + j, parseNum) == ParseFrom(q, j, parseNum)
    decreases |q| - j
  {
    if j < |q| {
      if q[j].tok == LeftParen {
        var adv := CloseFrom(q, j + 1, 0);
        ParseFromShifted(t, off, q, adv + 1, parseNum);
        ShiftAtOpenTail(t, off, q, j, adv, parseNum);
      } else {
        ParseFromShifted(t, off, q, j + 1, parseNum);
        ShiftAtOther(t, off, q, j, parseNum);
      }
    }
  }

  /** Parsing from the start of an appended suffix parses that suffix. */
  lemma ParseFromShift(p: seq<MetaToken>, q: seq<MetaToken>, j: nat, parseNum: string -> real)
    ensures ParseFrom(p + q, |p| + j, parseNum) == ParseFrom(q, j, parseNum)
  {
    assert EndsWith(p + q, |p|, q) by {
      forall k | 0 <= k < |q| ensures (p + q)[|p| + k] == q[k] { }
    }
    ParseFromShifted(p + q, |p|, q, j, parseNum);
  }

  /** Tokens without parentheses map one to one, in order, onto atoms: a
      STRING token to a String, an IDENT to an Ident, a NUMBER to a Number. */
  lemma {:induction false} ParseFlat(tokens: seq<MetaToken>, i: nat, parseNum: string -> real)
    requires i <= |tokens|
    requires forall k :: i <= k < |tokens| ==> !IsParen(tokens[k])
    ensures var r := ParseFrom(tokens, i, parseNum);
            |r| == |tokens| - i &&
            forall k :: i <= k < |tokens| ==> r[k - i] == Atom(tokens[k], parseNum)
    decreases |tokens| - i
  {
    if i < |tokens| {
      ParseFlat(tokens, i + 1, parseNum);
      var rest := ParseFrom(tokens, i + 1, parseNum);
      assert ParseFrom(tokens, i, parseNum) == [Atom(tokens[i], parseNum)] + rest;
      forall k | i < k < |tokens|
        ensures ([Atom(tokens[i], parseNum)] + rest)[k - i] == Atom(tokens[k], parseNum)
      {
        assert ([Atom(tokens[i], parseNum)] + rest)[k - i] == rest[k - (i + 1)];
      }
    }
  }

  /** A stray right parenthesis at the top level produces no node. */
  lemma StrayCloseIsSkipped(t: MetaToken, rest: seq<MetaToken>, parseNum: string -> real)
    requires t.tok == RightParen
    ensures Parse([t] + rest, parseNum) == Parse(rest, parseNum)
  {
    ParseFromShift([t], rest, 0, parseNum);
  }

  /** A parenthesised group of atoms becomes one List holding their trees,
      and parsing resumes after its closing parenthesis. */
  lemma {:induction false} GroupBecomesList(open: MetaToken, inner: seq<MetaToken>, close: MetaToken,
                                            rest: seq<MetaToken>, parseNum: string -> real)
    requires open.tok == LeftParen && close.tok == RightParen
    requires forall k :: 0 <= k < |inner| ==> !IsParen(inner[k])
    ensures Parse([open] + inner + [close] + rest, parseNum) ==
            [List(Parse(inner, parseNum))] + Parse(rest, parseNum)
  {
    var tokens := [open] + inner + [close] + rest;
    var adv := CloseFrom(tokens, 1, 0);
    CloseFlat(tokens, 1, 1 + |inner|);
    assert tokens[1..adv] == inner;
    assert tokens == ([open] + inner + [close]) + rest;
    ParseFromShift([open] + inner + [close], rest, 0, parseNum);
  }

  /** Past a run of non-parenthesis tokens, the depth-zero scan stops at the
      first right parenthesis. */
  lemma {:induction false} CloseFlat(tokens: seq<MetaToken>, k: nat, e: nat)
    requires k <= e < |tokens| && tokens[e].tok == RightParen
    requires forall j :: k <= j < e ==> !IsParen(tokens[j])
    ensures CloseFrom(tokens, k, 0) == e
    decreases e - k
  {
    if k < e {
      CloseFlat(tokens, k + 1, e);
    }
  }

  /** The loop of `buildList`: collects the tokens from `start` up to the
      matching close and builds their trees. */
  method BuildList(start: nat, tokens: seq<MetaToken>, parseNum: string -> real)
    returns (adv: nat, lst: seq<Value>)
    requires 1 <= start <= |tokens|
    ensures adv == CloseFrom(tokens, start, 0)
    ensures lst == Parse(tokens[start..adv], parseNum)
    decreases |tokens|, 0
  {
    var listToks: seq<MetaToken> := [];
    var numLeftParens: nat := 0;
    var idx := start;
    while idx < |tokens|
      invariant start <= idx <= |tokens|
      invariant listToks == tokens[start..idx]
      invariant CloseFrom(tokens, idx, numLeftParens) == CloseFrom(tokens, start, 0)
    {
      if tokens[idx].tok == RightParen {
        if numLeftParens == 0 {
          break;
        }
        numLeftParens := numLeftParens - 1;
      }
      if tokens[idx].tok == LeftParen {
        numLeftParens := numLeftParens + 1;
      }
      listToks := listToks + [tokens[idx]];
      idx := idx + 1;
    }
    adv := idx;
    lst := BuildAst(listToks, parseNum);
  }

  /** One step of ParseFrom on a group, on an atom and on a stray close. */
  lemma ParseFromStep(tokens: seq<MetaToken>, i: nat, parseNum: string -> real)
    requires i < |tokens|
    ensures tokens[i].tok == LeftParen ==>
              var adv := CloseFrom(tokens, i + 1, 0);
              ParseFrom(tokens, i, parseNum) ==
                [List(Parse(tokens[i + 1..adv], parseNum))] + ParseFrom(tokens, adv + 1, parseNum)
    ensures tokens[i].tok == RightParen ==> ParseFrom(tokens, i, parseNum) == ParseFrom(tokens, i + 1, parseNum)
    ensures !IsParen(tokens[i]) ==>
              ParseFrom(tokens, i, parseNum) == [Atom(tokens[i], parseNum)] + ParseFrom(tokens, i + 1, parseNum)
  {
  }

  /** The switch of `BuildAst` on the token at `i`: the nodes it appends,
      and the index after the last token it consumed. */
  method BuildNode(tokens: seq<MetaToken>, i: nat, parseNum: string -> real)
    returns (nodes: seq<Value>, next: nat)
    requires i < |tokens|
    ensures i < next <= |tokens| + 1
    ensures ParseFrom(tokens, i, parseNum) == nodes + ParseFrom(tokens, next, parseNum)
    decreases |tokens|, 1
  {
    var t := tokens[i];
    ParseFromStep(tokens, i, parseNum);
    nodes := [];
    next := i + 1;
    if t.tok == LeftParen {
      var adv, lst := BuildList(i + 1, tokens, parseNum);
      nodes := [List(lst)];
      next := adv + 1;
    } else if t.tok == StringTok {
      nodes := [String(t.lit)];
    } else if t.tok == NumberTok {
      nodes := [Number(parseNum(t.lit))];
    } else if t.tok == IdentTok {
      nodes := [Ident(t.lit)];
    }
  }

  /** Builds the trees of a token stream: atoms in order, one List per
      parenthesised group, stray right parentheses dropped. */
  method BuildAst(tokens: seq<MetaToken>, parseNum: string -> real) returns (ast: seq<Value>)
    ensures ast == Parse(tokens, parseNum)
    decreases |tokens|, 2
  {
    ast := [];
    var i := 0;
    while i < |tokens|
      invariant ast + ParseFrom(tokens, i, parseNum) == Parse(tokens, parseNum)
      decreases |tokens| + 1 - i
    {
      var nodes, next := BuildNode(tokens, i, parseNum);
      assert ast + (nodes + ParseFrom(tokens, next, parseNum)) == (ast + nodes) + ParseFrom(tokens, next, parseNum);
      ast := ast + nodes;
      i := next;
    }
  }
}
