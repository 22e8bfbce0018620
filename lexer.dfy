/** The token classifier of the front end: every raw token becomes a
    MetaToken that records its kind and its literal text. */
module Lexer {

  /** The five token kinds; the source numbers them 1 to 5 in this order. */
  datatype TokKind = LeftParen | RightParen | StringTok | IdentTok | NumberTok

  datatype MetaToken = MetaToken(tok: TokKind, lit: string)

  predicate IsDigit(c: char) { '0' <= c <= '9' }

  predicate AllDigits(s: string) { forall j :: 0 <= j < |s| ==> IsDigit(s[j]) }

  /** The end of the run of ASCII digits that starts at `i`. */
  function DigitRun(s: string, i: nat): (k: nat)
    requires i <= |s|
    ensures i <= k <= |s|
    ensures AllDigits(s[i..k])
    ensures k < |s| ==> !IsDigit(s[k])
    decreases |s| - i
  {
    if i == |s| || !IsDigit(s[i]) then i else DigitRun(s, i + 1)
  }

  predicate IsStringTok(tok: string)
    requires |tok| > 0
  {
    tok[0] == '"'
  }

  /** A hand-written matcher for the pattern ^\d+(\.\d*)?$ (ASCII digits). */
  predicate IsNumberTok(tok: string) {
    var p := DigitRun(tok, 0);
    p >= 1 && (p == |tok| || (tok[p] == '.' && DigitRun(tok, p + 1) == |tok|))
  }

  /** The pattern read directly: one or more digits, then optionally a dot
      and zero or more digits, and nothing else. */
  ghost predicate MatchesDecimal(tok: string) {
    exists i :: 1 <= i <= |tok| && AllDigits(tok[..i]) &&
      (i == |tok| || (tok[i] == '.' && AllDigits(tok[i + 1..])))
  }

  lemma {:induction false} NumberTokMatchesPattern(tok: string)
    ensures IsNumberTok(tok) <==> MatchesDecimal(tok)
  {
    var p := DigitRun(tok, 0);
    if IsNumberTok(tok) {
      assert tok[..p] == tok[0..p];
      if p < |tok| {
        var q := DigitRun(tok, p + 1);
        assert tok[p + 1..] == tok[p + 1..q];
      }
      assert 1 <= p <= |tok| && AllDigits(tok[..p]) &&
        (p == |tok| || (tok[p] == '.' && AllDigits(tok[p + 1..])));
    }
    if MatchesDecimal(tok) {
      var i :| 1 <= i <= |tok| && AllDigits(tok[..i]) &&
        (i == |tok| || (tok[i] == '.' && AllDigits(tok[i + 1..])));
      assert IsDigit(tok[..i][0]);
      assert p == i;
    }
  }

  /** The number of leading quote characters of `s`. */
  function LeadingQuotes(s: string): (n: nat)
    ensures n <= |s|
    ensures forall j :: 0 <= j < n ==> s[j] == '"'
    ensures n < |s| ==> s[n] != '"'
  {
    if s == [] || s[0] != '"' then 0 else 1 + LeadingQuotes(s[1..])
  }

  /** The number of trailing quote characters of `s`. */
  function TrailingQuotes(s: string): (n: nat)
    ensures n <= |s|
    ensures forall j :: |s| - n <= j < |s| ==> s[j] == '"'
    ensures n < |s| ==> s[|s| - 1 - n] != '"'
  {
    if s == [] || s[|s| - 1] != '"' then 0 else 1 + TrailingQuotes(s[..|s| - 1])
  }

  /** Removes every leading and every trailing quote character, as
      strings.Trim(tok, "\"") does. */
  function TrimQuotes(s: string): (r: string)
    ensures exists i, j :: 0 <= i <= j <= |s| && r == s[i..j] &&
              (forall k :: 0 <= k < i ==> s[k] == '"') &&
              (forall k :: j <= k < |s| ==> s[k] == '"')
    ensures r != [] ==> r[0] != '"' && r[|r| - 1] != '"'
  {
    var rest := s[LeadingQuotes(s)..];
    var r := rest[..|rest| - TrailingQuotes(rest)];
    assert r == s[LeadingQuotes(s)..LeadingQuotes(s) + |r|];
    r
  }

  /** The classification of one token. The string test comes first, then the
      number test, then the brackets; everything else is an identifier. */
  function Classify(tok: string): (m: MetaToken)
    requires |tok| > 0
    ensures m.tok == StringTok <==> tok[0] == '"'
    ensures m.tok == NumberTok <==> tok[0] != '"' && IsNumberTok(tok)
    ensures m.tok == LeftParen <==> tok[0] == '('
    ensures m.tok == RightParen <==> tok[0] == ')'
    ensures m.tok == StringTok ==> m.lit == TrimQuotes(tok)
    ensures m.tok != StringTok ==> m.lit == tok
  {
    if IsStringTok(tok) then MetaToken(StringTok, TrimQuotes(tok))
    else if IsNumberTok(tok) then MetaToken(NumberTok, tok)
    else if tok[0] == '(' then MetaToken(LeftParen, tok)
    else if tok[0] == ')' then MetaToken(RightParen, tok)
    else MetaToken(IdentTok, tok)
  }

  /** A quoted token classifies as a string literal holding the text between
      its quotes. */
  lemma {:induction false} QuotedTokenIsString(body: string)
    requires forall j :: 0 <= j < |body| ==> body[j] != '"'
    ensures Classify("\"" + body + "\"") == MetaToken(StringTok, body)
  {
    var tok := "\"" + body + "\"";
    var rest := tok[LeadingQuotes(tok)..];
    if body == [] {
      assert LeadingQuotes(tok) == 2;
    } else {
      assert tok[1] == body[0];
      assert LeadingQuotes(tok) == 1;
      assert rest == body + "\"";
      assert rest[|rest| - 2] == body[|body| - 1];
      assert TrailingQuotes(rest) == 1;
      assert rest[..|rest| - 1] == body;
    }
  }

  /** Classifies every token, keeping their order. Every token must be
      non-empty, because its first character is inspected. */
  method BuildMetaTokens(toks: seq<string>) returns (metaToks: seq<MetaToken>)
    requires forall i :: 0 <= i < |toks| ==> |toks[i]| > 0
    ensures |metaToks| == |toks|
    ensures forall i :: 0 <= i < |toks| ==> metaToks[i] == Classify(toks[i])
  {
    metaToks := [];
    for n := 0 to |toks|
      invariant |metaToks| == n
      invariant forall i :: 0 <= i < n ==> metaToks[i] == Classify(toks[i])
    {
      var tok := toks[n];
      var m: MetaToken;
      if IsStringTok(tok) {
        m := MetaToken(StringTok, TrimQuotes(tok));
      } else if IsNumberTok(tok) {
        m := MetaToken(NumberTok, tok);
      } else if tok[0] == '(' {
        m := MetaToken(LeftParen, tok);
      } else if tok[0] == ')' {
        m := MetaToken(RightParen, tok);
      } else {
        m := MetaToken(IdentTok, tok);
      }
      metaToks := metaToks + [m];
    }
  }
}
