/** The character scanner of the front end: it cuts the next raw token off the
    front of the source text. Characters are modelled one per position (no
    UTF-8 decoding), so a rune width is always 1. */
module Tokenizer {

  predicate IsBracket(c: char) { c == '(' || c == ')' }

  predicate IsQuote(c: char) { c == '"' }

  /** The six ASCII white-space characters: space, \t, \n, \v, \f, \r. */
  predicate IsSpace(c: char) {
    c == ' ' || c == '\t' || c == '\n' || c == '\U{000B}' || c == '\U{000C}' || c == '\r'
  }

  predicate IsNonSpace(c: char) { !IsSpace(c) }

  /** A character that ends a plain token. */
  predicate IsTokenStop(c: char)
    ensures IsTokenStop(c) <==>
              c in {'(', ')', '"', ' ', '\t', '\n', '\U{000B}', '\U{000C}', '\r'}
  {
    IsBracket(c) || IsQuote(c) || IsSpace(c)
  }

  /** The first position at or after `i` whose character satisfies `stop`,
      or |data| when there is none. */
  function ScanTo(data: seq<char>, i: nat, stop: char -> bool): (k: nat)
    requires i <= |data|
    ensures i <= k <= |data|
    ensures forall j :: i <= j < k ==> !stop(data[j])
    ensures k < |data| ==> stop(data[k])
    decreases |data| - i
  {
    if i == |data| || stop(data[i]) then i else ScanTo(data, i + 1, stop)
  }

  /** ScanTo is determined by its contract: the first stop position is unique. */
  lemma ScanToUnique(data: seq<char>, i: nat, stop: char -> bool, k: nat)
    requires i <= k <= |data|
    requires forall j :: i <= j < k ==> !stop(data[j])
    requires k < |data| ==> stop(data[k])
    ensures ScanTo(data, i, stop) == k
  {
  }

  /** Scans from `start` to the first character satisfying `stop`. Without
      `inclusive` the token ends just before that character, with `inclusive` it
      takes the character too; with no stop character it runs to the end. */
  method ReadNext(start: nat, data: seq<char>, stop: char -> bool, inclusive: bool)
    returns (advance: nat, token: seq<char>)
    requires start <= |data|
    ensures start <= advance <= |data|
    ensures token == data[start..advance]
    ensures var k := ScanTo(data, start, stop);
            advance == if inclusive && k < |data| then k + 1 else k
  {
    var i := start;
    while i < |data|
      invariant start <= i <= |data|
      invariant forall j :: start <= j < i ==> !stop(data[j])
    {
      if stop(data[i]) {
        ScanToUnique(data, start, stop, i);
        if inclusive {
          return i + 1, data[start..i + 1];
        }
        return i, data[start..i];
      }
      i := i + 1;
    }
    ScanToUnique(data, start, stop, |data|);
    if |data| > start {
      return |data|, data[start..];
    }
    return start, [];
  }

  /** Returns the next token of `data` and how far to advance past it:
      leading white space is skipped; a string token runs from its opening
      quote up to and including the next quote (or to the end of the data);
      a bracket is a token on its own; anything else runs up to the next
      token-stop character. The returned token is always the slice of `data`
      that ends at `advance`. */
  method Tokenize(data: seq<char>) returns (advance: nat, token: seq<char>)
    ensures var s := ScanTo(data, 0, IsNonSpace);
            s <= advance <= |data| && token == data[s..advance]
    ensures var s := ScanTo(data, 0, IsNonSpace);
            s == |data| ==> advance == |data| && token == []
    ensures var s := ScanTo(data, 0, IsNonSpace);
            s < |data| && IsQuote(data[s]) ==>
              var q := ScanTo(data, s + 1, IsQuote);
              advance == if q < |data| then q + 1 else |data|
    ensures var s := ScanTo(data, 0, IsNonSpace);
            s < |data| && IsBracket(data[s]) ==> advance == s + 1 && token == [data[s]]
    ensures var s := ScanTo(data, 0, IsNonSpace);
            s < |data| && !IsQuote(data[s]) && !IsBracket(data[s]) ==>
              advance == ScanTo(data, s, IsTokenStop) && |token| > 0 &&
              forall j :: 0 <= j < |token| ==> !IsTokenStop(token[j])
    ensures token != [] ==> !IsSpace(token[0])
  {
    var adv, _ := ReadNext(0, data, IsNonSpace, false);
    if adv < |data| && IsQuote(data[adv]) {
      var end, _ := ReadNext(adv + 1, data, IsQuote, true);
      return end, data[adv..end];
    }
    if adv < |data| && IsBracket(data[adv]) {
      var end := adv + 1;
      return end, data[adv..end];
    }
    advance, token := ReadNext(adv, data, IsTokenStop, false);
    assert adv < |data| ==> IsTokenStop(data[adv]) == false;
  }
}
