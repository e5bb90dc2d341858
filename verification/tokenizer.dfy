/**
 * Splitting an expression into tokens: the maximal runs of characters that
 * are not whitespace, in order, as extracted one by one from a string stream.
 */
module Tokenizer {

  /** The separators of stream extraction: whitespace in the C locale. */
  predicate IsSpace(c: char) {
    c == ' ' || c == '\t' || c == '\n' || c == '\U{000B}' || c == '\U{000C}' || c == '\r'
  }

  predicate NoSpace(s: string) {
    forall i :: 0 <= i < |s| ==> !IsSpace(s[i])
  }

  /** What extraction can produce: a non-empty run without whitespace. */
  predicate IsWord(t: string) {
    t != [] && NoSpace(t)
  }

  /**
   * The tokens of `word + rest`, where `word` is the part of a token already
   * read and `rest` the input still to be read.
   */
  function Scan(word: string, rest: string): seq<string>
    decreases |rest|
  {
    if rest == [] then
      (if word == [] then [] else [word])
    else if IsSpace(rest[0]) then
      (if word == [] then [] else [word]) + Scan([], rest[1..])
    else
      Scan(word + [rest[0]], rest[1..])
  }

  function Tokens(s: string): seq<string> {
    Scan([], s)
  }

  /** The extraction loop: collects the tokens of `expression` in order. */
  method Split(expression: string) returns (tokens: seq<string>)
    ensures tokens == Tokens(expression)
  {
    tokens := [];
    var word := "";
    var i := 0;
    while i < |expression|
      invariant 0 <= i <= |expression|
      invariant tokens + Scan(word, expression[i..]) == Tokens(expression)
    {
      var c := expression[i];
      assert expression[i..][0] == c && expression[i..][1..] == expression[i + 1..];
      if IsSpace(c) {
        if word != [] {
          tokens := tokens + [word];
          word := "";
        }
      } else {
        word := word + [c];
      }
      i := i + 1;
    }
    if word != [] {
      tokens := tokens + [word];
    }
  }

  // ---------------------------------------------------------------------
  // What the tokens are
  // ---------------------------------------------------------------------

  lemma {:induction false} ScanWords(word: string, rest: string)
    requires NoSpace(word)
    ensures forall k :: 0 <= k < |Scan(word, rest)| ==> IsWord(Scan(word, rest)[k])
    decreases |rest|
  {
    if rest == [] {
    } else if IsSpace(rest[0]) {
      ScanWords([], rest[1..]);
    } else {
      ScanWords(word + [rest[0]], rest[1..]);
    }
  }

  /** Every token is non-empty and holds no whitespace. */
  lemma TokensAreWords(s: string)
    ensures forall k :: 0 <= k < |Tokens(s)| ==> IsWord(Tokens(s)[k])
  {
    ScanWords([], s);
  }

  function Concat(ts: seq<string>): string {
    if ts == [] then [] else ts[0] + Concat(ts[1..])
  }

  /** The characters of `s` that are not whitespace, in order. */
  function Visible(s: string): string {
    if s == [] then []
    else if IsSpace(s[0]) then Visible(s[1..])
    else [s[0]] + Visible(s[1..])
  }

  lemma {:induction false} ScanVisible(word: string, rest: string)
    ensures Concat(Scan(word, rest)) == word + Visible(rest)
    decreases |rest|
  {
    if rest == [] {
      if word != [] {
        assert Concat([word]) == word + Concat([]);
      }
    } else if IsSpace(rest[0]) {
      ScanVisible([], rest[1..]);
      var tail := Scan([], rest[1..]);
      if word != [] {
        assert ([word] + tail)[0] == word && ([word] + tail)[1..] == tail;
        assert Concat([word] + tail) == word + Concat(tail);
      } else {
        assert [] + tail == tail;
      }
    } else {
      ScanVisible(word + [rest[0]], rest[1..]);
    }
  }

  /** Splitting loses no character but whitespace and reorders nothing. */
  lemma TokensKeepVisible(s: string)
    ensures Concat(Tokens(s)) == Visible(s)
  {
    ScanVisible([], s);
  }

  // ---------------------------------------------------------------------
  // Round trip: words joined by single spaces split back into the same words
  // ---------------------------------------------------------------------

  function Join(ts: seq<string>): string {
    if ts == [] then []
    else if |ts| == 1 then ts[0]
    else ts[0] + " " + Join(ts[1..])
  }

  lemma {:induction false} ScanThroughWord(word: string, w: string, rest: string)
    requires NoSpace(w)
    ensures Scan(word, w + rest) == Scan(word + w, rest)
    decreases |w|
  {
    if w == [] {
      assert w + rest == rest && word + w == word;
    } else {
      assert (w + rest)[0] == w[0] && (w + rest)[1..] == w[1..] + rest;
      ScanThroughWord(word + [w[0]], w[1..], rest);
      assert word + [w[0]] + w[1..] == word + w;
    }
  }

  lemma {:induction false} TokensOfJoin(ts: seq<string>)
    requires forall k :: 0 <= k < |ts| ==> IsWord(ts[k])
    ensures Tokens(Join(ts)) == ts
  {
    if ts == [] {
    } else if |ts| == 1 {
      ScanThroughWord([], ts[0], []);
      assert ts[0] + [] == ts[0] && [] + ts[0] == ts[0];
      assert ts == [ts[0]];
    } else {
      var rest := " " + Join(ts[1..]);
      assert Join(ts) == ts[0] + rest;
      ScanThroughWord([], ts[0], rest);
      assert [] + ts[0] == ts[0];
      assert rest[0] == ' ' && rest[1..] == Join(ts[1..]);
      TokensOfJoin(ts[1..]);
      assert ts == [ts[0]] + ts[1..];
    }
  }
}
