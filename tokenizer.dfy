/** Splitting an input line into tokens, as `str::split_whitespace` does for
    `RpnCalculator::evaluate`: runs of whitespace separate tokens, and no token
    is empty. */
module Tokenizer {

  /** The characters with the Unicode White_Space property, the set that Rust's
      `char::is_whitespace` tests and `split_whitespace` splits on. */
  predicate IsWhitespace(c: char) {
    ('\t' <= c <= '\r') || c == ' ' || c == '\U{0085}' || c == '\U{00A0}' || c == '\U{1680}'
    || ('\U{2000}' <= c <= '\U{200A}') || c == '\U{2028}' || c == '\U{2029}' || c == '\U{202F}'
    || c == '\U{205F}' || c == '\U{3000}'
  }

  /** A possible token: non-empty and free of whitespace. */
  predicate IsWord(w: string) {
    w != [] && forall i :: 0 <= i < |w| ==> !IsWhitespace(w[i])
  }

  /** A line made of whitespace only (or nothing at all). */
  predicate IsBlank(line: string) {
    forall i :: 0 <= i < |line| ==> IsWhitespace(line[i])
  }

  /** The non-whitespace characters of `line`, in order. */
  function Visible(line: string): string {
    if line == [] then []
    else (if IsWhitespace(line[0]) then [] else [line[0]]) + Visible(line[1..])
  }

  /** The tokens laid end to end. */
  function Concat(ts: seq<string>): string {
    if ts == [] then [] else ts[0] + Concat(ts[1..])
  }

  /** The tokens separated by single spaces. */
  function Join(ts: seq<string>): string {
    if ts == [] then []
    else if |ts| == 1 then ts[0]
    else ts[0] + " " + Join(ts[1..])
  }

  /** The token read so far, if any. */
  function Flush(word: string): seq<string> {
    if word == [] then [] else [word]
  }

  /** The tokens of `line`, given that `word` holds the characters of the
      token being read when `line` starts. */
  function Split(line: string, word: string): (ts: seq<string>)
    requires word == [] || IsWord(word)
    ensures forall k :: 0 <= k < |ts| ==> IsWord(ts[k])
    decreases |line|
  {
    if line == [] then Flush(word)
    else if IsWhitespace(line[0]) then Flush(word) + Split(line[1..], [])
    else Split(line[1..], word + [line[0]])
  }

  /** `line.split_whitespace()`: every token is non-empty and holds no whitespace. */
  function Tokens(line: string): (ts: seq<string>)
    ensures forall k :: 0 <= k < |ts| ==> IsWord(ts[k])
  {
    Split(line, [])
  }

  lemma {:induction false} ConcatFlush(word: string, ts: seq<string>)
    ensures Concat(Flush(word) + ts) == word + Concat(ts)
  {
    if word == [] {
      assert Flush(word) + ts == ts;
    } else {
      var all := [word] + ts;
      assert all[0] == word && all[1..] == ts;
    }
  }

  lemma {:induction false} SplitVisible(line: string, word: string)
    requires word == [] || IsWord(word)
    ensures Concat(Split(line, word)) == word + Visible(line)
    decreases |line|
  {
    if line == [] {
      ConcatFlush(word, []);
    } else if IsWhitespace(line[0]) {
      SplitVisible(line[1..], []);
      ConcatFlush(word, Split(line[1..], []));
    } else {
      SplitVisible(line[1..], word + [line[0]]);
      assert word + [line[0]] + Visible(line[1..]) == word + ([line[0]] + Visible(line[1..]));
    }
  }

  /** Tokenizing drops the whitespace and nothing else: the tokens laid end to
      end are exactly the visible characters of the line. */
  lemma TokensKeepVisible(line: string)
    ensures Concat(Tokens(line)) == Visible(line)
  {
    SplitVisible(line, []);
  }

  lemma {:induction false} SplitEmpty(line: string, word: string)
    requires word == [] || IsWord(word)
    ensures Split(line, word) == [] <==> word == [] && IsBlank(line)
    decreases |line|
  {
    if line != [] {
      if IsWhitespace(line[0]) {
        SplitEmpty(line[1..], []);
        if IsBlank(line[1..]) {
          assert IsBlank(line) by {
            forall i | 0 < i < |line| ensures IsWhitespace(line[i]) {
              assert line[i] == line[1..][i - 1];
            }
          }
        } else {
          var i :| 0 <= i < |line[1..]| && !IsWhitespace(line[1..][i]);
          assert !IsWhitespace(line[i + 1]);
        }
      } else {
        SplitEmpty(line[1..], word + [line[0]]);
      }
    }
  }

  /** A line yields no token exactly when it is blank. */
  lemma TokensEmptyIffBlank(line: string)
    ensures Tokens(line) == [] <==> IsBlank(line)
  {
    SplitEmpty(line, []);
  }

  lemma {:induction false} SplitWord(w: string, line: string, word: string)
    requires word == [] || IsWord(word)
    requires forall i :: 0 <= i < |w| ==> !IsWhitespace(w[i])
    ensures word + w == [] || IsWord(word + w)
    ensures Split(w + line, word) == Split(line, word + w)
    decreases |w|
  {
    if w == [] {
      assert w + line == line && word + w == word;
    } else {
      assert (w + line)[0] == w[0] && !IsWhitespace(w[0]) && (w + line)[1..] == w[1..] + line;
      SplitWord(w[1..], line, word + [w[0]]);
      assert word + [w[0]] + w[1..] == word + w;
    }
  }

  /** Tokenizing the tokens joined by single spaces gives them back. */
  lemma {:induction false} TokensOfJoin(ts: seq<string>)
    requires forall k :: 0 <= k < |ts| ==> IsWord(ts[k])
    ensures Tokens(Join(ts)) == ts
  {
    if |ts| == 1 {
      SplitWord(ts[0], [], []);
      assert ts[0] + [] == ts[0] && [] + ts[0] == ts[0];
      assert Split([], ts[0]) == [ts[0]];
    } else if |ts| > 1 {
      var rest := Join(ts[1..]);
      assert Join(ts) == ts[0] + (" " + rest);
      SplitWord(ts[0], " " + rest, []);
      assert [] + ts[0] == ts[0];
      assert (" " + rest)[0] == ' ' && (" " + rest)[1..] == rest;
      assert Split(" " + rest, ts[0]) == [ts[0]] + Split(rest, []);
      TokensOfJoin(ts[1..]);
      assert [ts[0]] + ts[1..] == ts;
    }
  }

  lemma {:induction false} SplitAt(a: string, c: char, b: string, word: string)
    requires word == [] || IsWord(word)
    requires IsWhitespace(c)
    ensures Split(a + [c] + b, word) == Split(a, word) + Split(b, [])
    decreases |a|
  {
    if a == [] {
      assert a + [c] + b == [c] + b && ([c] + b)[0] == c && ([c] + b)[1..] == b;
    } else {
      assert (a + [c] + b)[0] == a[0] && (a + [c] + b)[1..] == a[1..] + [c] + b;
      if IsWhitespace(a[0]) {
        SplitAt(a[1..], c, b, []);
        assert Flush(word) + (Split(a[1..], []) + Split(b, []))
          == (Flush(word) + Split(a[1..], [])) + Split(b, []);
      } else {
        SplitAt(a[1..], c, b, word + [a[0]]);
      }
    }
  }

  /** A whitespace character always separates tokens: the tokens of `a c b`
      are the tokens of `a` followed by those of `b`, so no token spans it. */
  lemma TokensSplitAt(a: string, c: char, b: string)
    requires IsWhitespace(c)
    ensures Tokens(a + [c] + b) == Tokens(a) + Tokens(b)
  {
    SplitAt(a, c, b, []);
  }

  /** A line that is one word is that single token. */
  lemma TokensOfWord(w: string)
    requires IsWord(w)
    ensures Tokens(w) == [w]
  {
    TokensOfJoin([w]);
    assert Join([w]) == w;
  }
}
