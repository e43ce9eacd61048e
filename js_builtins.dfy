/** The two JavaScript built-ins the chat components depend on for their
    logic: String.prototype.trim, used by the blank-input guards, and the
    Math.floor(Math.random() * n) idiom that picks a canned reply. */
module JsBuiltins {

  /** The characters trim removes: the WhiteSpace and LineTerminator
      productions of ECMA-262 (sections 12.2 and 12.3), including every
      character of the Unicode category Zs. */
  predicate IsWhitespace(c: char) {
    || c == '\t' || c == '\n' || c == '\U{000B}' || c == '\U{000C}' || c == '\r'
    || c == ' ' || c == '\U{00A0}' || c == '\U{1680}'
    || ('\U{2000}' <= c <= '\U{200A}')
    || c == '\U{2028}' || c == '\U{2029}' || c == '\U{202F}' || c == '\U{205F}'
    || c == '\U{3000}' || c == '\U{FEFF}'
  }

  predicate AllWhitespace(s: string) {
    forall i :: 0 <= i < |s| ==> IsWhitespace(s[i])
  }

  /** Drops the leading whitespace. */
  function TrimStart(s: string): string {
    if s != [] && IsWhitespace(s[0]) then TrimStart(s[1..]) else s
  }

  /** Drops the trailing whitespace. */
  function TrimEnd(s: string): string {
    if s != [] && IsWhitespace(s[|s| - 1]) then TrimEnd(s[..|s| - 1]) else s
  }


  /** TrimStart leaves a suffix of `s` that does not start with whitespace,
      and what it dropped is all whitespace. */
  lemma {:induction false} TrimStartSuffix(s: string)
    ensures var r := TrimStart(s);
      && |r| <= |s| && r == s[|s| - |r|..]
      && AllWhitespace(s[..|s| - |r|])
      && (r == [] || !IsWhitespace(r[0]))
  {
    if s != [] && IsWhitespace(s[0]) {
      var r := TrimStart(s[1..]);
      TrimStartSuffix(s[1..]);
      assert s[..|s| - |r|] == [s[0]] + s[1..][..|s| - 1 - |r|];
    }
  }

  /** TrimEnd leaves a prefix of `s` that does not end with whitespace, and
      what it dropped is all whitespace. */
  lemma {:induction false} TrimEndPrefix(s: string)
    ensures var r := TrimEnd(s);
      && |r| <= |s| && r == s[..|r|]
      && AllWhitespace(s[|r|..])
      && (r == [] || !IsWhitespace(r[|r| - 1]))
  {
    if s != [] && IsWhitespace(s[|s| - 1]) {
      var r := TrimEnd(s[..|s| - 1]);
      TrimEndPrefix(s[..|s| - 1]);
      assert s[|r|..] == s[..|s| - 1][|r|..] + [s[|s| - 1]];
    }
  }

  /** String.prototype.trim: the result is empty exactly when every
      character of `s` is whitespace; otherwise it starts and ends with a
      character that is not. */
  function Trim(s: string): (r: string)
    ensures |r| <= |s|
    ensures r == [] <==> AllWhitespace(s)
    ensures r != [] ==> !IsWhitespace(r[0]) && !IsWhitespace(r[|r| - 1])
  {
    var t := TrimStart(s);
    TrimStartSuffix(s);
    TrimEndPrefix(t);
    var r := TrimEnd(t);
    assert r == [] ==> t[|r|..] == t && t == [] && s[..|s| - |t|] == s;
    assert r != [] ==> r[0] == t[0] && t[0] == s[|s| - |t|];
    r
  }

  /** The guards `input.trim() === ""` and `!input.trim()`: both hold
      exactly when the trimmed input is the empty string. */
  predicate IsBlank(s: string) {
    Trim(s) == []
  }

  /** An input is blank exactly when it is made of whitespace only. */
  lemma BlankIffAllWhitespace(s: string)
    ensures IsBlank(s) <==> AllWhitespace(s)
  {
  }

  /** Math.floor(random * n) for a value `random` of Math.random, which lies
      in [0, 1): always an index of an n-entry table. */
  function RandomIndex(random: real, n: nat): (i: nat)
    requires 0.0 <= random < 1.0 && 0 < n
    ensures i < n
  {
    var x := random * n as real;
    ProductBelow(random, n as real);
    var i := x.Floor;
    assert i as real <= x < n as real;
    i
  }

  lemma ProductBelow(random: real, n: real)
    requires 0.0 <= random < 1.0 && 0.0 < n
    ensures 0.0 <= random * n < n
  {
    assert n - random * n == (1.0 - random) * n;
  }

  /** Every entry of an n-entry table can be drawn: the value k / n of
      Math.random selects entry k. */
  lemma EveryIndexDrawable(k: nat, n: nat)
    requires k < n
    ensures 0.0 <= k as real / n as real < 1.0
    ensures RandomIndex(k as real / n as real, n) == k
  {
    var random := k as real / n as real;
    assert random * n as real == k as real;
  }
}
