/** Whitespace stripping as JavaScript's String.prototype.trim performs it.
    The handlers reject blank input with `s.trim() === ""`, and both schemas
    store their text fields trimmed. */
module Text {

  /** The ECMAScript WhiteSpace and LineTerminator code points: the characters
      `trim` removes from either end of a string. */
  predicate IsWhitespace(c: char) {
    || c == '\t' || c == '\U{B}' || c == '\U{C}' || c == ' ' || c == '\U{A0}' || c == '\U{FEFF}'
    || c == '\U{1680}' || ('\U{2000}' <= c <= '\U{200A}') || c == '\U{202F}' || c == '\U{205F}'
    || c == '\U{3000}'
    || c == '\n' || c == '\r' || c == '\U{2028}' || c == '\U{2029}'
  }

  predicate AllWhitespace(s: string) {
    forall i :: 0 <= i < |s| ==> IsWhitespace(s[i])
  }

  /** Drops the leading whitespace: the result is the suffix of `s` that
      starts at its first non-whitespace character. */
  function TrimStart(s: string): (r: string)
    ensures |r| <= |s| && r == s[|s| - |r|..]
    ensures AllWhitespace(s[..|s| - |r|])
    ensures r == [] || !IsWhitespace(r[0])
  {
    if s != [] && IsWhitespace(s[0]) then TrimStart(s[1..]) else s
  }

  /** Drops the trailing whitespace: the result is the prefix of `s` that
      ends at its last non-whitespace character. */
  function TrimEnd(s: string): (r: string)
    ensures |r| <= |s| && r == s[..|r|]
    ensures AllWhitespace(s[|r|..])
    ensures r == [] || !IsWhitespace(r[|r| - 1])
  {
    if s != [] && IsWhitespace(s[|s| - 1]) then TrimEnd(s[..|s| - 1]) else s
  }

  /** `s.trim()`: `s` without the whitespace at either end. It is empty
      exactly when `s` is blank. */
  function Trim(s: string): (r: string)
    ensures r == [] || (!IsWhitespace(r[0]) && !IsWhitespace(r[|r| - 1]))
    ensures r == [] <==> AllWhitespace(s)
  {
    var t := TrimStart(s);
    assert AllWhitespace(s) ==> t == [];
    assert t == [] ==> s == s[..|s| - |t|];
    TrimEnd(t)
  }

  /** What `trim` removes is whitespace only: `s` is the result with a run of
      whitespace before it and a run after it. */
  lemma TrimIsInfix(s: string)
    ensures exists i :: 0 <= i <= |s| - |Trim(s)| && Trim(s) == s[i..i + |Trim(s)|]
                        && AllWhitespace(s[..i]) && AllWhitespace(s[i + |Trim(s)|..])
  {
    var t := TrimStart(s);
    var r := TrimEnd(t);
    var i := |s| - |t|;
    assert r == s[i..i + |r|];
    assert s[i + |r|..] == t[|r|..];
  }

  /** Trimming a trimmed string changes nothing, so a value the store keeps
      trimmed survives the schema's own `trim` unchanged. */
  lemma TrimIdempotent(s: string)
    ensures Trim(Trim(s)) == Trim(s)
  {
    var r := Trim(s);
    assert TrimStart(r) == r;
    assert TrimEnd(r) == r;
  }
}
