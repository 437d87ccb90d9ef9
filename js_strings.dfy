/**
 * The few JavaScript string primitives the application relies on: the
 * truthiness of an optional string, the white-space class shared by
 * `String.prototype.trim` and the regular-expression escape `\s`, trimming,
 * and lower-casing.
 */
module JsStrings {
  import opened Wrappers

  /** `!v` for a request field that is either absent or a string: undefined and "" are falsy. */
  predicate Falsy(v: Option<string>) {
    v.None? || v.value == ""
  }

  /**
   * The ECMAScript WhiteSpace and LineTerminator code points. `trim` strips
   * exactly these, and the regular-expression class `\s` matches exactly these.
   */
  predicate IsWhitespace(c: char) {
    || c == '\t' || c == '\n' || c == '\U{000B}' || c == '\U{000C}' || c == '\r'
    || c == ' ' || c == '\U{00A0}' || c == '\U{1680}'
    || ('\U{2000}' <= c <= '\U{200A}')
    || c == '\U{2028}' || c == '\U{2029}' || c == '\U{202F}' || c == '\U{205F}'
    || c == '\U{3000}' || c == '\U{FEFF}'
  }

  ghost predicate AllWhitespace(t: string) {
    forall k :: 0 <= k < |t| ==> IsWhitespace(t[k])
  }

  /** Neither end of `t` is white space: what `trim` produces. */
  predicate IsTrimmed(t: string) {
    t == [] || (!IsWhitespace(t[0]) && !IsWhitespace(t[|t| - 1]))
  }

  /** `String.prototype.trimStart`: drop the leading white space. */
  function TrimStart(s: string): (r: string)
    ensures |r| <= |s| && r == s[|s| - |r|..]
    ensures AllWhitespace(s[..|s| - |r|])
    ensures r == [] || !IsWhitespace(r[0])
  {
    if s != [] && IsWhitespace(s[0]) then TrimStart(s[1..]) else s
  }

  /** `String.prototype.trimEnd`: drop the trailing white space. */
  function TrimEnd(s: string): (r: string)
    ensures |r| <= |s| && r == s[..|r|]
    ensures AllWhitespace(s[|r|..])
    ensures r == [] || !IsWhitespace(r[|r| - 1])
  {
    if s != [] && IsWhitespace(s[|s| - 1]) then TrimEnd(s[..|s| - 1]) else s
  }

  /**
   * `String.prototype.trim`: neither end of the result is white space, and
   * the result is empty exactly when `s` is all white space.
   */
  function Trim(s: string): (r: string)
    ensures IsTrimmed(r)
    ensures |r| <= |s|
    ensures r == [] <==> AllWhitespace(s)
  {
    var t := TrimStart(s);
    assert t != [] ==> !AllWhitespace(s) by {
      if t != [] { assert s[|s| - |t|] == t[0]; }
    }
    TrimEnd(t)
  }

  /** What `trim` removes: a white-space prefix and a white-space suffix of `s`. */
  lemma TrimIsSlice(s: string)
    ensures exists i :: 0 <= i <= |s| - |Trim(s)| && Trim(s) == s[i..i + |Trim(s)|]
                        && AllWhitespace(s[..i]) && AllWhitespace(s[i + |Trim(s)|..])
  {
    var t := TrimStart(s);
    var r := TrimEnd(t);
    var i := |s| - |t|;
    assert r == Trim(s);
    assert t == s[i..];
    assert r == s[i..i + |r|] by { assert r == t[..|r|]; }
    assert AllWhitespace(s[i + |r|..]) by { assert s[i + |r|..] == t[|r|..]; }
    assert AllWhitespace(s[..i]);
  }

  /** A string whose two ends are not white space is left alone by `trim`. */
  lemma {:induction false} TrimOfTrimmed(t: string)
    requires IsTrimmed(t)
    ensures Trim(t) == t
  {
    assert TrimStart(t) == t;
    assert TrimEnd(t) == t;
  }

  /** Trimming twice is trimming once. */
  lemma TrimIdempotent(s: string)
    ensures Trim(Trim(s)) == Trim(s)
  {
    TrimOfTrimmed(Trim(s));
  }

  /**
   * `toLowerCase` on one code point. Only the ASCII letters are mapped; every
   * other code point is left as it is.
   */
  function LowerChar(c: char): (d: char)
    ensures IsWhitespace(d) == IsWhitespace(c)
    ensures (d == '@') == (c == '@') && (d == '.') == (c == '.')
  {
    if 'A' <= c <= 'Z' then (c as int + 32) as char else c
  }

  /** `String.prototype.toLowerCase`, code point by code point. */
  function ToLower(s: string): (r: string)
    ensures |r| == |s|
    ensures forall k :: 0 <= k < |s| ==> r[k] == LowerChar(s[k])
  {
    if s == [] then [] else [LowerChar(s[0])] + ToLower(s[1..])
  }
}
