/** The pieces of JavaScript string semantics that the pipeline relies on:
    `String.prototype.trim`, the truthiness of an optional string, and
    `split(',')[1]`. */
module JsText {
  import opened Types

  /** The characters `trim` removes: WhiteSpace (TAB, VT, FF, ZWNBSP and every
      Unicode "Zs" space) and LineTerminator (LF, CR, LS, PS). */
  predicate IsWhiteSpace(c: char) {
    c == '\t' || c == '\n' || c == '\U{000B}' || c == '\U{000C}' || c == '\r' ||
    c == ' ' || c == '\U{00A0}' || c == '\U{1680}' ||
    ('\U{2000}' <= c <= '\U{200A}') ||
    c == '\U{2028}' || c == '\U{2029}' || c == '\U{202F}' || c == '\U{205F}' ||
    c == '\U{3000}' || c == '\U{FEFF}'
  }

  /** Every character of `s` is white space (the empty string included). */
  predicate Blank(s: string) {
    forall i :: 0 <= i < |s| ==> IsWhiteSpace(s[i])
  }

  /** `s` without its leading white space. */
  function TrimStart(s: string): (r: string)
    ensures |r| <= |s|
    ensures r == [] || !IsWhiteSpace(r[0])
  {
    if s != [] && IsWhiteSpace(s[0]) then TrimStart(s[1..]) else s
  }

  /** `s` without its trailing white space. */
  function TrimEnd(s: string): (r: string)
    ensures |r| <= |s|
    ensures r == [] || (!IsWhiteSpace(r[|r| - 1]) && r[0] == s[0])
  {
    if s != [] && IsWhiteSpace(s[|s| - 1]) then TrimEnd(s[..|s| - 1]) else s
  }

  /** `TrimStart` keeps a suffix and drops only white space. */
  lemma {:induction false} TrimStartDrops(s: string)
    ensures var r := TrimStart(s); r == s[|s| - |r|..] && Blank(s[..|s| - |r|])
  {
    if s != [] && IsWhiteSpace(s[0]) {
      TrimStartDrops(s[1..]);
      var r := TrimStart(s[1..]);
      assert s[1..][|s| - 1 - |r|..] == s[|s| - |r|..];
      assert forall i :: 0 < i < |s| - |r| ==> s[i] == s[1..][..|s| - 1 - |r|][i - 1];
    }
  }

  /** `TrimEnd` keeps a prefix and drops only white space. */
  lemma {:induction false} TrimEndDrops(s: string)
    ensures var r := TrimEnd(s); r == s[..|r|] && Blank(s[|r|..])
  {
    if s != [] && IsWhiteSpace(s[|s| - 1]) {
      TrimEndDrops(s[..|s| - 1]);
      var r := TrimEnd(s[..|s| - 1]);
      assert s[..|s| - 1][..|r|] == s[..|r|];
      assert forall i :: |r| <= i < |s| - 1 ==> s[i] == s[..|s| - 1][|r|..][i - |r|];
    }
  }

  /** `s.trim()`: white space dropped from both ends. */
  function Trim(s: string): (r: string)
    ensures |r| <= |s|
    ensures r == [] || (!IsWhiteSpace(r[0]) && !IsWhiteSpace(r[|r| - 1]))
  {
    TrimEnd(TrimStart(s))
  }

  /** What `trim` keeps is an infix of `s` and what it drops is white space:
      with the second clause of Trim's contract, the longest such infix. */
  lemma TrimIsInfix(s: string)
    ensures var r := Trim(s);
      exists i :: 0 <= i <= |s| - |r| && r == s[i..i + |r|] && Blank(s[..i]) && Blank(s[i + |r|..])
  {
    var a := TrimStart(s);
    var r := TrimEnd(a);
    TrimStartDrops(s);
    TrimEndDrops(a);
    var i := |s| - |a|;
    assert s[i..i + |r|] == r;
    assert s[..i] == s[..|s| - |a|];
    assert s[i + |r|..] == a[|r|..];
  }

  /** A string that neither starts nor ends with white space is left alone by `trim`. */
  lemma {:induction false} TrimOfTrimmed(s: string)
    requires s == [] || (!IsWhiteSpace(s[0]) && !IsWhiteSpace(s[|s| - 1]))
    ensures Trim(s) == s
  {
    assert TrimStart(s) == s;
    assert TrimEnd(s) == s;
  }

  /** `trim` is idempotent: trimming on the client and again on the server
      gives what the client sent. */
  lemma TrimIdempotent(s: string)
    ensures Trim(Trim(s)) == Trim(s)
  {
    TrimOfTrimmed(Trim(s));
  }

  /** `s.trim()` is the empty string exactly when `s` is all white space. */
  lemma {:induction false} TrimEmptyIffBlank(s: string)
    ensures Trim(s) == [] <==> Blank(s)
  {
    var a := TrimStart(s);
    var r := TrimEnd(a);
    var k := |s| - |a|;
    TrimStartDrops(s);
    TrimEndDrops(a);
    assert Trim(s) == r;
    if r == [] {
      // `TrimEnd` dropped all of `a`, so `a` is blank; `TrimStart` keeps no
      // leading white space, so `a` is empty and `s` was dropped whole.
      assert a[|r|..] == a;
      assert a == [];
      assert s[..k] == s;
    } else {
      assert a[0] == s[k];
      assert !IsWhiteSpace(s[k]);
    }
  }

  /** JavaScript truthiness of an optional string: present and not `''`. */
  predicate Truthy(o: Option<string>) {
    o.Some? && o.value != ""
  }

  /** `!x || !x.trim()` is false, equivalently `x?.trim()` is truthy. */
  predicate NonBlank(o: Option<string>) {
    o.Some? && Trim(o.value) != ""
  }

  lemma NonBlankIsTruthy(o: Option<string>)
    ensures NonBlank(o) ==> Truthy(o)
  {
  }

  /** `s.split(sep)[1]`: the text between the first and the second occurrence
      of `sep` (or to the end), `undefined` when `sep` does not occur. */
  function SecondField(s: string, sep: char): (r: Option<string>)
    ensures r.None? <==> sep !in s
    ensures r.Some? ==> sep !in r.value
  {
    var head := UpTo(s, sep);
    if |head| == |s| then None else Some(UpTo(s[|head| + 1..], sep))
  }

  /** The prefix of `s` before the first `sep`, or all of `s`. */
  function UpTo(s: string, sep: char): (r: string)
    ensures sep !in r && |r| <= |s| && r == s[..|r|]
    ensures |r| < |s| ==> s[|r|] == sep
  {
    if s == [] || s[0] == sep then [] else [s[0]] + UpTo(s[1..], sep)
  }

  /** A string split at a single separator gives back the part after it. */
  lemma SecondFieldOfJoin(prefix: string, sep: char, payload: string)
    requires sep !in prefix && sep !in payload
    ensures SecondField(prefix + [sep] + payload, sep) == Some(payload)
  {
    var s := prefix + [sep] + payload;
    UpToPrefix(prefix, sep, [sep] + payload);
    assert s == prefix + ([sep] + payload);
    assert s[|prefix| + 1..] == payload;
    UpToAll(payload, sep);
  }

  lemma {:induction false} UpToPrefix(prefix: string, sep: char, rest: string)
    requires sep !in prefix && rest != [] && rest[0] == sep
    ensures UpTo(prefix + rest, sep) == prefix
  {
    if prefix != [] {
      assert (prefix + rest)[1..] == prefix[1..] + rest;
      UpToPrefix(prefix[1..], sep, rest);
    } else {
      assert prefix + rest == rest;
    }
  }

  lemma {:induction false} UpToAll(s: string, sep: char)
    requires sep !in s
    ensures UpTo(s, sep) == s
  {
    if s != [] { UpToAll(s[1..], sep); }
  }
}
