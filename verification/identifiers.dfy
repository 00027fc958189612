/** The identifier helpers: `toIdentifier` derives a Harness identifier
    from a catalog name, `sanitizeName` makes a Backstage `metadata.name`
    out of any string, and `identifierToName` falls back to "unknown". */
module Identifiers {
  import opened Values
  import opened Errors

  const Unknown := "unknown"
  const MaxIdentifierLength := 128
  const MaxNameLength := 63

  predicate IsIdentifierChar(c: char)
  {
    'a' <= c <= 'z' || '0' <= c <= '9'
  }

  /** What `toIdentifier` can return: 1 to 128 characters of `[a-z0-9]`. */
  predicate IsIdentifier(s: string)
  {
    0 < |s| <= MaxIdentifierLength && forall i | 0 <= i < |s| :: IsIdentifierChar(s[i])
  }

  predicate IsNameChar(c: char)
  {
    'a' <= c <= 'z' || 'A' <= c <= 'Z' || '0' <= c <= '9' || c == '-' || c == '_' || c == '.'
  }

  /** What `sanitizeName` can return: 1 to 63 characters of `[A-Za-z0-9._-]`. */
  predicate IsSanitizedName(s: string)
  {
    0 < |s| <= MaxNameLength && forall i | 0 <= i < |s| :: IsNameChar(s[i])
  }

  /** The characters `String.prototype.trim` removes: ECMAScript WhiteSpace
      and LineTerminator, U+2000 to U+200A written out. */
  const Whitespace: set<char> := {
    '\t', '\n', '\U{000B}', '\U{000C}', '\r', ' ', '\U{00A0}', '\U{1680}',
    '\U{2000}', '\U{2001}', '\U{2002}', '\U{2003}', '\U{2004}', '\U{2005}',
    '\U{2006}', '\U{2007}', '\U{2008}', '\U{2009}', '\U{200A}',
    '\U{2028}', '\U{2029}', '\U{202F}', '\U{205F}', '\U{3000}', '\U{FEFF}'
  }

  predicate IsWhitespace(c: char)
  {
    c in Whitespace
  }

  /** The part of `c.toLowerCase()` that survives `/[^a-z0-9]/g`.  Besides
      ASCII, only U+0130 (lower case "i" + U+0307) and U+212A (Kelvin sign,
      lower case "k") have an ASCII letter in their lower-case form. */
  function LowerAlnum(c: char): (r: string)
    ensures forall i | 0 <= i < |r| :: IsIdentifierChar(r[i])
    ensures IsIdentifierChar(c) ==> r == [c]
    ensures 'A' <= c <= 'Z' ==> r == [(c as int + 32) as char]
    ensures r == "" <==> !('A' <= c <= 'Z' || IsIdentifierChar(c) || c == '\U{0130}' || c == '\U{212A}')
    ensures IsWhitespace(c) ==> r == ""
  {
    if 'A' <= c <= 'Z' then [(c as int + 32) as char]
    else if IsIdentifierChar(c) then [c]
    else if c == '\U{0130}' then "i"
    else if c == '\U{212A}' then "k"
    else ""
  }

  /** `s.toLowerCase().replace(/[^a-z0-9]/g, '')`. */
  function Slug(s: string): (r: string)
    ensures forall i | 0 <= i < |r| :: IsIdentifierChar(r[i])
  {
    if |s| == 0 then "" else LowerAlnum(s[0]) + Slug(s[1..])
  }

  /** `toIdentifier` on a string. */
  function ToIdentifier(name: string): (r: string)
    ensures IsIdentifier(r)
    ensures Slug(name) == "" ==> r == Unknown
    ensures Slug(name) != "" ==> r == Slug(name)[..Min(|Slug(name)|, MaxIdentifierLength)]
  {
    if name == "" then Unknown
    else
      var slug := Slug(name);
      var cut := slug[..Min(|slug|, MaxIdentifierLength)];
      if cut == "" then Unknown else cut
  }

  function Min(a: int, b: int): int
  {
    if a <= b then a else b
  }

  /** `s.slice(0, n)`: the first `n` characters, or all of a shorter `s`. */
  function Prefix(s: string, n: nat): string
  {
    s[..Min(|s|, n)]
  }

  /** Whether `toIdentifier`/`sanitizeName` can be applied to a value
      without a TypeError: it is falsy (and replaced by "unknown") or a
      string. */
  predicate Nameable(v: Option<Value>)
  {
    !Truthy(v) || v.value.Str?
  }

  /** `toIdentifier(v)` on any value: a truthy non-string has no
      `toLowerCase` method. */
  function IdentifierOf(v: Option<Value>): (r: Result<string>)
    ensures r.Success? <==> Nameable(v)
    ensures r.Success? ==> IsIdentifier(r.value)
    ensures !Truthy(v) ==> r == Success(Unknown)
    ensures Truthy(v) && v.value.Str? ==> r == Success(ToIdentifier(v.value.s))
    ensures r.Failure? ==> r.error == NotAFunction("name.toLowerCase")
  {
    if !Truthy(v) then Success(Unknown)
    else if v.value.Str? then Success(ToIdentifier(v.value.s))
    else Failure(NotAFunction("name.toLowerCase"))
  }

  /** `String.prototype.trim`. */
  function Trim(s: string): (r: string)
    ensures |r| <= |s|
    ensures exists i :: Strips(s, i, r)
    ensures r != "" ==> !IsWhitespace(r[0]) && !IsWhitespace(r[|r| - 1])
    ensures |s| > 0 && !IsWhitespace(s[0]) && !IsWhitespace(s[|s| - 1]) ==> r == s
  {
    TrimStrips(s);
    TrimEnd(TrimStart(s))
  }

  /** `r` is the run of `s` that starts at `i`, and everything cut off on
      either side is whitespace. */
  predicate Strips(s: string, i: int, r: string)
  {
    && 0 <= i <= |s| - |r|
    && (forall j | 0 <= j < |r| :: r[j] == s[i + j])
    && (forall k | 0 <= k < i :: IsWhitespace(s[k]))
    && (forall k | i + |r| <= k < |s| :: IsWhitespace(s[k]))
  }

  lemma TrimStrips(s: string)
    ensures Strips(s, |s| - |TrimStart(s)|, TrimEnd(TrimStart(s)))
  {
    var start := TrimStart(s);
    var r := TrimEnd(start);
    var i := |s| - |start|;
    TrimStartSuffix(s);
    TrimStartWhitespace(s);
    TrimEndPrefix(start);
    TrimEndWhitespace(start);
    forall k | i + |r| <= k < |s|
      ensures IsWhitespace(s[k])
    {
      assert s[k] == start[k - i];
    }
  }

  /** `TrimStart` keeps a suffix of its input. */
  lemma {:induction false} TrimStartSuffix(s: string)
    ensures forall j | 0 <= j < |TrimStart(s)| :: TrimStart(s)[j] == s[|s| - |TrimStart(s)| + j]
  {
    if |s| > 0 && IsWhitespace(s[0]) {
      TrimStartSuffix(s[1..]);
    }
  }

  /** What `TrimStart` removes is whitespace. */
  lemma {:induction false} TrimStartWhitespace(s: string)
    ensures forall k | 0 <= k < |s| - |TrimStart(s)| :: IsWhitespace(s[k])
  {
    if |s| > 0 && IsWhitespace(s[0]) {
      TrimStartWhitespace(s[1..]);
      var r := TrimStart(s[1..]);
      forall k | 1 <= k < |s| - |r|
        ensures IsWhitespace(s[k])
      {
        assert s[k] == s[1..][k - 1];
      }
    }
  }

  /** `TrimEnd` keeps a prefix of its input. */
  lemma {:induction false} TrimEndPrefix(s: string)
    ensures forall j | 0 <= j < |TrimEnd(s)| :: TrimEnd(s)[j] == s[j]
  {
    if |s| > 0 && IsWhitespace(s[|s| - 1]) {
      TrimEndPrefix(s[..|s| - 1]);
    }
  }

  /** What `TrimEnd` removes is whitespace. */
  lemma {:induction false} TrimEndWhitespace(s: string)
    ensures forall k | |TrimEnd(s)| <= k < |s| :: IsWhitespace(s[k])
  {
    if |s| > 0 && IsWhitespace(s[|s| - 1]) {
      TrimEndWhitespace(s[..|s| - 1]);
      var r := TrimEnd(s[..|s| - 1]);
      forall k | |r| <= k < |s| - 1
        ensures IsWhitespace(s[k])
      {
        assert s[k] == s[..|s| - 1][k];
      }
    }
  }

  function TrimStart(s: string): (r: string)
    ensures |r| <= |s|
    ensures r != "" ==> !IsWhitespace(r[0]) && r[|r| - 1] == s[|s| - 1]
    ensures |s| > 0 && !IsWhitespace(s[0]) ==> r == s
  {
    if |s| > 0 && IsWhitespace(s[0]) then TrimStart(s[1..]) else s
  }

  function TrimEnd(s: string): (r: string)
    ensures |r| <= |s|
    ensures r != "" ==> !IsWhitespace(r[|r| - 1]) && r[0] == s[0]
    ensures |s| > 0 && !IsWhitespace(s[|s| - 1]) ==> r == s
  {
    if |s| > 0 && IsWhitespace(s[|s| - 1]) then TrimEnd(s[..|s| - 1]) else s
  }

  /** `s.replace(/[^a-zA-Z0-9\-_\.]/g, '-')`.  The regular expression
      matches UTF-16 code units, so a character outside the Basic
      Multilingual Plane (two code units) becomes two dashes. */
  function ReplaceInvalid(s: string): (r: string)
    ensures forall i | 0 <= i < |r| :: IsNameChar(r[i])
    ensures |r| >= |s|
    ensures s != "" ==> r != ""
    ensures (forall i | 0 <= i < |s| :: IsNameChar(s[i])) ==> r == s
    ensures (forall i | 0 <= i < |s| :: s[i] as int < 0x1_0000) ==>
              |r| == |s| && forall i | 0 <= i < |s| :: r[i] == if IsNameChar(s[i]) then s[i] else '-'
  {
    if |s| == 0 then ""
    else
      var c := s[0];
      var head := if IsNameChar(c) then [c] else if c as int >= 0x1_0000 then "--" else "-";
      head + ReplaceInvalid(s[1..])
  }

  /** `sanitizeName` on a string. */
  function SanitizeName(name: string): (r: string)
    ensures IsSanitizedName(r)
    ensures Trim(name) == "" ==> r == Unknown
    ensures Trim(name) != "" ==> r == Prefix(ReplaceInvalid(Trim(name)), MaxNameLength)
  {
    if name == "" then Unknown
    else
      var replaced := ReplaceInvalid(Trim(name));
      var cut := replaced[..Min(|replaced|, MaxNameLength)];
      if cut == "" then Unknown else cut
  }

  /** `sanitizeName(v)` on any value: a truthy non-string has no `trim`
      method. */
  function SanitizeNameOf(v: Option<Value>): (r: Result<string>)
    ensures r.Success? <==> Nameable(v)
    ensures r.Success? ==> IsSanitizedName(r.value)
    ensures !Truthy(v) ==> r == Success(Unknown)
    ensures Truthy(v) && v.value.Str? ==> r == Success(SanitizeName(v.value.s))
    ensures r.Failure? ==> r.error == NotAFunction("name.trim")
  {
    if !Truthy(v) then Success(Unknown)
    else if v.value.Str? then Success(SanitizeName(v.value.s))
    else Failure(NotAFunction("name.trim"))
  }

  /** `identifierToName`: a truthy identifier is returned unchanged,
      anything else becomes "unknown", so the result is never falsy. */
  function IdentifierToName(identifier: Option<Value>): (r: Value)
    ensures Truthy(Some(r))
    ensures Truthy(identifier) ==> r == identifier.value
    ensures !Truthy(identifier) ==> r == Str(Unknown)
  {
    if !Truthy(identifier) then Str(Unknown) else identifier.value
  }

  // ---- properties ----

  lemma {:induction false} SlugOfIdentifierChars(s: string)
    requires forall i | 0 <= i < |s| :: IsIdentifierChar(s[i])
    ensures Slug(s) == s
  {
    if |s| > 0 {
      SlugOfIdentifierChars(s[1..]);
      assert s == [s[0]] + s[1..];
    }
  }

  /** Every identifier is a fixed point of `toIdentifier`. */
  lemma IdentifierFixpoint(s: string)
    requires IsIdentifier(s)
    ensures ToIdentifier(s) == s
  {
    SlugOfIdentifierChars(s);
  }

  /** `toIdentifier(name || 'unknown')` is `toIdentifier(name)`: the
      fallback is itself an identifier. */
  lemma DefaultedName(v: Option<Value>)
    ensures IdentifierOf(Some(Or(v, Str(Unknown)))) == IdentifierOf(v)
  {
    if !Truthy(v) {
      IdentifierFixpoint(Unknown);
    }
  }

  /** `toIdentifier` is idempotent. */
  lemma ToIdentifierIdempotent(s: string)
    ensures ToIdentifier(ToIdentifier(s)) == ToIdentifier(s)
  {
    IdentifierFixpoint(ToIdentifier(s));
  }

  lemma SlugFirst(s: string)
    requires |s| > 0
    ensures Slug(s) == LowerAlnum(s[0]) + Slug(s[1..])
  {
  }

  /** Slugging distributes over concatenation: every character is mapped
      on its own, so no character of the name is looked at twice. */
  lemma {:induction false} SlugAppend(s: string, t: string)
    ensures Slug(s + t) == Slug(s) + Slug(t)
    decreases |s|
  {
    if |s| == 0 {
      assert s + t == t;
    } else {
      var u := s + t;
      assert u[1..] == s[1..] + t;
      SlugAppend(s[1..], t);
      SlugStep(u, s, t);
    }
  }

  lemma SlugStep(u: string, s: string, t: string)
    requires |s| > 0 && u == s + t
    requires Slug(u[1..]) == Slug(s[1..]) + Slug(t)
    ensures Slug(u) == Slug(s) + Slug(t)
  {
    assert u[0] == s[0];
    SlugFirst(u);
    SlugFirst(s);
    AppendAssoc(LowerAlnum(s[0]), Slug(s[1..]), Slug(t));
  }

  lemma AppendAssoc(a: string, b: string, c: string)
    ensures a + (b + c) == (a + b) + c
  {
  }

  /** Every sanitized name is a fixed point of `sanitizeName`. */
  lemma SanitizedFixpoint(s: string)
    requires IsSanitizedName(s)
    ensures SanitizeName(s) == s
  {
    assert !IsWhitespace(s[0]) && !IsWhitespace(s[|s| - 1]);
    assert Trim(s) == s;
    assert ReplaceInvalid(s) == s;
    assert Prefix(s, MaxNameLength) == s;
  }

  /** `sanitizeName` is idempotent. */
  lemma SanitizeNameIdempotent(s: string)
    ensures SanitizeName(SanitizeName(s)) == SanitizeName(s)
  {
    SanitizedFixpoint(SanitizeName(s));
  }

  /** An identifier sanitizes to its first 63 characters. */
  lemma SanitizeIdentifier(s: string)
    requires IsIdentifier(s)
    ensures SanitizeName(s) == s[..Min(|s|, MaxNameLength)]
  {
    assert !IsWhitespace(s[0]) && !IsWhitespace(s[|s| - 1]);
    assert forall i | 0 <= i < |s| :: IsNameChar(s[i]);
  }
}
