/** Acceptance rule of CPython's `uuid.UUID(hex)` for a string argument, the
    check `add_blacklist` applies to `app_uuid`. The constructor deletes every
    "urn:" and then every "uuid:", strips leading and trailing braces, deletes
    every hyphen, demands exactly 32 characters, and hands the rest to
    `int(_, 16)`. The 128-bit range check that follows can never fail here:
    no '-' sign survives the hyphen removal and 32 characters hold at most
    32 hex digits. */
module Uuid {

  predicate IsHexDigit(c: char) {
    '0' <= c <= '9' || 'a' <= c <= 'f' || 'A' <= c <= 'F'
  }

  /** The characters `int()` skips around its digits in an ASCII string:
      space, tab, line feed, vertical tab, form feed and carriage return. */
  const PySpace: set<char> := {' ', '\t', '\n', '\U{b}', '\U{c}', '\r'}

  const Braces: set<char> := {'{', '}'}

  /** `s.replace(pat, "")`: every non-overlapping occurrence of `pat`, found
      from left to right, is deleted. */
  function RemoveAll(s: string, pat: string): (r: string)
    requires pat != []
    ensures |r| <= |s|
    ensures forall c :: c in r ==> c in s
    ensures pat[0] !in s ==> r == s
    ensures |pat| == 1 ==> pat[0] !in r
    decreases |s|
  {
    if s == [] then []
    else if pat <= s then RemoveAll(s[|pat|..], pat)
    else [s[0]] + RemoveAll(s[1..], pat)
  }

  /** `s.lstrip(cs)`: the longest suffix of `s` that does not start with a
      character of `cs`. */
  function StripLeading(s: string, cs: set<char>): (r: string)
    ensures |r| <= |s| && r == s[|s| - |r|..]
    ensures forall i :: 0 <= i < |s| - |r| ==> s[i] in cs
    ensures r == [] || r[0] !in cs
  {
    if s != [] && s[0] in cs then StripLeading(s[1..], cs) else s
  }

  /** `s.rstrip(cs)`: the longest prefix of `s` that does not end with a
      character of `cs`. */
  function StripTrailing(s: string, cs: set<char>): (r: string)
    ensures |r| <= |s| && r == s[..|r|]
    ensures forall i :: |r| <= i < |s| ==> s[i] in cs
    ensures r == [] || r[|r| - 1] !in cs
  {
    if s != [] && s[|s| - 1] in cs then StripTrailing(s[..|s| - 1], cs) else s
  }

  /** `s.strip(cs)`. */
  function Strip(s: string, cs: set<char>): string {
    StripTrailing(StripLeading(s, cs), cs)
  }

  /** Length of the longest prefix of `s` made of hex digits and underscores:
      the run `int()` scans before it judges the digits. */
  function DigitRun(s: string): (n: nat)
    ensures n <= |s|
    ensures forall i :: 0 <= i < n ==> IsHexDigit(s[i]) || s[i] == '_'
    ensures n == |s| || !(IsHexDigit(s[n]) || s[n] == '_')
  {
    if s != [] && (IsHexDigit(s[0]) || s[0] == '_') then 1 + DigitRun(s[1..]) else 0
  }

  /** A digit run `int()` accepts: not empty, no leading, trailing or doubled
      underscore. */
  predicate WellFormedDigits(d: string) {
    d != [] && d[0] != '_' && d[|d| - 1] != '_' &&
    forall i :: 0 <= i < |d| - 1 ==> d[i] == '_' ==> d[i + 1] != '_'
  }

  /** Drop one optional sign character. */
  function DropSign(s: string): (r: string)
    ensures |r| <= |s| && r == s[|s| - |r|..]
  {
    if s != [] && (s[0] == '+' || s[0] == '-') then s[1..] else s
  }

  /** Drop an optional "0x"/"0X" prefix and the one underscore allowed after it. */
  function DropHexPrefix(s: string): (r: string)
    ensures |r| <= |s| && r == s[|s| - |r|..]
  {
    if |s| >= 2 && s[0] == '0' && (s[1] == 'x' || s[1] == 'X') then
      if |s| >= 3 && s[2] == '_' then s[3..] else s[2..]
    else s
  }

  /** `int(s, 16)` succeeds: leading spaces, a sign, the optional prefix, a
      well-formed digit run, and nothing but spaces after it. */
  predicate IsHexInt(s: string): (r: bool)
    ensures r ==> exists i :: 0 <= i < |s| && IsHexDigit(s[i])
  {
    var body := DropHexPrefix(DropSign(StripLeading(s, PySpace)));
    var n := DigitRun(body);
    WellFormedDigits(body[..n]) && forall i :: n <= i < |body| ==> body[i] in PySpace
  }

  /** The string `int()` receives from `uuid.UUID(s)`. */
  function Normalize(s: string): (h: string)
    ensures |h| <= |s|
    ensures '-' !in h
  {
    RemoveAll(Strip(RemoveAll(RemoveAll(s, "urn:"), "uuid:"), Braces), "-")
  }

  /** `uuid.UUID(s)` does not raise ValueError. */
  predicate ValidUuid(s: string): (r: bool)
    ensures r ==> |s| >= 32
  {
    var h := Normalize(s);
    |h| == 32 && IsHexInt(h)
  }

  /** The canonical 8-4-4-4-12 hyphenated form. */
  predicate IsCanonical(s: string) {
    |s| == 36 &&
    forall i :: 0 <= i < 36 ==>
      if i == 8 || i == 13 || i == 18 || i == 23 then s[i] == '-' else IsHexDigit(s[i])
  }

  predicate HexOrHyphens(s: string) {
    forall i :: 0 <= i < |s| ==> IsHexDigit(s[i]) || s[i] == '-'
  }

  predicate AllHex(s: string) {
    forall i :: 0 <= i < |s| ==> IsHexDigit(s[i])
  }

  function CountHexDigits(s: string): nat {
    if s == [] then 0 else (if IsHexDigit(s[0]) then 1 else 0) + CountHexDigits(s[1..])
  }

  /** Deleting the hyphens of a string of hex digits and hyphens leaves its
      hex digits, and only them. */
  lemma {:induction false} RemoveHyphens(s: string)
    requires HexOrHyphens(s)
    ensures AllHex(RemoveAll(s, "-"))
    ensures |RemoveAll(s, "-")| == CountHexDigits(s)
  {
    if s != [] {
      RemoveHyphens(s[1..]);
      if "-" <= s {
        assert s[0] == '-';
      } else {
        assert s[0] != '-';
        assert RemoveAll(s, "-") == [s[0]] + RemoveAll(s[1..], "-");
      }
    }
  }

  /** Once the spaces, the sign and the prefix are gone, a well-formed run of
      digits and underscores that fills the rest is an integer literal. */
  lemma DigitsAreHexInt(s: string, body: string)
    requires body == DropHexPrefix(DropSign(StripLeading(s, PySpace)))
    requires WellFormedDigits(body)
    requires forall i :: 0 <= i < |body| ==> IsHexDigit(body[i]) || body[i] == '_'
    ensures IsHexInt(s)
  {
    assert DigitRun(body) == |body|;
    assert body[..|body|] == body;
  }

  /** A non-empty run of hex digits is an integer literal in base 16. */
  lemma AllHexIsHexInt(h: string)
    requires h != [] && AllHex(h)
    ensures IsHexInt(h)
  {
    assert h[0] !in PySpace;
    assert StripLeading(h, PySpace) == h;
    assert DropSign(h) == h;
    assert |h| >= 2 ==> h[1] != 'x' && h[1] != 'X';
    assert DropHexPrefix(h) == h;
    DigitsAreHexInt(h, h);
  }

  /** Over hex digits and hyphens the hyphens may stand anywhere: the string
      is a valid UUID exactly when it holds 32 hex digits. */
  lemma HexOrHyphensValidIff(s: string)
    requires HexOrHyphens(s)
    ensures ValidUuid(s) <==> CountHexDigits(s) == 32
  {
    assert 'u' !in s by {
      forall i | 0 <= i < |s| ensures s[i] != 'u' {
      }
    }
    assert RemoveAll(RemoveAll(s, "urn:"), "uuid:") == s;
    assert Strip(s, Braces) == s by {
      assert StripLeading(s, Braces) == s by {
        assert s != [] ==> s[0] !in Braces;
      }
      assert s != [] ==> s[|s| - 1] !in Braces;
    }
    assert Normalize(s) == RemoveAll(s, "-");
    RemoveHyphens(s);
    if CountHexDigits(s) == 32 {
      AllHexIsHexInt(RemoveAll(s, "-"));
    }
  }

  /** Number of hyphen positions of the canonical form at or after `k`. */
  function HyphensFrom(k: nat): nat {
    (if k <= 8 then 1 else 0) + (if k <= 13 then 1 else 0) +
    (if k <= 18 then 1 else 0) + (if k <= 23 then 1 else 0)
  }

  lemma {:induction false} CanonicalSuffixCount(s: string, k: nat)
    requires IsCanonical(s) && k <= 36
    ensures CountHexDigits(s[k..]) == 36 - k - HyphensFrom(k)
    decreases 36 - k
  {
    if k < 36 {
      CanonicalSuffixCount(s, k + 1);
      assert s[k..][1..] == s[k + 1..];
    }
  }

  /** A canonical string is made of hex digits and hyphens and holds 32 hex
      digits. */
  lemma CanonicalCount(s: string)
    requires IsCanonical(s)
    ensures HexOrHyphens(s) && CountHexDigits(s) == 32
  {
    CanonicalSuffixCount(s, 0);
    assert s[0..] == s;
  }

  /** Every canonical 8-4-4-4-12 string is accepted. */
  lemma CanonicalIsValid(s: string)
    requires IsCanonical(s)
    ensures ValidUuid(s)
  {
    CanonicalCount(s);
    HexOrHyphensValidIff(s);
  }

  lemma CanonicalHasNoColonOrU(s: string)
    requires IsCanonical(s)
    ensures 'u' !in s && ':' !in s && '{' !in s && '}' !in s
  {
  }

  /** `replace` keeps the first character when the pattern does not start
      there. */
  lemma RemoveAllKeepsHead(s: string, pat: string)
    requires pat != [] && s != [] && !(pat <= s)
    ensures RemoveAll(s, pat) == [s[0]] + RemoveAll(s[1..], pat)
  {
  }

  /** "urn:" never occurs in "uid:" followed by a string free of 'u'. */
  lemma NoUrnInUidPrefix(s: string)
    requires 'u' !in s
    ensures RemoveAll("uid:" + s, "urn:") == "uid:" + s
  {
    var t, rest := "uid:" + s, "id:" + s;
    assert t[1] != "urn:"[1] && t[1..] == rest;
    assert 'u' !in rest;
    RemoveAllKeepsHead(t, "urn:");
  }

  /** "urn:" never occurs in "uuid:" followed by a string free of 'u'. */
  lemma NoUrnInUuidPrefix(s: string)
    requires 'u' !in s
    ensures RemoveAll("uuid:" + s, "urn:") == "uuid:" + s
  {
    var t := "uuid:" + s;
    assert t[1] != "urn:"[1] && t[1..] == "uid:" + s;
    NoUrnInUidPrefix(s);
    RemoveAllKeepsHead(t, "urn:");
  }

  /** Deleting "urn:" and then "uuid:" undoes a "urn:uuid:" prefix on a
      string free of 'u'. */
  lemma UrnPrefixRemoved(s: string)
    requires 'u' !in s
    ensures RemoveAll(RemoveAll("urn:uuid:" + s, "urn:"), "uuid:") == s
  {
    NoUrnInUuidPrefix(s);
    assert RemoveAll("urn:uuid:" + s, "urn:") == "uuid:" + s by {
      assert ("urn:uuid:" + s)[4..] == "uuid:" + s;
    }
    assert ("uuid:" + s)[5..] == s;
  }

  /** Stripping the braces undoes a "{...}" wrapping of a string with no brace
      at either end. */
  lemma BracesStripped(s: string)
    requires s != [] && s[0] !in Braces && s[|s| - 1] !in Braces
    ensures Strip("{" + s + "}", Braces) == s
  {
    var inner := s + "}";
    assert ("{" + s + "}")[1..] == inner;
    assert StripLeading("{" + s + "}", Braces) == inner;
    assert inner[..|inner| - 1] == s;
  }

  /** Wrapping a canonical string in braces does not change what reaches
      `int()`. */
  lemma BracedNormalize(s: string)
    requires IsCanonical(s)
    ensures Normalize("{" + s + "}") == Normalize(s)
  {
    CanonicalHasNoColonOrU(s);
    var braced := "{" + s + "}";
    assert 'u' !in braced;
    assert RemoveAll(RemoveAll(braced, "urn:"), "uuid:") == braced;
    assert RemoveAll(RemoveAll(s, "urn:"), "uuid:") == s;
    BracesStripped(s);
    assert StripLeading(s, Braces) == s;
  }

  /** The braced form "{...}" of a canonical string is accepted. */
  lemma BracedCanonicalIsValid(s: string)
    requires IsCanonical(s)
    ensures ValidUuid("{" + s + "}")
  {
    CanonicalIsValid(s);
    BracedNormalize(s);
  }

  /** The "urn:uuid:" form of a canonical string is accepted. */
  lemma UrnCanonicalIsValid(s: string)
    requires IsCanonical(s)
    ensures ValidUuid("urn:uuid:" + s)
  {
    CanonicalIsValid(s);
    CanonicalHasNoColonOrU(s);
    UrnPrefixRemoved(s);
  }

  // ------------------------------------------- what int(_, 16) adds on top

  /** A string with no 'u', no hyphen and no brace at either end reaches
      `int()` unchanged. */
  lemma NormalizeUnchanged(s: string)
    requires 'u' !in s && '-' !in s
    requires s != [] && s[0] !in Braces && s[|s| - 1] !in Braces
    ensures Normalize(s) == s
  {
    assert RemoveAll(RemoveAll(s, "urn:"), "uuid:") == s;
    assert StripLeading(s, Braces) == s;
  }

  /** Such a string of 32 characters is a valid UUID exactly when `int()`
      accepts it. */
  lemma PlainIsValid(s: string)
    requires |s| == 32 && 'u' !in s && '-' !in s && s[0] !in Braces && s[31] !in Braces
    ensures ValidUuid(s) <==> IsHexInt(s)
  {
    NormalizeUnchanged(s);
  }

  /** `lstrip` stops at once before a character outside the set. */
  lemma StripLeadingStops(s: string, cs: set<char>)
    requires s != [] && s[0] !in cs
    ensures StripLeading(s, cs) == s
  {
  }

  /** Hex digits from position `k` on: what follows the marker that a witness
      below puts in front. */
  predicate HexFrom(s: string, k: nat) {
    forall i :: k <= i < |s| ==> IsHexDigit(s[i])
  }

  /** A "0x" prefix before 30 hex digits is accepted by `int()`. */
  lemma HexPrefixIsHexInt(s: string)
    requires |s| == 32 && s[0] == '0' && s[1] == 'x' && HexFrom(s, 2)
    ensures IsHexInt(s)
  {
    assert s[0] !in PySpace;
    StripLeadingStops(s, PySpace);
    assert DropSign(s) == s;
    assert s[2] != '_';
    assert DropHexPrefix(s) == s[2..];
    DigitsAreHexInt(s, s[2..]);
  }

  /** ... and is a valid UUID. */
  lemma HexPrefixIsValid(s: string)
    requires |s| == 32 && s[0] == '0' && s[1] == 'x' && HexFrom(s, 2)
    ensures ValidUuid(s)
  {
    PlainIsValid(s);
    HexPrefixIsHexInt(s);
  }

  /** A '+' sign before 31 hex digits is accepted by `int()`. */
  lemma SignIsHexInt(s: string)
    requires |s| == 32 && s[0] == '+' && HexFrom(s, 1)
    ensures IsHexInt(s)
  {
    assert s[0] !in PySpace;
    StripLeadingStops(s, PySpace);
    var t := s[1..];
    assert DropSign(s) == t;
    assert t[1] == s[2];
    assert DropHexPrefix(t) == t;
    DigitsAreHexInt(s, t);
  }

  /** ... and is a valid UUID. */
  lemma SignIsValid(s: string)
    requires |s| == 32 && s[0] == '+' && HexFrom(s, 1)
    ensures ValidUuid(s)
  {
    PlainIsValid(s);
    SignIsHexInt(s);
  }

  /** A leading space before 31 hex digits is skipped by `int()`. */
  lemma LeadingSpaceIsHexInt(s: string)
    requires |s| == 32 && s[0] == ' ' && HexFrom(s, 1)
    ensures IsHexInt(s)
  {
    var t := s[1..];
    assert t[0] == s[1] && t[0] !in PySpace;
    StripLeadingStops(t, PySpace);
    assert StripLeading(s, PySpace) == t;
    assert DropSign(t) == t;
    assert t[1] == s[2];
    assert DropHexPrefix(t) == t;
    DigitsAreHexInt(s, t);
  }

  /** ... and is a valid UUID. */
  lemma LeadingSpaceIsValid(s: string)
    requires |s| == 32 && s[0] == ' ' && HexFrom(s, 1)
    ensures ValidUuid(s)
  {
    PlainIsValid(s);
    LeadingSpaceIsHexInt(s);
  }

  /** One underscore strictly between hex digits is accepted by `int()`. */
  lemma UnderscoreIsHexInt(s: string, k: nat)
    requires |s| == 32 && 0 < k < 31 && s[k] == '_'
    requires forall i :: 0 <= i < 32 && i != k ==> IsHexDigit(s[i])
    ensures IsHexInt(s)
  {
    assert s[0] !in PySpace;
    StripLeadingStops(s, PySpace);
    assert DropSign(s) == s;
    assert DropHexPrefix(s) == s;
    DigitsAreHexInt(s, s);
  }

  /** ... and is a valid UUID. */
  lemma UnderscoreIsValid(s: string, k: nat)
    requires |s| == 32 && 0 < k < 31 && s[k] == '_'
    requires forall i :: 0 <= i < 32 && i != k ==> IsHexDigit(s[i])
    ensures ValidUuid(s)
  {
    PlainIsValid(s);
    UnderscoreIsHexInt(s, k);
  }

  /** U+001C is not whitespace to `int()` in an ASCII string, so it is not
      skipped and the digits after it are never read. */
  lemma FileSeparatorIsNotHexInt(s: string)
    requires |s| == 32 && s[0] == '\U{1c}' && HexFrom(s, 1)
    ensures !IsHexInt(s)
  {
    assert s[0] !in PySpace;
    StripLeadingStops(s, PySpace);
    assert DropSign(s) == s;
    assert DropHexPrefix(s) == s;
    assert DigitRun(s) == 0;
  }

  /** ... so the UUID check fails. */
  lemma FileSeparatorIsRejected(s: string)
    requires |s| == 32 && s[0] == '\U{1c}' && HexFrom(s, 1)
    ensures !ValidUuid(s)
  {
    PlainIsValid(s);
    FileSeparatorIsNotHexInt(s);
  }
}
