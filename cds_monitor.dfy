/** The US 5-year sovereign CDS reading: the scraped text is cleaned before it is
    parsed, and the parsed value is read against fixed bands. */
module CdsMonitor {

  /** The reading of a CDS level in basis points. */
  datatype Reading = Danger | AboveNorm | SlightlyHigh | Normal

  /** `interpret_cds`. */
  function InterpretCds(value: real): (r: Reading)
    ensures r == Danger <==> value > 80.0
    ensures r == AboveNorm <==> 60.0 < value <= 80.0
    ensures r == SlightlyHigh <==> 40.0 < value <= 60.0
    ensures r == Normal <==> value <= 40.0
  {
    if value > 80.0 then Danger
    else if value > 60.0 then AboveNorm
    else if value > 40.0 then SlightlyHigh
    else Normal
  }

  /** Position of a reading from calm to alarming. */
  function Severity(r: Reading): nat
  {
    match r
    case Normal => 0
    case SlightlyHigh => 1
    case AboveNorm => 2
    case Danger => 3
  }

  /** A wider CDS spread never reads as calmer. */
  lemma InterpretCdsMonotone(v1: real, v2: real)
    requires v1 <= v2
    ensures Severity(InterpretCds(v1)) <= Severity(InterpretCds(v2))
  {
  }

  /** The characters Python's `str.strip()` removes: those for which `str.isspace()` holds. */
  predicate IsSpace(c: char)
  {
    c == '\t' || c == '\n' || c == '\U{000B}' || c == '\U{000C}' || c == '\r'
    || ('\U{001C}' <= c <= '\U{001F}') || c == ' ' || c == '\U{0085}' || c == '\U{00A0}'
    || c == '\U{1680}' || ('\U{2000}' <= c <= '\U{200A}') || c == '\U{2028}' || c == '\U{2029}'
    || c == '\U{202F}' || c == '\U{205F}' || c == '\U{3000}'
  }

  /** `text.replace(",", "")`. */
  function RemoveCommas(s: string): (r: string)
    ensures |r| <= |s|
    ensures ',' !in r
    ensures forall c :: c != ',' ==> multiset(r)[c] == multiset(s)[c]
    ensures (',' !in s) ==> r == s
  {
    if s == [] then []
    else
      var init := s[..|s| - 1];
      var last := s[|s| - 1];
      assert s == init + [last];
      RemoveCommas(init) + (if last == ',' then [] else [last])
  }

  /** Removing commas distributes over concatenation, so the characters that stay
      keep their order. */
  lemma {:induction false} RemoveCommasAppend(a: string, b: string)
    ensures RemoveCommas(a + b) == RemoveCommas(a) + RemoveCommas(b)
    decreases |b|
  {
    if b == [] {
      assert a + b == a;
    } else {
      assert (a + b)[..|a + b| - 1] == a + b[..|b| - 1];
      RemoveCommasAppend(a, b[..|b| - 1]);
    }
  }

  /** On one character: a comma disappears, anything else stays. */
  lemma RemoveCommasChar(c: char)
    ensures RemoveCommas([c]) == if c == ',' then [] else [c]
  {
    assert [c][..0] == [];
  }

  /** How many whitespace characters `s` starts with. */
  function LeadingSpace(s: string): (n: nat)
    ensures n <= |s|
    ensures forall i :: 0 <= i < n ==> IsSpace(s[i])
    ensures n == |s| || !IsSpace(s[n])
  {
    if s == [] || !IsSpace(s[0]) then 0 else 1 + LeadingSpace(s[1..])
  }

  /** How many whitespace characters `s` ends with. */
  function TrailingSpace(s: string): (n: nat)
    ensures n <= |s|
    ensures forall i :: |s| - n <= i < |s| ==> IsSpace(s[i])
    ensures n == |s| || !IsSpace(s[|s| - n - 1])
  {
    if s == [] || !IsSpace(s[|s| - 1]) then 0 else 1 + TrailingSpace(s[..|s| - 1])
  }

  /** `str.strip()`: the slice left after dropping whitespace from both ends. */
  function Strip(s: string): (r: string)
    ensures |r| <= |s|
    ensures r == [] || (!IsSpace(r[0]) && !IsSpace(r[|r| - 1]))
    ensures r == [] <==> forall i :: 0 <= i < |s| ==> IsSpace(s[i])
    ensures LeadingSpace(s) + |r| <= |s| && r == s[LeadingSpace(s)..LeadingSpace(s) + |r|]
    ensures forall i :: LeadingSpace(s) + |r| <= i < |s| ==> IsSpace(s[i])
  {
    var a := LeadingSpace(s);
    var t := s[a..];
    var b := TrailingSpace(t);
    var r := t[..|t| - b];
    assert r == s[a..a + |r|];
    assert forall i :: a + |r| <= i < |s| ==> IsSpace(s[i]) by {
      forall i | a + |r| <= i < |s| ensures IsSpace(s[i]) {
        assert s[i] == t[i - a];
      }
    }
    assert |t| > 0 ==> t[0] == s[a];
    assert r == [] ==> a == |s|;
    r
  }

  /** Stripping only removes characters, so a character absent before is absent after. */
  lemma StripKeepsOut(s: string, c: char)
    requires c !in s
    ensures c !in Strip(s)
  {
    var r, a := Strip(s), LeadingSpace(s);
    forall i | 0 <= i < |r| ensures r[i] != c {
      assert r[i] == s[a + i];
    }
  }

  /** The cleanup applied to the scraped text before `float(raw)`. */
  function CleanRaw(text: string): (r: string)
    ensures ',' !in r
    ensures r == [] || (!IsSpace(r[0]) && !IsSpace(r[|r| - 1]))
    ensures var u, n := RemoveCommas(text), LeadingSpace(RemoveCommas(text));
      && n + |r| <= |u| && r == u[n..n + |r|]
      && forall i :: n + |r| <= i < |u| ==> IsSpace(u[i])
  {
    var u := RemoveCommas(text);
    StripKeepsOut(u, ',');
    Strip(u)
  }

  /** Stripping a string with no whitespace at either end changes nothing. */
  lemma StripStripped(s: string)
    requires s == [] || (!IsSpace(s[0]) && !IsSpace(s[|s| - 1]))
    ensures Strip(s) == s
  {
  }

  /** Cleaning is idempotent: the cleaned text has no comma to remove and no
      surrounding whitespace to strip. */
  lemma CleanRawIdempotent(text: string)
    ensures CleanRaw(CleanRaw(text)) == CleanRaw(text)
  {
    var r := CleanRaw(text);
    assert RemoveCommas(r) == r;
    StripStripped(r);
  }
}
