/**
 * The JavaScript string built-ins the storefront calls, as functions on
 * `string` (a sequence of Unicode scalar values): stripping everything but
 * decimal digits, `split`, `join`, `parseInt`, `Number`, `trim` and
 * `slice(-n)`.
 */
module JsText {
  import opened Wrappers
  import opened ListOps

  predicate IsDigit(c: char) { '0' <= c <= '9' }

  predicate AllDigits(s: string) { forall k :: 0 <= k < |s| ==> IsDigit(s[k]) }

  /**
   * `s.replace(/\s+/g, "").replace(/[^0-9]/gi, "")`: removing the white space
   * and then every non-digit leaves exactly the decimal digits, in order.
   */
  function Digits(s: string): (r: string)
    ensures AllDigits(r)
    ensures |r| <= |s|
  {
    var r := Filter(s, IsDigit);
    assert forall k :: 0 <= k < |r| ==> r[k] in r;
    r
  }

  lemma DigitsOfDigits(s: string)
    requires AllDigits(s)
    ensures Digits(s) == s
  {
    FilterKeepsAll(s, IsDigit);
  }

  lemma DigitsConcat(a: string, b: string)
    ensures Digits(a + b) == Digits(a) + Digits(b)
  {
    FilterConcat(a, b, IsDigit);
  }

  // ---------------------------------------------------------------- white space

  /** The characters ECMAScript's `trim` and `parseInt` skip (WhiteSpace and LineTerminator). */
  predicate IsWhiteSpace(c: char)
  {
    c == '\t' || c == '\n' || c == '\U{000B}' || c == '\U{000C}' || c == '\r' || c == ' '
    || c == '\U{00A0}' || c == '\U{1680}' || ('\U{2000}' <= c <= '\U{200A}')
    || c == '\U{2028}' || c == '\U{2029}' || c == '\U{202F}' || c == '\U{205F}'
    || c == '\U{3000}' || c == '\U{FEFF}'
  }

  /** Number of leading white-space characters. */
  function LeadingSpace(s: string): (n: nat)
    ensures n <= |s|
    ensures forall k :: 0 <= k < n ==> IsWhiteSpace(s[k])
    ensures n < |s| ==> !IsWhiteSpace(s[n])
  {
    if s == "" || !IsWhiteSpace(s[0]) then 0 else 1 + LeadingSpace(s[1..])
  }

  /** Number of trailing white-space characters. */
  function TrailingSpace(s: string): (n: nat)
    ensures n <= |s|
    ensures forall k :: |s| - n <= k < |s| ==> IsWhiteSpace(s[k])
    ensures n < |s| ==> !IsWhiteSpace(s[|s| - n - 1])
  {
    if s == "" || !IsWhiteSpace(s[|s| - 1]) then 0 else 1 + TrailingSpace(s[..|s| - 1])
  }

  /** `s.trim()`. */
  function Trim(s: string): (r: string)
    ensures r == "" <==> forall k :: 0 <= k < |s| ==> IsWhiteSpace(s[k])
    ensures r != "" ==> !IsWhiteSpace(r[0]) && !IsWhiteSpace(r[|r| - 1])
    ensures LeadingSpace(s) + |r| <= |s| && r == s[LeadingSpace(s)..LeadingSpace(s) + |r|]
  {
    var a := LeadingSpace(s);
    var rest := s[a..];
    var b := TrailingSpace(rest);
    var r := rest[..|rest| - b];
    assert r == s[a..a + |r|];
    assert r == "" ==> a == |s| by {
      if a < |s| {
        assert !IsWhiteSpace(rest[0]);
      }
    }
    assert r != "" ==> r[0] == s[a] && r[|r| - 1] == rest[|rest| - b - 1];
    r
  }

  // ---------------------------------------------------------------- split / join

  /** Index of the first occurrence of `c`. */
  function IndexOf(s: string, c: char): (i: nat)
    requires c in s
    ensures i < |s| && s[i] == c && c !in s[..i]
  {
    if s[0] == c then 0
    else
      assert c in s[1..] by { assert s == [s[0]] + s[1..]; }
      var j := IndexOf(s[1..], c);
      assert s[..j + 1] == [s[0]] + s[1..][..j];
      j + 1
  }

  /** `s.split(sep)` for a one-character separator. */
  function Split(s: string, sep: char): (parts: seq<string>)
    ensures |parts| >= 1
    ensures forall k :: 0 <= k < |parts| ==> sep !in parts[k]
    decreases |s|
  {
    if sep !in s then [s]
    else
      var i := IndexOf(s, sep);
      [s[..i]] + Split(s[i + 1..], sep)
  }

  /** A string of digits holds no other character. */
  lemma NoNonDigit(ds: string, c: char)
    requires AllDigits(ds) && !IsDigit(c)
    ensures c !in ds
  {
    forall k | 0 <= k < |ds| ensures ds[k] != c {
      assert IsDigit(ds[k]);
    }
  }

  /** The first separator after a separator-free prefix is found right after that prefix. */
  lemma {:induction false} IndexOfAfter(a: string, sep: char, rest: string)
    requires sep !in a
    ensures sep in a + [sep] + rest && IndexOf(a + [sep] + rest, sep) == |a|
  {
    var s := a + [sep] + rest;
    assert s[|a|] == sep;
    if a != [] {
      assert s[1..] == a[1..] + [sep] + rest;
      IndexOfAfter(a[1..], sep, rest);
    }
  }

  /** Two separator-free strings joined by the separator split back into the two. */
  lemma SplitPair(a: string, sep: char, b: string)
    requires sep !in a && sep !in b
    ensures Split(a + [sep] + b, sep) == [a, b]
  {
    var s := a + [sep] + b;
    IndexOfAfter(a, sep, b);
    assert s[..|a|] == a;
    assert s[|a| + 1..] == b;
  }

  /** `parts.join(sep)` for a one-character separator. */
  function Join(parts: seq<string>, sep: char): string
  {
    if parts == [] then ""
    else if |parts| == 1 then parts[0]
    else parts[0] + [sep] + Join(parts[1..], sep)
  }

  // ---------------------------------------------------------------- numbers

  /** The longest prefix of decimal digits. */
  function LeadingDigits(s: string): (r: string)
    ensures AllDigits(r) && |r| <= |s| && r == s[..|r|]
    ensures |r| < |s| ==> !IsDigit(s[|r|])
  {
    if s == "" || !IsDigit(s[0]) then ""
    else [s[0]] + LeadingDigits(s[1..])
  }

  lemma {:induction false} LeadingDigitsOfDigits(ds: string)
    requires AllDigits(ds)
    ensures LeadingDigits(ds) == ds
  {
    if ds != "" {
      LeadingDigitsOfDigits(ds[1..]);
    }
  }

  /** The value of a string of decimal digits. */
  function DecimalValue(ds: string): (n: nat)
    requires AllDigits(ds)
    ensures ds == "" ==> n == 0
  {
    if ds == "" then 0
    else DecimalValue(ds[..|ds| - 1]) * 10 + (ds[|ds| - 1] as int - '0' as int)
  }

  /**
   * `parseInt(s)` with no radix: skip leading white space, take an optional
   * sign and then the longest run of decimal digits; no digits gives `NaN`
   * (`None`). The `0x` hexadecimal prefix is not modelled.
   */
  function ParseInt(s: string): Option<int>
  {
    var t := s[LeadingSpace(s)..];
    var ds := LeadingDigits(Unsigned(t));
    if ds == "" then None
    else if |t| > 0 && t[0] == '-' then Some(-(DecimalValue(ds) as int))
    else Some(DecimalValue(ds))
  }

  /** A non-empty string of decimal digits parses to its value. */
  lemma ParseIntOfDigits(ds: string)
    requires AllDigits(ds) && ds != ""
    ensures ParseInt(ds) == Some(DecimalValue(ds))
  {
    assert IsDigit(ds[0]);
    assert LeadingSpace(ds) == 0;
    assert ds[LeadingSpace(ds)..] == ds;
    assert Unsigned(ds) == ds;
    LeadingDigitsOfDigits(ds);
  }

  /** The text after an optional leading sign. */
  function Unsigned(t: string): string
  {
    if |t| > 0 && (t[0] == '+' || t[0] == '-') then t[1..] else t
  }

  /**
   * `Number(s)` when the result must be an integer: surrounding white space is
   * ignored, a blank string is 0, and otherwise the rest must be an optional
   * sign and at least one decimal digit. Anything else is treated as `NaN`
   * (`None`).
   */
  function ParseNumber(s: string): (r: Option<int>)
    ensures AllDigits(s) && s != "" ==> r == Some(DecimalValue(s))
    ensures (forall k :: 0 <= k < |s| ==> IsWhiteSpace(s[k])) ==> r == Some(0)
  {
    var t := Trim(s);
    var u := Unsigned(t);
    assert AllDigits(s) && s != "" ==> t == s && u == s by {
      if AllDigits(s) && s != "" {
        TrimDigits(s);
        assert IsDigit(s[0]);
      }
    }
    if t == "" then Some(0)
    else if u == "" || !AllDigits(u) then None
    else if t[0] == '-' then Some(-(DecimalValue(u) as int))
    else Some(DecimalValue(u))
  }

  /** A string of digits is its own trimmed form. */
  lemma TrimDigits(s: string)
    requires AllDigits(s)
    ensures Trim(s) == s
  {
    if s != "" {
      assert !IsWhiteSpace(s[0]) && !IsWhiteSpace(s[|s| - 1]);
      assert TrailingSpace(s) == 0;
    }
  }

  // ---------------------------------------------------------------- slice(-n)

  /** `s.slice(-n)` for `n > 0`: the last `n` characters, or all of `s` when shorter. */
  function TakeLast(s: string, n: nat): (r: string)
    requires n > 0
    ensures |r| == Min(n, |s|)
    ensures s == s[..|s| - |r|] + r
  {
    s[|s| - Min(n, |s|)..]
  }
}
