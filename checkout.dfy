/**
 * The two input formatters of the checkout form: the card number is shown
 * as groups of four digits, the expiry date as `MM/YY`.
 */
module Checkout {
  import opened ListOps
  import opened JsText

  /** The card pattern `/\d{4,16}/` takes at least four and at most sixteen digits. */
  const MinCardDigits: nat := 4
  const MaxCardDigits: nat := 16
  /** The card field's `maxLength`. */
  const CardFieldMaxLength: nat := 19
  /** The expiry field's `maxLength`. */
  const ExpiryFieldMaxLength: nat := 5

  predicate NotSpace(c: char) { c != ' ' }

  /**
   * `(v.match(/\d{4,16}/g) || [])[0] || ""` on a string of digits only: the
   * leftmost, greedy match starts at the first digit.
   */
  function CardMatch(v: string): string
    requires AllDigits(v)
  {
    if |v| < MinCardDigits then "" else v[..Min(|v|, MaxCardDigits)]
  }

  /** `match.substring(i, i + 4)` for i = 0, 4, 8, ...: consecutive blocks of at most four. */
  function Chunks(m: string): seq<string>
    decreases |m|
  {
    if m == "" then [] else [m[..Min(4, |m|)]] + Chunks(m[Min(4, |m|)..])
  }

  /** The value `formatCardNumber` produces for `value`. */
  function FormattedCardNumber(value: string): string
  {
    var parts := Chunks(CardMatch(Digits(value)));
    if |parts| > 0 then Join(parts, ' ') else value
  }

  /**
   * `r` shows the digits `m` in blocks of four separated by single spaces:
   * every fifth character is a space, every other one is the next digit, and
   * the last block is not empty.
   */
  ghost predicate GroupedInFours(r: string, m: string)
  {
    && |m| >= 1
    && |r| == |m| + (|m| - 1) / 4
    && forall i :: 0 <= i < |r| ==>
         if i % 5 == 4 then r[i] == ' ' else i - i / 5 < |m| && r[i] == m[i - i / 5]
  }

  /** `formatCardNumber`: builds the blocks in a loop, then joins them with spaces. */
  method FormatCardNumber(value: string) returns (r: string)
    ensures r == FormattedCardNumber(value)
  {
    var v := Digits(value);
    var m := CardMatch(v);
    var parts: seq<string> := [];
    var i := 0;
    while i < |m|
      invariant 0 <= i && i % 4 == 0
      invariant i <= |m| || |m| % 4 != 0
      invariant parts + Chunks(m[Min(i, |m|)..]) == Chunks(m)
    {
      var block := m[i..Min(i + 4, |m|)];
      assert Chunks(m[i..]) == [block] + Chunks(m[Min(i + 4, |m|)..]) by {
        assert m[i..][..Min(4, |m| - i)] == block;
        assert m[i..][Min(4, |m| - i)..] == m[Min(i + 4, |m|)..];
      }
      parts := parts + [block];
      i := i + 4;
    }
    assert m[Min(i, |m|)..] == "";
    assert parts == Chunks(m);
    if |parts| > 0 {
      r := Join(parts, ' ');
    } else {
      r := value;
    }
  }

  /** Shifting an index by one block of five moves it one block down. */
  lemma ShiftByBlock(i: int)
    requires i >= 5
    ensures (i - 5) % 5 == i % 5 && (i - 5) / 5 == i / 5 - 1
  {
  }

  lemma LengthByBlock(n: int)
    requires n >= 1
    ensures (n + 3) / 4 == 1 + (n - 1) / 4
  {
  }

  /** The joined blocks of a non-empty digit string are laid out in fours. */
  lemma {:induction false} JoinedChunksGrouped(m: string)
    requires |m| >= 1
    ensures GroupedInFours(Join(Chunks(m), ' '), m)
    decreases |m|
  {
    var r := Join(Chunks(m), ' ');
    if |m| <= 4 {
      assert m[Min(4, |m|)..] == "";
      assert m[..Min(4, |m|)] == m;
      assert Chunks(m) == [m];
      assert r == m;
      forall i | 0 <= i < |r|
        ensures if i % 5 == 4 then r[i] == ' ' else i - i / 5 < |m| && r[i] == m[i - i / 5]
      {
        assert i % 5 == i && i / 5 == 0;
      }
    } else {
      var tail := m[4..];
      JoinedChunksGrouped(tail);
      var rest := Join(Chunks(tail), ' ');
      assert Chunks(m) == [m[..4]] + Chunks(tail);
      assert Chunks(tail) != [];
      assert Chunks(m)[1..] == Chunks(tail);
      assert r == m[..4] + [' '] + rest;
      LengthByBlock(|tail|);
      forall i | 0 <= i < |r|
        ensures if i % 5 == 4 then r[i] == ' ' else i - i / 5 < |m| && r[i] == m[i - i / 5]
      {
        if i < 5 {
          assert i % 5 == i && i / 5 == 0;
        } else {
          ShiftByBlock(i);
          var j := i - 5;
          assert r[i] == rest[j];
          assert if j % 5 == 4 then rest[j] == ' ' else j - j / 5 < |tail| && rest[j] == tail[j - j / 5];
        }
      }
    }
  }

  /** Keeping the digits, or dropping the spaces, of the joined blocks gives the digits back. */
  lemma {:induction false} FilterJoinedChunks(m: string, p: char -> bool)
    requires AllDigits(m)
    requires forall c :: IsDigit(c) ==> p(c)
    requires !p(' ')
    ensures Filter(Join(Chunks(m), ' '), p) == m
    decreases |m|
  {
    if m != "" {
      var n := Min(4, |m|);
      var head, tail := m[..n], m[n..];
      assert m == head + tail;
      assert Chunks(m) == [head] + Chunks(tail);
      assert forall x :: x in head ==> p(x) by {
        forall x | x in head ensures p(x) {
          var k :| 0 <= k < |head| && head[k] == x;
          assert IsDigit(m[k]);
        }
      }
      FilterKeepsAll(head, p);
      if tail == "" {
        assert Chunks(tail) == [];
        assert Join(Chunks(m), ' ') == head;
      } else {
        assert AllDigits(tail) by {
          forall k | 0 <= k < |tail| ensures IsDigit(tail[k]) { assert tail[k] == m[n + k]; }
        }
        FilterJoinedChunks(tail, p);
        assert Chunks(tail) != [];
        assert Chunks(m)[1..] == Chunks(tail);
        var rest := Join(Chunks(tail), ' ');
        assert Join(Chunks(m), ' ') == (head + [' ']) + rest;
        FilterConcat(head + [' '], rest, p);
        FilterConcat(head, [' '], p);
        assert Filter([' '], p) == [];
      }
    }
  }

  /**
   * What the card formatter promises: with fewer than four digits the input
   * comes back unchanged; otherwise the output holds the first (at most
   * sixteen) digits in blocks of four, dropping its spaces gives exactly those
   * digits, and it fits the field's 19 characters.
   */
  lemma FormattedCardNumberSpec(value: string)
    ensures |Digits(value)| < MinCardDigits ==> FormattedCardNumber(value) == value
    ensures |Digits(value)| >= MinCardDigits ==>
      var m := Digits(value)[..Min(|Digits(value)|, MaxCardDigits)];
      && GroupedInFours(FormattedCardNumber(value), m)
      && Filter(FormattedCardNumber(value), NotSpace) == m
      && |FormattedCardNumber(value)| <= CardFieldMaxLength
  {
    var v := Digits(value);
    if |v| >= MinCardDigits {
      var m := v[..Min(|v|, MaxCardDigits)];
      assert CardMatch(v) == m;
      assert Chunks(m) != [];
      JoinedChunksGrouped(m);
      FilterJoinedChunks(m, NotSpace);
    }
  }

  /** Formatting an already formatted card number (of at least four digits) changes nothing. */
  lemma FormattedCardNumberIdempotent(value: string)
    requires |Digits(value)| >= MinCardDigits
    ensures FormattedCardNumber(FormattedCardNumber(value)) == FormattedCardNumber(value)
  {
    var v := Digits(value);
    var m := v[..Min(|v|, MaxCardDigits)];
    assert CardMatch(v) == m;
    assert Chunks(m) != [];
    var r := FormattedCardNumber(value);
    assert r == Join(Chunks(m), ' ');
    FilterJoinedChunks(m, IsDigit);
    assert Digits(r) == m;
    assert CardMatch(m) == m by { assert m[..|m|] == m; }
  }

  // ---------------------------------------------------------------- expiry date

  /**
   * `formatExpiryDate`: only the digits are kept (a typed "/" too is dropped);
   * from the third digit on the value reads `MM/YY`, cut after four digits.
   */
  function FormatExpiryDate(value: string): (r: string)
    ensures |Digits(value)| < 3 ==> r == Digits(value)
    ensures |Digits(value)| >= 3 ==>
      && 3 <= |r| <= ExpiryFieldMaxLength
      && r[2] == '/'
      && AllDigits(r[..2]) && AllDigits(r[3..])
      && Digits(r) == Digits(value)[..Min(4, |Digits(value)|)]
  {
    var v := Digits(value);
    if |v| >= 3 then
      var r := v[..2] + "/" + v[2..Min(4, |v|)];
      assert Digits(r) == v[..Min(4, |v|)] by {
        DigitsConcat(v[..2] + "/", v[2..Min(4, |v|)]);
        DigitsConcat(v[..2], "/");
        DigitsOfDigits(v[..2]);
        DigitsOfDigits(v[2..Min(4, |v|)]);
        assert v[..Min(4, |v|)] == v[..2] + v[2..Min(4, |v|)];
      }
      r
    else v
  }

  /** Formatting the formatted expiry date again changes nothing. */
  lemma FormatExpiryDateIdempotent(value: string)
    ensures FormatExpiryDate(FormatExpiryDate(value)) == FormatExpiryDate(value)
  {
    var v := Digits(value);
    var r := FormatExpiryDate(value);
    if |v| >= 3 {
      var w := v[..Min(4, |v|)];
      assert Digits(r) == w;
      assert w[..2] == v[..2] && w[2..Min(4, |w|)] == v[2..Min(4, |v|)];
    } else {
      DigitsOfDigits(v);
    }
  }
}
