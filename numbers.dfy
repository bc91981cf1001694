/** Integers as the simulator reads and writes them: JavaScript's
    `parseInt(text)` with its default radix, and the decimal text that a
    template literal `${n}` produces for an integer. */
module Numbers {
  import opened Common
  import opened Text

  predicate IsDigit(c: char) {
    '0' <= c <= '9'
  }

  function DigitValue(c: char): nat
    requires IsDigit(c)
  {
    c as int - '0' as int
  }

  function DigitChar(d: nat): char
    requires d < 10
  {
    ('0' as int + d) as char
  }

  predicate AllDigits(s: string) {
    forall i :: 0 <= i < |s| ==> IsDigit(s[i])
  }

  /** The end of the run of digits in `s` that starts at position `i`. */
  function DigitRun(s: string, i: nat): (k: nat)
    requires i <= |s|
    ensures i <= k <= |s|
    ensures forall j :: i <= j < k ==> IsDigit(s[j])
    ensures k < |s| ==> !IsDigit(s[k])
    decreases |s| - i
  {
    if i < |s| && IsDigit(s[i]) then DigitRun(s, i + 1) else i
  }

  /** The value of the digits from position `i` up to `k` of `s`, most
      significant first. */
  function DigitsValue(s: string, i: nat, k: nat): nat
    requires i <= k <= |s|
    requires forall j :: i <= j < k ==> IsDigit(s[j])
    decreases k
  {
    if k == i then 0 else DigitsValue(s, i, k - 1) * 10 + DigitValue(s[k - 1])
  }

  /** `${n}` for a natural number: its decimal digits without leading zeros. */
  function ShowNat(n: nat): (s: string)
    ensures |s| >= 1 && IsDigit(s[0])
    ensures s[0] != '0' || n == 0
  {
    if n < 10 then [DigitChar(n)] else ShowNat(n / 10) + [DigitChar(n % 10)]
  }

  /** `${n}` for an integer: a minus sign before the digits of a negative one. */
  function ShowInt(n: int): string {
    if n < 0 then "-" + ShowNat(-n) else ShowNat(n)
  }

  /** The run of digits of `s` that starts at `i`, read as a number; no
      digit there means no number. */
  function ParseDigits(s: string, i: nat): Option<nat>
    requires i <= |s|
  {
    var k := DigitRun(s, i);
    if k == i then None else Some(DigitsValue(s, i, k))
  }

  /** `parseInt(text)`: skip leading whitespace, read one optional sign and
      then the longest run of decimal digits; no digits means `NaN`, written
      `None` here. Whatever follows the digits is ignored. */
  function ParseInt(text: string): (r: Option<int>)
    ensures r.Some? ==> exists i :: 0 <= i < |text| && IsDigit(text[i])
  {
    var b := SkipBlanks(text, 0);
    var signed := b < |text| && (text[b] == '-' || text[b] == '+');
    var negative := b < |text| && text[b] == '-';
    var start := if signed then b + 1 else b;
    match ParseDigits(text, start)
    case None => None
    case Some(v) =>
      assert IsDigit(text[start]);
      Some(if negative then -(v as int) else v as int)
  }

  /** `${n}` is made of decimal digits only. */
  lemma {:induction false} ShowNatDigits(n: nat)
    ensures AllDigits(ShowNat(n))
  {
    if n >= 10 {
      ShowNatDigits(n / 10);
      var s := ShowNat(n);
      assert s == ShowNat(n / 10) + [DigitChar(n % 10)];
      assert forall i :: 0 <= i < |s| - 1 ==> s[i] == ShowNat(n / 10)[i];
    }
  }

  /** The value of a run of digits depends only on those digits, wherever
      they stand: digits of `s` from `o` on that match `t` from 0 on are
      worth what `t`'s are. */
  lemma {:induction false} DigitsValueShift(s: string, o: nat, t: string, k: nat)
    requires k <= |t| && o + k <= |s|
    requires forall j :: o <= j < o + k ==> IsDigit(s[j])
    requires forall j :: 0 <= j < k ==> s[o + j] == t[j]
    ensures DigitsValue(s, o, o + k) == DigitsValue(t, 0, k)
  {
    if k > 0 {
      DigitsValueShift(s, o, t, k - 1);
      assert s[o + k - 1] == t[k - 1];
    }
  }

  /** The digits of `${n}` are worth n. */
  lemma {:induction false} DigitsOfShowNat(n: nat)
    ensures AllDigits(ShowNat(n)) && DigitsValue(ShowNat(n), 0, |ShowNat(n)|) == n
  {
    ShowNatDigits(n);
    if n >= 10 {
      var front := ShowNat(n / 10);
      ShowNatDigits(n / 10);
      DigitsValueSnoc(front, DigitChar(n % 10));
      DigitsOfShowNat(n / 10);
    }
  }

  /** A digit written after a run of digits multiplies its value by ten and
      adds the digit's. */
  lemma DigitsValueSnoc(ds: string, d: char)
    requires AllDigits(ds) && IsDigit(d)
    ensures AllDigits(ds + [d])
    ensures DigitsValue(ds + [d], 0, |ds| + 1) == DigitsValue(ds, 0, |ds|) * 10 + DigitValue(d)
  {
    var s := ds + [d];
    forall j | 0 <= j < |s| ensures IsDigit(s[j]) {
      if j < |ds| {
        assert s[j] == ds[j];
      }
    }
    DigitsValueShift(s, 0, ds, |ds|);
  }

  /** The digits of `${n}` standing at position `o` of `text`, with no digit
      right after them, read as n. */
  lemma ParseShowNatAt(text: string, o: nat, n: nat)
    requires o + |ShowNat(n)| <= |text|
    requires forall j :: 0 <= j < |ShowNat(n)| ==> text[o + j] == ShowNat(n)[j]
    requires o + |ShowNat(n)| == |text| || !IsDigit(text[o + |ShowNat(n)|])
    ensures ParseDigits(text, o) == Some(n)
  {
    var ds := ShowNat(n);
    DigitsOfShowNat(n);
    assert forall j :: o <= j < o + |ds| ==> IsDigit(text[j]) by {
      forall j | o <= j < o + |ds| ensures IsDigit(text[j]) {
        assert text[o + (j - o)] == ds[j - o];
      }
    }
    DigitRunFrom(text, o, o + |ds|);
    DigitsValueShift(text, o, ds, |ds|);
  }

  /** Where every position from `i` to `k` holds a digit and position `k`
      does not, the run of digits from `i` ends at `k`. */
  lemma {:induction false} DigitRunFrom(s: string, i: nat, k: nat)
    requires i <= k <= |s|
    requires forall j :: i <= j < k ==> IsDigit(s[j])
    requires k == |s| || !IsDigit(s[k])
    ensures DigitRun(s, i) == k
    decreases k - i
  {
    if i < k {
      DigitRunFrom(s, i + 1, k);
    }
  }

  /** Reading back what was written: `parseInt` recovers any integer from its
      decimal text, also when other text follows that does not start with a
      digit (so "7/10" reads as 7). */
  lemma ParseShowInt(n: int, rest: string)
    requires rest == [] || !IsDigit(rest[0])
    ensures ParseInt(ShowInt(n) + rest) == Some(n)
  {
    var text := ShowInt(n) + rest;
    var ds := if n < 0 then ShowNat(-n) else ShowNat(n);
    var o := if n < 0 then 1 else 0;
    assert |text| == o + |ds| + |rest|;
    assert forall j :: 0 <= j < |ds| ==> text[o + j] == ds[j];
    assert |rest| > 0 ==> text[o + |ds|] == rest[0];
    assert !IsWhitespace(text[0]);
    assert SkipBlanks(text, 0) == 0;
    ParseShowNatAt(text, o, if n < 0 then -n else n);
  }

  /** A non-zero number read by `parseInt` is negative exactly when a minus
      sign stands before its digits, after the leading whitespace. */
  lemma ParseIntSign(text: string)
    ensures var r := ParseInt(text);
      r.Some? && r.value != 0 ==>
        (r.value < 0 <==> SkipBlanks(text, 0) < |text| && text[SkipBlanks(text, 0)] == '-')
  {
  }
}
