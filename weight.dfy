/** The weight field of `src/components/WeightInput.tsx`: which typed values are accepted, and
    what value an accepted text stands for. A weight is held elsewhere in this model as a whole
    number of tenths of a kilogram; the lemmas here show that this covers exactly what the field
    lets through. */
module Weight {
  import opened Text

  /** `\d`: an ASCII digit. */
  predicate IsDigit(c: char) {
    '0' <= c <= '9'
  }

  predicate AllDigits(s: string) {
    forall i :: 0 <= i < |s| ==> IsDigit(s[i])
  }

  /** `v` is `k` digits, then either nothing or a point followed by at most one digit. */
  predicate WeightShape(v: string, k: nat) {
    k <= |v| && AllDigits(v[..k])
    && (k == |v| || (v[k] == '.' && |v| <= k + 2 && AllDigits(v[k + 1..])))
  }

  /** `/^\d{1,2}(\.\d{0,1})?$/.test(v)`. */
  predicate MatchesPattern(v: string) {
    exists k | 1 <= k <= 2 :: WeightShape(v, k)
  }

  /** The test in `handleChange`: the empty text (a cleared field) or the pattern. */
  predicate Accepted(v: string) {
    v == "" || MatchesPattern(v)
  }

  /** `handleChange`: an accepted text is passed to `onChange` and becomes the stored weight;
      any other edit is dropped and the stored weight stays as it was. */
  function HandleChange(weight: string, v: string): (stored: string)
    ensures stored == v || stored == weight
    ensures stored == v <== Accepted(v)
    ensures stored == weight <== !Accepted(v)
  {
    if Accepted(v) then v else weight
  }

  /** The field only ever holds accepted text, starting from the empty field. */
  lemma {:induction false} HandleChangeKeepsAccepted(weight: string, v: string)
    requires Accepted(weight)
    ensures Accepted(HandleChange(weight, v))
    ensures |HandleChange(weight, v)| <= 4
  {
    AcceptedShort(weight);
    AcceptedShort(v);
  }

  /** An accepted text has at most four characters. */
  lemma {:induction false} AcceptedShort(v: string)
    ensures Accepted(v) ==> |v| <= 4
  {
    if v != "" && MatchesPattern(v) {
      var k :| 1 <= k <= 2 && WeightShape(v, k);
    }
  }

  /** Every prefix of an accepted text is accepted, so a weight can be typed one character at a
      time without any step being refused. */
  lemma {:induction false} AcceptedPrefixClosed(v: string, n: nat)
    requires Accepted(v) && n <= |v|
    ensures Accepted(v[..n])
  {
    if n > 0 {
      var k :| 1 <= k <= 2 && WeightShape(v, k);
      var p := v[..n];
      if n <= k {
        assert p[..n] == v[..k][..n];
        assert WeightShape(p, n);
      } else {
        assert p[..k] == v[..k] && p[k] == '.';
        assert p[k + 1..] == v[k + 1..n];
        assert WeightShape(p, k);
      }
    }
  }

  /** Some texts the field refuses: too many whole digits, no whole digit, two decimals, a
      letter. */
  lemma {:induction false} RejectedExamples()
    ensures !Accepted("123") && !Accepted(".5") && !Accepted("5.25") && !Accepted("5a")
  {
    assert "123"[1] == '2' && "123"[2] == '3';
    assert !WeightShape("123", 1) && !WeightShape("123", 2);
    assert ".5"[0] == '.' && ".5"[..1][0] == '.' && ".5"[..2][0] == '.';
    assert !WeightShape(".5", 1) && !WeightShape(".5", 2);
    assert "5.25"[1] == '.' && "5.25"[2] == '2';
    assert !WeightShape("5.25", 1) && !WeightShape("5.25", 2);
    assert "5a"[1] == 'a' && "5a"[..2][1] == 'a';
    assert !WeightShape("5a", 1) && !WeightShape("5a", 2);
  }

  /** Some texts the field lets through while a weight is being typed. */
  lemma {:induction false} AcceptedExamples()
    ensures Accepted("") && Accepted("5") && Accepted("5.") && Accepted("5.0") && Accepted("12.5")
  {
    assert WeightShape("5", 1);
    assert WeightShape("5.", 1);
    assert WeightShape("5.0", 1);
    assert WeightShape("12.5", 2);
  }

  /** The number of leading digits. */
  function LeadingDigits(v: string): (n: nat)
    ensures n <= |v| && AllDigits(v[..n])
    ensures n < |v| ==> !IsDigit(v[n])
  {
    if v == [] || !IsDigit(v[0]) then 0
    else
      var n := LeadingDigits(v[1..]);
      assert v[..n + 1] == [v[0]] + v[1..][..n];
      1 + n
  }

  /** The pattern fixes where the whole digits end. */
  lemma {:induction false} ShapeWholeDigits(v: string, k: nat)
    requires WeightShape(v, k)
    ensures k == LeadingDigits(v)
  {
    var n := LeadingDigits(v);
    assert forall i :: 0 <= i < k ==> v[..k][i] == v[i];
    assert forall i :: 0 <= i < n ==> v[..n][i] == v[i];
    assert k < |v| ==> v[k] == '.';
  }

  /** The value of an accepted non-empty text in tenths of a kilogram: `parseFloat(v) * 10`. */
  function Tenths(v: string): (t: nat)
    requires Accepted(v) && v != ""
    ensures t <= 999
  {
    var k := LeadingDigits(v);
    ghost var j :| 1 <= j <= 2 && WeightShape(v, j);
    ShapeWholeDigits(v, j);
    var whole := v[..k];
    assert |whole| == 1 ==> DigitsValue(whole) == DigitValue(whole[0]) by {
      if |whole| == 1 { assert whole[..0] == []; }
    }
    assert |whole| == 2 ==> DigitsValue(whole) == 10 * DigitValue(whole[0]) + DigitValue(whole[1]) by {
      if |whole| == 2 { assert whole[..1][..0] == [] && whole[..1][0] == whole[0]; }
    }
    10 * DigitsValue(whole) + (if |v| == k + 2 then DigitValue(v[k + 1]) else 0)
  }

  /** The text `String(t / 10) + "." + (t % 10)` for a weight of `t` tenths. */
  function WeightText(t: nat): string
    requires t <= 999
  {
    NatToString(t / 10) + "." + [DigitChar(t % 10)]
  }

  /** Every weight from 0.0 to 99.9 kg can be entered, and reads back as itself: the accepted
      texts denote exactly the tenths 0 to 999. */
  lemma {:induction false} WeightTextRoundTrip(t: nat)
    requires t <= 999
    ensures Accepted(WeightText(t)) && Tenths(WeightText(t)) == t
  {
    var whole := NatToString(t / 10);
    var v := WeightText(t);
    var k := |whole|;
    assert v[..k] == whole && v[k] == '.' && v[k + 1..] == [DigitChar(t % 10)];
    assert WeightShape(v, k);
    ShapeWholeDigits(v, k);
    NatToStringRoundTrip(t / 10);
  }
}
