/** `formatPhoneNumber` of the advocates table. */
module PhoneFormat {
  import opened JsStrings
  import opened Seqs

  /** `phoneNumber.replace(/\D/g, '')`: the digits of `s`, in their order. */
  function Digits(s: string): (d: string)
    ensures AllDigits(d)
  {
    Filter(s, IsDigit)
  }

  /**
   * Ten digits are rendered `(xxx) xxx-xxxx`; anything else is returned as
   * it was given.
   */
  function FormatPhoneNumber(phoneNumber: string): string {
    var digits := Digits(phoneNumber);
    if |digits| == 10 then
      "(" + digits[..3] + ") " + digits[3..6] + "-" + digits[6..]
    else
      phoneNumber
  }

  /** The digit string keeps exactly the digits of the input, in the input's order. */
  lemma DigitsAreTheInputDigits(s: string)
    ensures AllDigits(Digits(s))
    ensures Subsequence(Digits(s), s)
    ensures forall c :: c in Digits(s) <==> c in s && IsDigit(c)
    ensures forall c :: multiset(Digits(s))[c] == if IsDigit(c) then multiset(s)[c] else 0
  {
    FilterIsSubsequence(s, IsDigit);
    FilterMultiplicity(s, IsDigit);
  }

  /** The digit string of a string of digits is the string itself. */
  lemma DigitsOfDigits(s: string)
    requires AllDigits(s)
    ensures Digits(s) == s
  {
    FilterKeepsAll(s, IsDigit);
  }

  /** Ten digits give the 14-character `(xxx) xxx-xxxx` layout holding them in order. */
  lemma TenDigitsLayout(s: string)
    requires |Digits(s)| == 10
    ensures var r := FormatPhoneNumber(s);
            var d := Digits(s);
            |r| == 14 && r[0] == '(' && r[4] == ')' && r[5] == ' ' && r[9] == '-'
            && r[1..4] == d[..3] && r[6..9] == d[3..6] && r[10..] == d[6..]
  {
  }

  /** Any other number of digits leaves the input unchanged. */
  lemma OtherDigitCountsUnchanged(s: string)
    requires |Digits(s)| != 10
    ensures FormatPhoneNumber(s) == s
  {
  }

  /** The punctuation of the layout holds no digits. */
  lemma DigitsOfLayout(a: string, b: string, c: string)
    requires AllDigits(a) && AllDigits(b) && AllDigits(c)
    ensures Digits("(" + a + ") " + b + "-" + c) == a + b + c
  {
    var p1 := "(" + a;
    assert Digits(p1) == a by { FilterConcat("(", a, IsDigit); DigitsOfDigits(a); }
    var p2 := p1 + ") ";
    assert Digits(p2) == a by { FilterConcat(p1, ") ", IsDigit); }
    var p3 := p2 + b;
    assert Digits(p3) == a + b by { FilterConcat(p2, b, IsDigit); DigitsOfDigits(b); }
    var p4 := p3 + "-";
    assert Digits(p4) == a + b by { FilterConcat(p3, "-", IsDigit); }
    var p5 := p4 + c;
    assert Digits(p5) == a + b + c by { FilterConcat(p4, c, IsDigit); DigitsOfDigits(c); }
  }

  /** Formatting keeps the digits: the output's digit string is the input's. */
  lemma FormatKeepsDigits(s: string)
    ensures Digits(FormatPhoneNumber(s)) == Digits(s)
  {
    var d := Digits(s);
    if |d| == 10 {
      var a, b, c := d[..3], d[3..6], d[6..];
      assert d == a + b + c;
      assert AllDigits(a) && AllDigits(b) && AllDigits(c) by {
        assert forall x :: x in a || x in b || x in c ==> x in d;
      }
      DigitsOfLayout(a, b, c);
    }
  }

  /** Formatting is idempotent: a formatted number formats to itself. */
  lemma FormatIdempotent(s: string)
    ensures FormatPhoneNumber(FormatPhoneNumber(s)) == FormatPhoneNumber(s)
  {
    FormatKeepsDigits(s);
  }

  /** The record in the hook's test, `5551234567`, is shown as `(555) 123-4567`. */
  lemma FormatsTestNumber(s: string, r: string)
    requires s == "5551234567" && r == "(555) 123-4567"
    ensures FormatPhoneNumber(s) == r
  {
    forall c | c in s ensures IsDigit(c) {
      var k :| 0 <= k < |s| && s[k] == c;
    }
    DigitsOfDigits(s);
    TestLayout(s[..3], s[3..6], s[6..], r);
  }

  /** Proof helper for the lemma above: the literal layout of the test number. */
  lemma TestLayout(a: string, b: string, c: string, r: string)
    requires a == "555" && b == "123" && c == "4567" && r == "(555) 123-4567"
    ensures "(" + a + ") " + b + "-" + c == r
  {
  }
}
