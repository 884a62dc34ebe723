/** Document identifiers. An identifier is the value of the store's counter when the
    document was created; its string form is the canonical decimal rendering of that
    value. Parsing accepts every numeral, leading zeros included, so an identifier has
    many spellings that parse to it but only one that is its string form (as an ObjectId
    parses from upper-case hexadecimal but prints in lower case). */
module ObjectIds {
  import opened Common

  datatype ObjectId = ObjectId(n: nat)

  predicate IsDigit(c: char) {
    '0' <= c <= '9'
  }

  predicate AllDigits(s: string) {
    forall i :: 0 <= i < |s| ==> IsDigit(s[i])
  }

  /** Non-empty and only digits. */
  predicate Numeral(s: string) {
    |s| > 0 && AllDigits(s)
  }

  /** A numeral without a leading zero unless the number is 0. */
  predicate Canonical(s: string) {
    |s| > 0 && AllDigits(s) && (s[0] == '0' ==> |s| == 1)
  }

  function DigitChar(d: nat): (c: char)
    requires d < 10
    ensures IsDigit(c)
  {
    ('0' as int + d) as char
  }

  function DigitValue(c: char): (d: nat)
    requires IsDigit(c)
    ensures d < 10 && DigitChar(d) == c
  {
    c as int - '0' as int
  }

  /** Decimal rendering of a natural number. */
  function Decimal(n: nat): (s: string)
    ensures Canonical(s)
    ensures s[0] == '0' <==> n == 0
    decreases n
  {
    if n < 10 then [DigitChar(n)] else Decimal(n / 10) + [DigitChar(n % 10)]
  }

  /** The number a string of digits denotes. */
  function DecimalValue(s: string): nat
    requires AllDigits(s)
    decreases |s|
  {
    if s == [] then 0 else DecimalValue(s[..|s| - 1]) * 10 + DigitValue(s[|s| - 1])
  }

  /** `str(oid)`. */
  function Render(o: ObjectId): (s: string)
    ensures Canonical(s)
  {
    Decimal(o.n)
  }

  /** `ObjectId(s)`: the identifier a string denotes, or None when the string is malformed. */
  function Parse(s: string): (r: Option<ObjectId>)
    ensures r.Some? <==> Numeral(s)
  {
    if Numeral(s) then Some(ObjectId(DecimalValue(s))) else None
  }

  lemma {:induction false} DecimalValueOfDecimal(n: nat)
    ensures DecimalValue(Decimal(n)) == n
    decreases n
  {
    var s := Decimal(n);
    if n >= 10 {
      DecimalValueOfDecimal(n / 10);
      assert s[..|s| - 1] == Decimal(n / 10);
    }
  }

  lemma {:induction false} DecimalValuePositive(s: string)
    requires |s| > 0 && AllDigits(s) && s[0] != '0'
    ensures DecimalValue(s) > 0
    decreases |s|
  {
    if |s| > 1 {
      DecimalValuePositive(s[..|s| - 1]);
    }
  }

  lemma {:induction false} DecimalOfDecimalValue(s: string)
    requires Canonical(s)
    ensures Decimal(DecimalValue(s)) == s
    decreases |s|
  {
    if |s| > 1 {
      var p := s[..|s| - 1];
      DecimalValuePositive(p);
      DecimalOfDecimalValue(p);
      var v := DecimalValue(s);
      assert v == DecimalValue(p) * 10 + DigitValue(s[|s| - 1]);
      assert v / 10 == DecimalValue(p) && v % 10 == DigitValue(s[|s| - 1]);
      assert s == p + [s[|s| - 1]];
    }
  }

  /** Rendering an identifier and parsing it back gives the identifier. */
  lemma ParseRender(o: ObjectId)
    ensures Parse(Render(o)) == Some(o)
  {
    DecimalValueOfDecimal(o.n);
  }

  /** A string that parses is the string form of what it parses to exactly when it is
      canonical. */
  lemma RenderParse(s: string)
    requires Parse(s).Some?
    ensures Render(Parse(s).value) == s <==> Canonical(s)
  {
    if Canonical(s) {
      DecimalOfDecimalValue(s);
    }
  }

  lemma {:induction false} DecimalValueLeadingZero(s: string)
    requires AllDigits(s)
    ensures AllDigits("0" + s) && DecimalValue("0" + s) == DecimalValue(s)
    decreases |s|
  {
    var z := "0" + s;
    if s == [] {
      assert z[..0] == [];
    } else {
      DecimalValueLeadingZero(s[..|s| - 1]);
      assert z[..|z| - 1] == "0" + s[..|s| - 1];
      assert z[|z| - 1] == s[|s| - 1];
    }
  }

  /** Every identifier has a second spelling that parses to it but is not its string form. */
  lemma SecondSpelling(o: ObjectId)
    ensures Parse("0" + Render(o)) == Some(o)
    ensures "0" + Render(o) != Render(o)
  {
    DecimalValueLeadingZero(Render(o));
    ParseRender(o);
    assert |"0" + Render(o)| == |Render(o)| + 1;
  }

  /** Distinct identifiers have distinct string forms. */
  lemma RenderInjective(a: ObjectId, b: ObjectId)
    requires Render(a) == Render(b)
    ensures a == b
  {
    ParseRender(a);
    ParseRender(b);
  }
}
