/** Store-assigned document identities and their portable text form.

    MongoDB assigns every inserted document an `_id` of type ObjectId; the
    service turns it into text with `str()` before answering and parses text
    back with `ObjectId(...)`, which raises on malformed input. The model
    identifies a document by the serial number the store allocated it, and
    uses the decimal numeral of that serial as its text form. Like the hex
    text `ObjectId(...)` reads in either letter case while `str()` writes
    lower case only, the parser here also reads spellings that `IdString`
    never writes: numerals with leading zeros. */
module Identity {
  import opened Wrappers

  datatype ObjectId = ObjectId(serial: nat)

  predicate IsDigit(c: char) {
    '0' <= c <= '9'
  }

  /** Identity text the parser accepts: digits only, at least one. */
  predicate WellFormed(s: string) {
    && |s| > 0
    && (forall i :: 0 <= i < |s| ==> IsDigit(s[i]))
  }

  /** The spelling `IdString` writes: well formed, with no leading zero. */
  predicate Canonical(s: string) {
    WellFormed(s) && (|s| > 1 ==> s[0] != '0')
  }

  function Digit(d: nat): (c: char)
    requires d < 10
    ensures IsDigit(c)
  {
    ('0' as int + d) as char
  }

  /** Decimal numeral of `n`. */
  function Numeral(n: nat): (s: string)
    ensures Canonical(s)
    ensures s[0] == '0' ==> n == 0
    decreases n
  {
    if n < 10 then [Digit(n)] else Numeral(n / 10) + [Digit(n % 10)]
  }

  function DigitValue(c: char): (d: nat)
    requires IsDigit(c)
    ensures d < 10 && Digit(d) == c
  {
    c as int - '0' as int
  }

  /** Value of a string of decimal digits. */
  function DigitsValue(s: string): nat
    requires forall i :: 0 <= i < |s| ==> IsDigit(s[i])
    decreases |s|
  {
    if s == [] then 0
    else DigitsValue(s[..|s| - 1]) * 10 + DigitValue(s[|s| - 1])
  }

  /** `str(oid)`: the text the service exposes for an identity. */
  function IdString(oid: ObjectId): string {
    Numeral(oid.serial)
  }

  /** `ObjectId(text)`: `None` stands for the InvalidId exception. */
  function ParseObjectId(s: string): (r: Option<ObjectId>)
    ensures r.Some? <==> WellFormed(s)
  {
    if WellFormed(s) then Some(ObjectId(DigitsValue(s))) else None
  }

  lemma {:induction false} ValueOfNumeral(n: nat)
    ensures DigitsValue(Numeral(n)) == n
    decreases n
  {
    if n >= 10 {
      ValueOfNumeral(n / 10);
      var s := Numeral(n);
      assert s[..|s| - 1] == Numeral(n / 10);
    }
  }

  lemma {:induction false} NumeralOfValue(s: string)
    requires Canonical(s)
    ensures Numeral(DigitsValue(s)) == s
    decreases |s|
  {
    if |s| > 1 {
      var prefix := s[..|s| - 1];
      assert prefix[0] == s[0];
      NumeralOfValue(prefix);
      var v := DigitsValue(s);
      assert DigitsValue(prefix) != 0;
      assert v / 10 == DigitsValue(prefix) && v % 10 == DigitValue(s[|s| - 1]);
      assert s == prefix + [s[|s| - 1]];
    }
  }

  /** The text form of an identity parses back to that identity,
      `ObjectId(str(oid)) == oid`, and it is the only canonical spelling that does. */
  lemma IdStringRoundTrip(oid: ObjectId, s: string)
    ensures ParseObjectId(IdString(oid)) == Some(oid)
    ensures ParseObjectId(s) == Some(oid) && Canonical(s) <==> IdString(oid) == s
  {
    ValueOfNumeral(oid.serial);
    if Canonical(s) {
      NumeralOfValue(s);
    }
  }

  /** A leading zero does not change the value of a digit string. */
  lemma {:induction false} ValueOfZeroPadded(s: string)
    requires forall i :: 0 <= i < |s| ==> IsDigit(s[i])
    ensures DigitsValue(['0'] + s) == DigitsValue(s)
    decreases |s|
  {
    if s != [] {
      var padded := ['0'] + s;
      assert padded[..|padded| - 1] == ['0'] + s[..|s| - 1];
      ValueOfZeroPadded(s[..|s| - 1]);
    }
  }

  /** The parser is not injective: a zero-padded spelling, which `IdString`
      never writes, reads as the same identity. */
  lemma ZeroPaddedSpelling(oid: ObjectId)
    ensures ParseObjectId(['0'] + IdString(oid)) == Some(oid)
    ensures ['0'] + IdString(oid) != IdString(oid)
  {
    ValueOfNumeral(oid.serial);
    ValueOfZeroPadded(IdString(oid));
  }
}
