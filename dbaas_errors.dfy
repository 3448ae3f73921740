/** The error record of model/dbaas_errors.go, the decimal rendering of its
    status code (Go's %d verb), and the error values the client hands out. */
module DbaasErrors {

  /** Go's %d on an int: a minus sign for negative numbers, then the digits
      without leading zeros. */
  function Decimal(n: int): (s: string)
    ensures |s| >= 1
    ensures forall i :: 0 <= i < |s| ==> s[i] == '-' || IsDigit(s[i])
    ensures forall i :: 1 <= i < |s| ==> IsDigit(s[i])
    ensures (s[0] == '-') <==> n < 0
    ensures s[0] == '-' ==> |s| >= 2 && s[1] != '0'
    ensures (s[0] == '0') <==> n == 0
    ensures s[0] == '0' ==> s == "0"
  {
    if n < 0 then "-" + NatDecimal(-n) else NatDecimal(n)
  }

  predicate IsDigit(c: char) {
    '0' <= c <= '9'
  }

  function NatDecimal(n: nat): (s: string)
    ensures |s| >= 1
    ensures forall i :: 0 <= i < |s| ==> IsDigit(s[i])
    ensures (s[0] == '0') <==> n == 0
    ensures n < 10 <==> |s| == 1
  {
    if n < 10 then [DigitChar(n)] else NatDecimal(n / 10) + [DigitChar(n % 10)]
  }

  function DigitChar(d: nat): (c: char)
    requires d < 10
    ensures IsDigit(c) && DigitValue(c) == d
  {
    (d + '0' as int) as char
  }

  function DigitValue(c: char): nat
    requires IsDigit(c)
  {
    c as int - '0' as int
  }

  /** Reads back what NatDecimal writes: the digit string's value. */
  function ParseNat(s: string): nat
    requires forall i :: 0 <= i < |s| ==> IsDigit(s[i])
  {
    if |s| == 0 then 0 else ParseNat(s[..|s| - 1]) * 10 + DigitValue(s[|s| - 1])
  }

  /** Reads back what Decimal writes. */
  function ParseDecimal(s: string): int
    requires |s| >= 1
    requires forall i :: 0 <= i < |s| ==> s[i] == '-' || IsDigit(s[i])
    requires forall i :: 1 <= i < |s| ==> IsDigit(s[i])
  {
    if s[0] == '-' then -(ParseNat(s[1..]) as int) else ParseNat(s)
  }

  lemma {:induction false} NatDecimalRoundTrip(n: nat)
    ensures ParseNat(NatDecimal(n)) == n
  {
    if n >= 10 {
      NatDecimalRoundTrip(n / 10);
      var s := NatDecimal(n);
      assert s[..|s| - 1] == NatDecimal(n / 10);
    }
  }

  /** ParseDecimal inverts Decimal, so Decimal never renders two codes alike. */
  lemma DecimalRoundTrip(n: int)
    ensures var s := Decimal(n);
      (forall i :: 1 <= i < |s| ==> IsDigit(s[i])) && ParseDecimal(s) == n
  {
    if n < 0 {
      NatDecimalRoundTrip(-n);
      assert Decimal(n)[1..] == NatDecimal(-n);
    } else {
      NatDecimalRoundTrip(n);
    }
  }

  /** DbaaSCreateDbError (model/dbaas_errors.go:5-9). `cause` is the text of
      the wrapped `Errors` value ("" where the source leaves it nil). */
  datatype DbaaSCreateDbError = DbaaSCreateDbError(httpCode: int, message: string, cause: string)

  const CodePrefix := "Response code: "
  const MessageSeparator := ", Message: "

  /** DbaaSCreateDbError.Error(): the code in decimal and the message; the
      wrapped cause is not part of the text. */
  function ErrorText(e: DbaaSCreateDbError): (text: string)
    ensures |text| > |CodePrefix| + |e.message| && text[..|CodePrefix|] == CodePrefix
    ensures text[|text| - |e.message|..] == e.message
  {
    CodePrefix + (Decimal(e.httpCode) + (MessageSeparator + e.message))
  }

  /** A code of zero renders as "0". */
  lemma ZeroCodeText(e: DbaaSCreateDbError)
    requires e.httpCode == 0
    ensures ErrorText(e) == "Response code: 0, Message: " + e.message
  {
    assert DigitChar(0) == '0';
    assert Decimal(0) == "0";
    assert CodePrefix + ("0" + (MessageSeparator + e.message)) == (CodePrefix + "0" + MessageSeparator) + e.message;
    assert CodePrefix + "0" + MessageSeparator == "Response code: 0, Message: ";
  }

  /** Two errors render alike exactly when their codes and messages agree:
      the text determines both fields and never depends on the cause. */
  lemma ErrorTextInjective(a: DbaaSCreateDbError, b: DbaaSCreateDbError)
    ensures ErrorText(a) == ErrorText(b) <==> a.httpCode == b.httpCode && a.message == b.message
  {
    if ErrorText(a) == ErrorText(b) {
      var ra, rb := MessageSeparator + a.message, MessageSeparator + b.message;
      AfterCodePrefix(a, b);
      SeparatorLocatesCode(Decimal(a.httpCode), Decimal(b.httpCode), ra, rb);
      DecimalRoundTrip(a.httpCode);
      DecimalRoundTrip(b.httpCode);
      assert a.message == ra[|MessageSeparator|..] == rb[|MessageSeparator|..] == b.message;
    }
  }

  /** Equal texts agree after the fixed prefix. */
  lemma AfterCodePrefix(a: DbaaSCreateDbError, b: DbaaSCreateDbError)
    requires ErrorText(a) == ErrorText(b)
    ensures Decimal(a.httpCode) + (MessageSeparator + a.message) == Decimal(b.httpCode) + (MessageSeparator + b.message)
  {
    DropCommonPrefix(CodePrefix, Decimal(a.httpCode) + (MessageSeparator + a.message),
                     Decimal(b.httpCode) + (MessageSeparator + b.message));
  }

  lemma DropCommonPrefix(p: string, x: string, y: string)
    requires p + x == p + y
    ensures x == y
  {
    assert x == (p + x)[|p|..];
    assert y == (p + y)[|p|..];
  }

  /** A code field holds no ',', so the first ',' after it marks where it ends. */
  lemma SeparatorLocatesCode(da: string, db: string, ra: string, rb: string)
    requires forall i :: 0 <= i < |da| ==> da[i] == '-' || IsDigit(da[i])
    requires forall i :: 0 <= i < |db| ==> db[i] == '-' || IsDigit(db[i])
    requires |ra| > 0 && ra[0] == ',' && |rb| > 0 && rb[0] == ','
    requires da + ra == db + rb
    ensures da == db && ra == rb
  {
    assert da == (da + ra)[..|da|] == (db + rb)[..|db|] == db;
  }

  /** The error values the client returns. `Plain` stands for the values of
      errors.New and fmt.Errorf (their Error() text), `CreateDb` for a
      DbaaSCreateDbError, and `Panic` for a Go panic, which the model turns
      into a returned value. */
  datatype Error =
    | Plain(text: string)
    | CreateDb(record: DbaaSCreateDbError)
    | Panic(reason: string)
  {
    /** What err.Error() returns (for Panic, the panic's message). */
    function Text(): string {
      match this
      case Plain(text) => text
      case CreateDb(record) => ErrorText(record)
      case Panic(reason) => reason
    }
  }
}
