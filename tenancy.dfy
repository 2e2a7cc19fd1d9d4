/** The tenancy options of lib/interfaces/tenant-options.interface.ts and the way
    a template literal turns an identifier into text. */
module Tenancy {

  /** `TenantId` and `ActorId` are `string | number`; a field that has not been
      given one holds `null`. Numbers are integers in this model. */
  datatype Id = Str(s: string) | Num(n: int) | Null

  datatype TenancyModelOptions = TenancyModelOptions(tenantId: Id, actorId: Id)

  predicate IsDigit(c: char) {
    '0' <= c <= '9'
  }

  predicate AllDigits(s: string) {
    forall i :: 0 <= i < |s| ==> IsDigit(s[i])
  }

  function DigitChar(d: nat): (c: char)
    requires d < 10
    ensures IsDigit(c) && c as int - '0' as int == d
  {
    ('0' as int + d) as char
  }

  /** The number a string of decimal digits denotes. */
  function DecimalValue(s: string): nat
    requires AllDigits(s)
  {
    if s == [] then 0 else DecimalValue(s[..|s| - 1]) * 10 + (s[|s| - 1] as int - '0' as int)
  }

  /** Decimal digits of a natural number, most significant first, no leading zero. */
  function NatToDecimal(n: nat): string
  {
    if n < 10 then [DigitChar(n)] else NatToDecimal(n / 10) + [DigitChar(n % 10)]
  }

  /** `${id}` inside a template literal: a string as it is, an integer in
      decimal with a leading '-' when negative, null as "null". Nothing is
      quoted or escaped. */
  function Render(id: Id): (r: string)
    ensures id.Str? ==> r == id.s
    ensures id.Null? ==> r == "null"
    ensures id.Num? ==> 0 < |r| && (r[0] == '-' <==> id.n < 0) && '\'' !in r
  {
    match id
    case Str(s) => s
    case Num(n) =>
      var m := if n < 0 then -n else n;
      NatToDecimalIsDecimal(m);
      if n < 0 then "-" + NatToDecimal(m) else NatToDecimal(m)
    case Null => "null"
  }

  /** An identifier whose text can sit between single quotes of an SQL string
      literal without ending it. */
  predicate LiteralSafe(id: Id) {
    '\'' !in Render(id)
  }

  predicate OptionsLiteralSafe(o: TenancyModelOptions) {
    LiteralSafe(o.tenantId) && LiteralSafe(o.actorId)
  }

  lemma {:induction false} NatToDecimalIsDecimal(n: nat)
    ensures |NatToDecimal(n)| > 0 && AllDigits(NatToDecimal(n))
    ensures DecimalValue(NatToDecimal(n)) == n
    ensures NatToDecimal(n)[0] == '0' ==> n == 0
  {
    if n >= 10 {
      NatToDecimalIsDecimal(n / 10);
      var t := NatToDecimal(n / 10) + [DigitChar(n % 10)];
      assert t[..|t| - 1] == NatToDecimal(n / 10);
    }
  }

  /** An integer renders as an optional '-' followed by a non-empty decimal
      numeral of its magnitude, with no leading zero unless the number is 0. */
  lemma RenderNumIsDecimal(n: int)
    ensures var t := Render(Num(n));
            var k := if n < 0 then 1 else 0;
            && |t| > k
            && (n < 0 <==> t[0] == '-')
            && AllDigits(t[k..])
            && DecimalValue(t[k..]) == (if n < 0 then -n else n)
            && (t[k] == '0' ==> n == 0)
  {
    var m := if n < 0 then -n else n;
    NatToDecimalIsDecimal(m);
    if n < 0 {
      assert Render(Num(n))[1..] == NatToDecimal(m);
    }
  }

  /** Distinct integers render differently. */
  lemma RenderNumInjective(m: int, n: int)
    requires Render(Num(m)) == Render(Num(n))
    ensures m == n
  {
    RenderNumIsDecimal(m);
    RenderNumIsDecimal(n);
  }

  lemma {:induction false} NatToDecimalNoQuote(n: nat)
    ensures '\'' !in NatToDecimal(n)
  {
    NatToDecimalIsDecimal(n);
  }

  /** Only a string identifier can carry a quote into the statement text. */
  lemma NonStringIsLiteralSafe(id: Id)
    requires !id.Str?
    ensures LiteralSafe(id)
  {
    if id.Num? {
      var m := if id.n < 0 then -id.n else id.n;
      NatToDecimalNoQuote(m);
      if id.n < 0 {
        assert Render(id) == "-" + NatToDecimal(m);
      }
    }
  }

  /** Interpolation forgets the type: the string "1" and the number 1 give the
      same text, and so does the string "null" and null. */
  lemma RenderConflatesTypes()
    ensures Render(Str("1")) == Render(Num(1))
    ensures Render(Str("null")) == Render(Null)
  {
    assert NatToDecimal(1) == "1";
  }
}
