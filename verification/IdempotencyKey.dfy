/** The idempotency key of an order request, and the decoder that shows it loses nothing. */
module IdempotencyKey {
  import opened Domain

  datatype Scope = Scope(buyer: nat, kind: OrderKind, recipient: nat, stars: nat, text: string)

  function KindName(kind: OrderKind): string {
    if kind.SelfOrder? then "self" else "gift"
  }

  function Digit(d: nat): char
    requires d < 10
  {
    '0' + d as char
  }

  /** A Telegram identifier or an amount, printed in decimal. */
  function Decimal(n: nat): string {
    if n < 10 then [Digit(n)] else Decimal(n / 10) + [Digit(n % 10)]
  }

  /** `f"{buyer}:{kind}:{recipient}:{stars}:{scope}"` */
  function Key(s: Scope): string {
    Decimal(s.buyer) + ":" + (KindName(s.kind) + ":" + (Decimal(s.recipient) + ":" + (Decimal(s.stars) + ":" + s.text)))
  }

  // ---------------------------------------------------------------- decoder

  predicate IsDigit(c: char) {
    '0' <= c <= '9'
  }

  function Number(text: string): nat
    requires forall c :: c in text ==> IsDigit(c)
  {
    if text == "" then 0
    else
      var last := text[|text| - 1];
      assert IsDigit(last);
      Number(text[..|text| - 1]) * 10 + (last as int - '0' as int)
  }

  /** The part before the first colon, and what follows it. */
  function Split(text: string): Option<(string, string)> {
    if text == "" then None
    else if text[0] == ':' then Some(("", text[1..]))
    else
      var rest := Split(text[1..]);
      if rest.None? then None else Some(([text[0]] + rest.value.0, rest.value.1))
  }

  function KindOf(name: string): Option<OrderKind> {
    if name == "self" then Some(SelfOrder) else if name == "gift" then Some(GiftOrder) else None
  }

  predicate IsNumber(text: string) {
    text != "" && forall c :: c in text ==> IsDigit(c)
  }

  /** Splits at the first four colons; the rest is the scope, colons and all. */
  function Decode(key: string): Option<Scope> {
    var first := Split(key);
    if first.None? || !IsNumber(first.value.0) then None
    else
      var second := Split(first.value.1);
      if second.None? || KindOf(second.value.0).None? then None
      else
        var third := Split(second.value.1);
        if third.None? || !IsNumber(third.value.0) then None
        else
          var fourth := Split(third.value.1);
          if fourth.None? || !IsNumber(fourth.value.0) then None
          else
            Some(Scope(Number(first.value.0), KindOf(second.value.0).value, Number(third.value.0),
                       Number(fourth.value.0), fourth.value.1))
  }

  lemma {:induction false} DecimalReads(n: nat)
    ensures IsNumber(Decimal(n)) && Number(Decimal(n)) == n
  {
    if n < 10 {
      assert Decimal(n)[..0] == "";
    } else {
      DecimalReads(n / 10);
      var text := Decimal(n);
      assert text[..|text| - 1] == Decimal(n / 10);
    }
  }

  lemma {:induction false} SplitFinds(part: string, rest: string)
    requires ':' !in part
    ensures Split(part + ":" + rest) == Some((part, rest))
  {
    if part == "" {
      assert (part + ":" + rest)[1..] == rest;
    } else {
      SplitFinds(part[1..], rest);
      assert (part + ":" + rest)[0] == part[0] && [part[0]] + part[1..] == part;
      assert (part + ":" + rest)[1..] == part[1..] + ":" + rest;
    }
  }

  lemma NumberSplits(n: nat, rest: string)
    ensures Split(Decimal(n) + ":" + rest) == Some((Decimal(n), rest))
    ensures IsNumber(Decimal(n)) && Number(Decimal(n)) == n
  {
    DecimalReads(n);
    SplitFinds(Decimal(n), rest);
  }

  lemma KindSplits(kind: OrderKind, rest: string)
    ensures Split(KindName(kind) + ":" + rest) == Some((KindName(kind), rest))
    ensures KindOf(KindName(kind)) == Some(kind)
  {
    SplitFinds(KindName(kind), rest);
  }

  /** The decoder inverts the printer, also when the request identifier itself contains colons. */
  lemma DecodeKey(s: Scope)
    ensures Decode(Key(s)) == Some(s)
  {
    hide Split, Decimal, Number, IsNumber, KindName, KindOf;
    var fourth := Decimal(s.stars) + ":" + s.text;
    var third := Decimal(s.recipient) + ":" + fourth;
    NumberSplits(s.buyer, KindName(s.kind) + ":" + third);
    KindSplits(s.kind, third);
    NumberSplits(s.recipient, fourth);
    NumberSplits(s.stars, s.text);
  }

  lemma KeyIsInjective(a: Scope, b: Scope)
    ensures Key(a) == Key(b) <==> a == b
  {
    DecodeKey(a);
    DecodeKey(b);
    hide Key, Decode;
  }
}
