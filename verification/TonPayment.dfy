/** TON invoices, the rate they are computed with, and the scan that finds the transfer. */
module TonPayment {
  import opened Domain
  import opened Ledger
  import opened OrderFlow
  import opened Pricing
  import opened Strings

  const NANO := 1_000_000_000

  // ---------------------------------------------------------------- quotes

  datatype Limits = Limits(minStars: int, maxStars: int, maxNanotons: int)

  /** What the confirmed order stores of its price. */
  datatype Quote = Quote(stars: int, unitPrice: real, currency: string, markupPercent: real, expiresAt: int)

  /** The price in the currency of the quote, markup included. */
  function QuotedTotal(quote: Quote): real {
    quote.unitPrice * quote.stars as real * (1.0 + quote.markupPercent / 100.0)
  }

  /** The TON that has to arrive, before any rounding. */
  function QuotedTon(quote: Quote, rate: real): real
    requires rate > 0.0
  {
    if UpperText(quote.currency) == "TON" then QuotedTotal(quote) else QuotedTotal(quote) / rate
  }

  predicate Convertible(currency: string) {
    UpperText(currency) in {"TON", "USD", "USDT"}
  }

  /** The invoice in nanotons for a quote that was already confirmed. */
  function TonPaymentFromQuote(limits: Limits, quote: Quote, now: int, rate: real): Result<int>
    requires rate > 0.0
  {
    if quote.stars < limits.minStars || quote.stars > limits.maxStars then Raise(Rejected)
    else if quote.expiresAt <= now then Raise(Rejected)
    else if !Convertible(quote.currency) then Raise(Rejected)
    else
      var amount := Ceiling(QuotedTon(quote, rate) * NANO as real);
      if amount <= 0 || amount > limits.maxNanotons then Raise(Rejected) else Ok(amount)
  }

  lemma ScalingKeepsOrder(a: real, b: real)
    ensures a * NANO as real >= b * NANO as real <==> a >= b
  {
  }

  /** The price of the quote: so many Stars at the unit price, and the markup on top. */
  ghost predicate Covers(quote: Quote, rate: real, nanotons: int)
    requires rate > 0.0
  {
    var paid := nanotons as real / 1_000_000_000.0;
    (if UpperText(quote.currency) == "TON" then paid else paid * rate)
    >= quote.unitPrice * quote.stars as real + quote.unitPrice * quote.stars as real * quote.markupPercent / 100.0
  }

  lemma CoversIsEnough(quote: Quote, rate: real, n: int)
    requires rate > 0.0
    ensures Covers(quote, rate, n) <==> n as real / NANO as real >= QuotedTon(quote, rate)
  {
    var base, paid := quote.unitPrice * quote.stars as real, n as real / NANO as real;
    MarkupOnTop(base, quote.markupPercent);
    QuotientOrder(paid, QuotedTotal(quote), rate);
  }

  lemma MarkupOnTop(base: real, percent: real)
    ensures base * (1.0 + percent / 100.0) == base + base * percent / 100.0
  {
  }

  lemma QuotientOrder(paid: real, total: real, rate: real)
    requires rate > 0.0
    ensures paid >= total / rate <==> paid * rate >= total
  {
    assert total / rate * rate == total;
  }

  /**
   An invoice is the least whole number of nanotons that covers the price of the quote, at the rate unless the quote is
   in TON. A quote is refused exactly if it is out of range, expired, in another currency, for free, or too expensive.
   */
  lemma InvoiceIsLeast(limits: Limits, quote: Quote, now: int, rate: real, n: int)
    requires rate > 0.0
    ensures
      var res := TonPaymentFromQuote(limits, quote, now, rate);
      && (res.Ok? <==>
            && limits.minStars <= quote.stars <= limits.maxStars && now < quote.expiresAt
            && UpperText(quote.currency) in {"TON", "USD", "USDT"}
            && !Covers(quote, rate, 0) && Covers(quote, rate, limits.maxNanotons))
      && (res.Ok? ==> (n >= res.value <==> Covers(quote, rate, n)))
  {
    InvoiceCovers(quote, rate, n);
    InvoiceCovers(quote, rate, 0);
    InvoiceCovers(quote, rate, limits.maxNanotons);
    hide Covers, QuotedTon, UpperText, Ceiling;
  }

  lemma InvoiceCovers(quote: Quote, rate: real, n: int)
    requires rate > 0.0
    ensures n >= Ceiling(QuotedTon(quote, rate) * NANO as real) <==> Covers(quote, rate, n)
  {
    var exact := QuotedTon(quote, rate);
    CoversIsEnough(quote, rate, n);
    CeilingIsLeast(exact * NANO as real, n);
    ScalingKeepsOrder(n as real / NANO as real, exact);
    assert n as real / NANO as real * NANO as real == n as real;
    hide *;
  }

  // ---------------------------------------------------------------- the Toncenter scan

  /** One entry of the wallet's history; missing members are `None`. */
  datatype Transfer = Transfer(
    utime: Option<int>,
    message: Option<string>,
    value: Option<int>,
    transactionHash: Option<string>,
    hash: Option<string>)

  /** `str(message or "").strip()` for ASCII text. */
  function Message(tx: Transfer): string {
    if tx.message.None? then "" else Strip(tx.message.value)
  }

  function Timestamp(tx: Transfer): int {
    if tx.utime.Some? then tx.utime.value else 0
  }

  /** `(transaction_id or {}).get("hash") or tx.get("hash")` */
  function HashOf(tx: Transfer): string {
    if Truthy(tx.transactionHash) then tx.transactionHash.value
    else if tx.hash.Some? then tx.hash.value
    else ""
  }

  predicate Matches(tx: Transfer, comment: string, since: int) {
    Timestamp(tx) >= since && Message(tx) == comment
  }

  /** The observation a matching transfer gives, or the exception for one that misses its amount or hash. */
  function Report(wallet: string, tx: Transfer): Result<Option<Observation>> {
    if tx.value.None? || HashOf(tx) == "" then Raise(Rejected)
    else Ok(Some(Sighting(HashOf(tx), tx.value.value, Timestamp(tx), wallet, "TON", "TON")))
  }

  /**
   What a rate source answers: nothing usable, a price, or a text that decimal conversion rejects. The last raises an
   arithmetic error that the loop over the sources does not catch.
   */
  datatype RateQuote = Silent | Malformed | Price(rate: real)

  predicate Decides(quote: RateQuote) {
    quote.Malformed? || (quote.Price? && 0.1 < quote.rate < 100.0)
  }

  /** The rate cache and the wallet. */
  class TonPaymentService {
    const wallet: string
    var cachedRate: Option<real>
    var cachedAt: int

    ghost predicate Valid()
      reads this
    {
      cachedRate.Some? ==> 0.1 < cachedRate.value < 100.0
    }

    constructor (wallet: string)
      ensures Valid() && cachedRate.None? && this.wallet == wallet
    {
      this.wallet := wallet;
      cachedRate := None;
      cachedAt := 0;
    }

    /**
     A rate less than five minutes old is used again. Otherwise the first source that answers with a plausible rate
     decides, unless one before it answers with something that is no number, which ends the search.
     */
    method GetTonUsdRate(now: int, quotes: seq<RateQuote>) returns (rate: Result<real>)
      requires Valid()
      modifies this
      ensures Valid()
      ensures rate.Ok? ==> 0.1 < rate.value < 100.0 && cachedRate == Some(rate.value)
      ensures old(cachedRate).Some? && now - old(cachedAt) < 300 ==>
                rate == Ok(old(cachedRate).value) && cachedAt == old(cachedAt)
      ensures !(old(cachedRate).Some? && now - old(cachedAt) < 300) ==>
                if exists i :: 0 <= i < |quotes| && Decides(quotes[i]) then
                  exists i ::
                    && 0 <= i < |quotes| && Decides(quotes[i]) && (forall j :: 0 <= j < i ==> !Decides(quotes[j]))
                    && (if quotes[i].Price? then rate == Ok(quotes[i].rate) && cachedAt == now
                        else rate.Raise? && cachedRate == old(cachedRate) && cachedAt == old(cachedAt))
                else rate.Raise? && cachedRate == old(cachedRate) && cachedAt == old(cachedAt)
    {
      if cachedRate.Some? && now - cachedAt < 300 {
        return Ok(cachedRate.value);
      }
      for i := 0 to |quotes|
        invariant forall j :: 0 <= j < i ==> !Decides(quotes[j])
        invariant cachedRate == old(cachedRate) && cachedAt == old(cachedAt)
      {
        match quotes[i] {
          case Silent =>
          case Malformed => return Raise(Rejected);
          case Price(value) =>
            if 0.1 < value < 100.0 {
              cachedRate := Some(value);
              cachedAt := now;
              return Ok(value);
            }
        }
      }
      return Raise(Rejected);
    }

    /** The first transfer, in Toncenter's order, that is late enough and carries the comment. */
    method FindIncomingPayment(history: seq<Transfer>, comment: string, since: int)
      returns (found: Result<Option<Observation>>)
      ensures wallet == "" ==> found.Raise?
      ensures wallet != "" ==>
                if exists i :: 0 <= i < |history| && Matches(history[i], comment, since) then
                  exists i ::
                    && 0 <= i < |history| && Matches(history[i], comment, since) && found == Report(wallet, history[i])
                    && forall j :: 0 <= j < i ==> !Matches(history[j], comment, since)
                else found == Ok(None)
    {
      if wallet == "" {
        return Raise(Rejected);
      }
      for i := 0 to |history|
        invariant forall j :: 0 <= j < i ==> !Matches(history[j], comment, since)
      {
        var tx := history[i];
        if Timestamp(tx) < since { continue; }
        if Message(tx) != comment { continue; }
        return Report(wallet, tx);
      }
      return Ok(None);
    }
  }

  /** A reported transfer keeps its amount, time and hash, and names the scanned wallet and its network. */
  lemma ReportTellsTransfer(wallet: string, tx: Transfer)
    ensures Report(wallet, tx).Ok? <==> tx.value.Some? && (Truthy(tx.transactionHash) || Truthy(tx.hash))
    ensures
      Report(wallet, tx).Ok? ==>
        && Report(wallet, tx).value.Some?
        && var seen := Report(wallet, tx).value.value;
        && seen.amount == tx.value.value && Some(seen.hash) == (if Truthy(tx.transactionHash) then tx.transactionHash else tx.hash)
        && seen.timestamp == (if tx.utime.Some? then tx.utime.value else 0)
        && seen.destination == wallet && seen.currency == "TON" && seen.network == "TON"
  {
  }

  /** Whatever the scan reports for an order that pays into the scanned wallet is on the order's route. */
  lemma ReportsAreOnRoute(order: Order, wallet: string, tx: Transfer)
    requires order.invoice.Some? && order.invoice.value.destination == wallet
    requires Report(wallet, tx).Ok?
    ensures Report(wallet, tx).value.Some? && OnRoute(order, Report(wallet, tx).value.value)
  {
    assert NamesTon("TON");
  }
}
