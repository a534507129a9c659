/** Creating orders: one order per request, and the limits every user stays within. */
module OrderCreation {
  import opened Domain
  import opened IdempotencyKey

  const DAY := 86_400

  /** Statuses that `count_open_orders` counts. */
  predicate IsOpen(status: OrderStatus) {
    || status.Created? || status.WaitingForPayment? || status.PaymentDetected? || status.PaymentConfirming?
    || status.Paid? || status.PurchaseProcessing? || status.StarsSending? || status.ManualReview?
    || status.RefundRequired? || status.WaitingForMerchantBalance?
  }

  /** Statuses that `daily_stars` leaves out. */
  predicate IsIgnored(status: OrderStatus) {
    status.Cancelled? || status.PaymentExpired? || status.PaymentFailed?
  }

  /** An order row; the last two members are history that the shop does not store. */
  datatype Row = Row(
    key: string,
    buyer: int,
    stars: int,
    createdAt: int,
    status: OrderStatus,
    everIgnored: bool,
    everClosed: bool)

  datatype Limits = Limits(
    minStars: int,
    maxStars: int,
    maxRubAmount: int,
    maxOpenOrders: int,
    dailyStars: int,
    testMode: bool)

  datatype Request = Request(
    buyer: int,
    kind: OrderKind,
    recipient: Option<int>,
    stars: int,
    requestId: Option<string>,
    rubAmount: int,
    quoteExpiresAt: Option<int>)

  /**
   What the transaction meets: the time it started, which becomes `created_at`, and the time it looks at the
   clock; whether its first read missed a row with the same key; whether its random number is taken.
   */
  datatype Scene = Scene(
    started: int,
    now: int,
    maintenance: bool,
    blocked: bool,
    missed: bool,
    numberTaken: bool)

  predicate Acceptable(limits: Limits, req: Request, now: int) {
    && req.buyer > 0
    && req.recipient.Some? && req.recipient.value > 0
    && (req.kind.SelfOrder? ==> req.recipient.value == req.buyer)
    && limits.minStars <= req.stars <= limits.maxStars
    && (req.quoteExpiresAt.Some? ==> req.quoteExpiresAt.value > now)
    && 0 < req.rubAmount <= limits.maxRubAmount
  }

  /** What identifies a request; `0 < minStars` makes every number printable. */
  function ScopeOf(req: Request): Scope
    requires req.buyer > 0 && req.recipient.Some? && req.recipient.value > 0 && req.stars > 0
  {
    Scope(req.buyer, req.kind, req.recipient.value, req.stars,
          if Truthy(req.requestId) then req.requestId.value else "default")
  }

  // ---------------------------------------------------------------- aggregate queries

  function Sum(rows: seq<Row>, weight: Row -> int): int {
    if rows == [] then 0 else Sum(rows[..|rows| - 1], weight) + weight(rows[|rows| - 1])
  }

  function CountOpen(rows: seq<Row>, buyer: int): int {
    Sum(rows, (r: Row) => if r.buyer == buyer && IsOpen(r.status) then 1 else 0)
  }

  function DailyStars(rows: seq<Row>, buyer: int, since: int): int {
    Sum(rows, (r: Row) => if r.buyer == buyer && r.createdAt >= since && !IsIgnored(r.status) then r.stars else 0)
  }

  /** The Stars a user was really granted in a closed window. */
  ghost function GrantedStars(rows: seq<Row>, buyer: int, start: int, end: int): int {
    Sum(rows, Granted(buyer, start, end))
  }

  ghost function Granted(buyer: int, start: int, end: int): Row -> int {
    (r: Row) => if r.buyer == buyer && start <= r.createdAt <= end && !r.everIgnored then r.stars else 0
  }

  /** A user's orders that were open ever since they were created. */
  ghost function AlwaysOpen(rows: seq<Row>, buyer: int): int {
    Sum(rows, Unclosed(buyer))
  }

  ghost function Unclosed(buyer: int): Row -> int {
    (r: Row) => if r.buyer == buyer && !r.everClosed then 1 else 0
  }

  lemma {:induction false} SumGrows(rows: seq<Row>, f: Row -> int, g: Row -> int)
    requires forall r :: r in rows ==> f(r) <= g(r)
    ensures Sum(rows, f) <= Sum(rows, g)
  {
    if rows != [] {
      SumGrows(rows[..|rows| - 1], f, g);
    }
  }

  lemma {:induction false} SumAfterUpdate(rows: seq<Row>, i: nat, row: Row, f: Row -> int)
    requires i < |rows| && f(row) <= f(rows[i])
    ensures Sum(rows[i := row], f) <= Sum(rows, f)
  {
    var last := |rows| - 1;
    if i < last {
      SumAfterUpdate(rows[..last], i, row, f);
      assert rows[i := row][..last] == rows[..last][i := row];
    } else {
      assert rows[i := row][..last] == rows[..last];
    }
  }

  // ---------------------------------------------------------------- the operation

  predicate HasKey(rows: seq<Row>, key: string) {
    exists i :: 0 <= i < |rows| && rows[i].key == key
  }

  function Find(rows: seq<Row>, key: string): (id: nat)
    requires HasKey(rows, key)
    ensures id < |rows| && rows[id].key == key
  {
    if rows[|rows| - 1].key == key then |rows| - 1 else Find(rows[..|rows| - 1], key)
  }

  function NewRow(limits: Limits, key: string, req: Request, started: int): Row {
    Row(key, req.buyer, req.stars, started, if limits.testMode then WaitingForPayment else Created, false, false)
  }

  /** The table after the transaction and the order it answers with; an exception changes nothing. */
  function CreateOrder(limits: Limits, rows: seq<Row>, req: Request, scene: Scene): Result<(seq<Row>, nat)>
    requires 0 < limits.minStars
  {
    if !Acceptable(limits, req, scene.now) then Raise(Rejected)
    else
      var key := Key(ScopeOf(req));
      if HasKey(rows, key) && !scene.missed then Ok((rows, Find(rows, key)))
      else if scene.maintenance || scene.blocked then Raise(Rejected)
      else if CountOpen(rows, req.buyer) >= limits.maxOpenOrders then Raise(Rejected)
      else if DailyStars(rows, req.buyer, scene.now - DAY) + req.stars > limits.dailyStars then Raise(Rejected)
      else if HasKey(rows, key) then Ok((rows, Find(rows, key)))
      else if scene.numberTaken then Raise(IntegrityError)
      else Ok((rows + [NewRow(limits, key, req, scene.started)], |rows|))
  }

  /** The table of orders, appended to by the one transaction that creates them. */
  class OrderTable {
    var rows: seq<Row>

    constructor ()
      ensures rows == []
    {
      rows := [];
    }

    /** The insert runs in a savepoint: a violated key undoes it, and the winner's row answers instead. */
    method Insert(row: Row, numberTaken: bool) returns (id: Result<nat>)
      modifies this
      ensures
        if HasKey(old(rows), row.key) then rows == old(rows) && id == Ok(Find(rows, row.key))
        else if numberTaken then id == Raise(IntegrityError) && rows == old(rows)
        else id == Ok(|old(rows)|) && rows == old(rows) + [row]
    {
      if HasKey(rows, row.key) {
        return Ok(Find(rows, row.key));
      }
      if numberTaken {
        return Raise(IntegrityError);
      }
      rows := rows + [row];
      return Ok(|rows| - 1);
    }

    method Create(limits: Limits, req: Request, scene: Scene) returns (id: Result<nat>)
      requires 0 < limits.minStars
      modifies this
      ensures
        var spec := CreateOrder(limits, old(rows), req, scene);
        if spec.Ok? then id == Ok(spec.value.1) && rows == spec.value.0 else id == Raise(spec.error) && rows == old(rows)
    {
      if !Acceptable(limits, req, scene.now) {
        return Raise(Rejected);
      }
      var key := Key(ScopeOf(req));
      if HasKey(rows, key) && !scene.missed {
        return Ok(Find(rows, key));
      }
      if scene.maintenance || scene.blocked {
        return Raise(Rejected);
      }
      if CountOpen(rows, req.buyer) >= limits.maxOpenOrders {
        return Raise(Rejected);
      }
      if DailyStars(rows, req.buyer, scene.now - DAY) + req.stars > limits.dailyStars {
        return Raise(Rejected);
      }
      id := Insert(NewRow(limits, key, req, scene.started), scene.numberTaken);
    }
  }

  // ---------------------------------------------------------------- what creating answers

  const OpenStatuses: set<OrderStatus> := {
    Created, WaitingForPayment, PaymentDetected, PaymentConfirming, Paid, PurchaseProcessing, StarsSending, ManualReview,
    RefundRequired, WaitingForMerchantBalance
  }

  lemma OpenIsListed(status: OrderStatus)
    ensures IsOpen(status) <==> status in OpenStatuses
  {
  }

  lemma OpenCountJoins(rows: seq<Row>, row: Row, buyer: int)
    ensures CountOpen([], buyer) == 0
    ensures CountOpen(rows + [row], buyer) == CountOpen(rows, buyer) + if row.buyer == buyer && IsOpen(row.status) then 1 else 0
  {
    SumOfNew(rows, row, (r: Row) => if r.buyer == buyer && IsOpen(r.status) then 1 else 0);
    hide IsOpen;
  }

  lemma OpenCountGrows(rows: seq<Row>, row: Row, buyer: int)
    ensures CountOpen([], buyer) == 0
    ensures CountOpen(rows + [row], buyer)
            == CountOpen(rows, buyer) + if row.buyer == buyer && row.status in OpenStatuses then 1 else 0
  {
    OpenCountJoins(rows, row, buyer);
    OpenIsListed(row.status);
    hide CountOpen, IsOpen;
  }

  /** How many orders of the buyer are open. */
  lemma {:induction false} OpenOrdersAreCounted(rows: seq<Row>, buyer: int)
    ensures CountOpen(rows, buyer) == |set i | 0 <= i < |rows| && rows[i].buyer == buyer && rows[i].status in OpenStatuses|
  {
    if rows == [] {
      OpenCountGrows([], NewRow(Limits(0, 0, 0, 0, 0, false), "", OwnRequest(0, 0, ""), 0), buyer);
    } else {
      var n := |rows| - 1;
      OpenOrdersAreCounted(rows[..n], buyer);
      OpenCountGrows(rows[..n], rows[n], buyer);
      assert rows[..n] + [rows[n]] == rows;
      var all := set i | 0 <= i < |rows| && rows[i].buyer == buyer && rows[i].status in OpenStatuses;
      var earlier := set i | 0 <= i < n && rows[..n][i].buyer == buyer && rows[..n][i].status in OpenStatuses;
      assert all == earlier + if rows[n].buyer == buyer && rows[n].status in OpenStatuses then {n} else {};
    }
  }

  /** The Stars of a buyer's orders since a time, orders left out that were cancelled, expired or failed. */
  lemma DailyStarsGrow(rows: seq<Row>, row: Row, buyer: int, since: int)
    ensures DailyStars([], buyer, since) == 0
    ensures DailyStars(rows + [row], buyer, since)
            == DailyStars(rows, buyer, since)
               + if row.buyer == buyer && row.createdAt >= since && row.status !in {Cancelled, PaymentExpired, PaymentFailed}
                 then row.stars else 0
  {
    SumOfNew(rows, row, (r: Row) => if r.buyer == buyer && r.createdAt >= since && !IsIgnored(r.status) then r.stars else 0);
  }

  /** The request is complete, about a recipient who fits it, and inside every limit that needs no look at the table. */
  predicate InOrder(limits: Limits, req: Request, now: int) {
    && req.buyer > 0 && req.recipient.Some? && req.recipient.value > 0
    && (req.kind.SelfOrder? ==> req.recipient == Some(req.buyer))
    && limits.minStars <= req.stars && req.stars <= limits.maxStars
    && !(req.quoteExpiresAt.Some? && req.quoteExpiresAt.value <= now)
    && req.rubAmount > 0 && req.rubAmount <= limits.maxRubAmount
  }

  /**
   A repeated request in order is answered with its order whatever the shop has switched off since. A new one is
   refused exactly by maintenance, a block, too many open orders, too many Stars within a day, or a taken number, and
   otherwise becomes the last row, with the buyer, the Stars and the time of the request.
   */
  lemma CreationAnswers(limits: Limits, rows: seq<Row>, req: Request, scene: Scene)
    requires 0 < limits.minStars
    ensures CreateOrder(limits, rows, req, scene).Ok? ==> InOrder(limits, req, scene.now)
    ensures
      InOrder(limits, req, scene.now) ==>
        var key, res := Key(ScopeOf(req)), CreateOrder(limits, rows, req, scene);
        var allowed :=
          && !scene.maintenance && !scene.blocked && CountOpen(rows, req.buyer) < limits.maxOpenOrders
          && DailyStars(rows, req.buyer, scene.now - 86_400) + req.stars <= limits.dailyStars;
        if HasKey(rows, key) then
          && (res.Ok? <==> !scene.missed || allowed)
          && (res.Ok? ==> res.value.0 == rows && res.value.1 < |rows| && rows[res.value.1].key == key)
        else
          && (res.Ok? <==> allowed && !scene.numberTaken)
          && (res.Ok? ==>
                && res.value.1 == |rows| && |res.value.0| == |rows| + 1 && res.value.0[..|rows|] == rows
                && var row := res.value.0[|rows|];
                && row.key == key && row.buyer == req.buyer && row.stars == req.stars && row.createdAt == scene.started
                && row.status == (if limits.testMode then WaitingForPayment else Created))
  {
    hide Key, CountOpen, DailyStars;
  }

  // ---------------------------------------------------------------- runs

  datatype Event = Ask(req: Request, scene: Scene) | Move(id: nat, target: OrderStatus)

  datatype Answer = Answer(scope: Scope, id: nat)

  datatype Book = Book(rows: seq<Row>, answers: seq<Answer>)

  function Moved(row: Row, target: OrderStatus): Row {
    row.(status := target,
         everIgnored := row.everIgnored || IsIgnored(target),
         everClosed := row.everClosed || !IsOpen(target))
  }

  function Step(limits: Limits, book: Book, e: Event): Book
    requires 0 < limits.minStars
  {
    match e
    case Ask(req, scene) =>
      var res := CreateOrder(limits, book.rows, req, scene);
      if res.Raise? then book else Book(res.value.0, book.answers + [Answer(ScopeOf(req), res.value.1)])
    case Move(id, target) =>
      if id < |book.rows| && Allowed(book.rows[id].status, target)
      then book.(rows := book.rows[id := Moved(book.rows[id], target)])
      else book
  }

  function Run(limits: Limits, events: seq<Event>): Book
    requires 0 < limits.minStars
  {
    if events == [] then Book([], []) else Step(limits, Run(limits, events[..|events| - 1]), events[|events| - 1])
  }

  // ---------------------------------------------------------------- one order per request

  ghost predicate KeysDiffer(rows: seq<Row>) {
    forall i, j :: 0 <= i < j < |rows| ==> rows[i].key != rows[j].key
  }

  ghost predicate AnswersFit(book: Book) {
    forall i :: 0 <= i < |book.answers| ==>
      book.answers[i].id < |book.rows| && book.rows[book.answers[i].id].key == Key(book.answers[i].scope)
  }

  lemma StepKeepsKeys(limits: Limits, book: Book, e: Event)
    requires 0 < limits.minStars && KeysDiffer(book.rows) && AnswersFit(book)
    ensures KeysDiffer(Step(limits, book, e).rows) && AnswersFit(Step(limits, book, e))
  {
    hide Key, CountOpen, DailyStars, Acceptable;
  }

  lemma {:induction false} RunKeepsKeys(limits: Limits, events: seq<Event>)
    requires 0 < limits.minStars
    ensures KeysDiffer(Run(limits, events).rows) && AnswersFit(Run(limits, events))
  {
    if events != [] {
      var earlier := events[..|events| - 1];
      RunKeepsKeys(limits, earlier);
      StepKeepsKeys(limits, Run(limits, earlier), events[|events| - 1]);
    }
  }

  /**
   Over any run, lost insert races included, two requests are answered with the same order exactly when they
   agree on buyer, kind, recipient, Stars and scope.
   */
  lemma SameRequestSameOrder(limits: Limits, events: seq<Event>, i: nat, j: nat)
    requires 0 < limits.minStars && i < |Run(limits, events).answers| && j < |Run(limits, events).answers|
    ensures
      var answers := Run(limits, events).answers;
      answers[i].id == answers[j].id <==> answers[i].scope == answers[j].scope
  {
    RunKeepsKeys(limits, events);
    var answers := Run(limits, events).answers;
    KeyIsInjective(answers[i].scope, answers[j].scope);
    hide Run, Key;
  }

  // ---------------------------------------------------------------- limits

  ghost predicate HistoryFits(rows: seq<Row>) {
    forall i :: 0 <= i < |rows| ==>
      && rows[i].stars > 0
      && (IsIgnored(rows[i].status) ==> rows[i].everIgnored)
      && (!IsOpen(rows[i].status) ==> rows[i].everClosed)
  }

  /** No transaction looks at the clock more than `lag` after it started. */
  ghost predicate Prompt(events: seq<Event>, lag: int) {
    forall i :: 0 <= i < |events| && events[i].Ask? ==> events[i].scene.now - events[i].scene.started <= lag
  }

  lemma StepKeepsHistory(limits: Limits, book: Book, e: Event)
    requires 0 < limits.minStars && HistoryFits(book.rows)
    ensures HistoryFits(Step(limits, book, e).rows)
  {
    hide Key, CountOpen, DailyStars, HasKey;
  }

  lemma GrantedWithin(rows: seq<Row>, buyer: int, start: int, end: int, since: int)
    requires HistoryFits(rows) && since <= start
    ensures GrantedStars(rows, buyer, start, end) <= DailyStars(rows, buyer, since)
  {
    SumGrows(rows, Granted(buyer, start, end),
             (r: Row) => if r.buyer == buyer && r.createdAt >= since && !IsIgnored(r.status) then r.stars else 0);
  }

  lemma UnclosedWithin(rows: seq<Row>, buyer: int)
    requires HistoryFits(rows)
    ensures AlwaysOpen(rows, buyer) <= CountOpen(rows, buyer)
  {
    SumGrows(rows, Unclosed(buyer), (r: Row) => if r.buyer == buyer && IsOpen(r.status) then 1 else 0);
  }

  lemma SumOfNew(rows: seq<Row>, row: Row, f: Row -> int)
    ensures Sum(rows + [row], f) == Sum(rows, f) + f(row)
  {
    assert (rows + [row])[..|rows|] == rows;
  }

  lemma StepKeepsCap(limits: Limits, book: Book, e: Event, lag: int, buyer: int, start: int, end: int)
    requires 0 < limits.minStars && HistoryFits(book.rows)
    requires e.Ask? ==> e.scene.now - e.scene.started <= lag
    requires end - start + lag <= DAY
    requires GrantedStars(book.rows, buyer, start, end) <= limits.dailyStars
    ensures GrantedStars(Step(limits, book, e).rows, buyer, start, end) <= limits.dailyStars
  {
    var rows := book.rows;
    match e {
      case Ask(req, scene) =>
        if Step(limits, book, e).rows != rows {
          var row := NewRow(limits, Key(ScopeOf(req)), req, scene.started);
          SumOfNew(rows, row, Granted(buyer, start, end));
          if req.buyer == buyer && start <= scene.started <= end {
            GrantedWithin(rows, buyer, start, end, scene.now - DAY);
          }
        }
      case Move(id, target) =>
        if id < |rows| { SumAfterUpdate(rows, id, Moved(rows[id], target), Granted(buyer, start, end)); }
    }
  }

  lemma StepKeepsOpen(limits: Limits, book: Book, e: Event, buyer: int)
    requires 0 < limits.minStars && HistoryFits(book.rows)
    requires AlwaysOpen(book.rows, buyer) <= limits.maxOpenOrders
    ensures AlwaysOpen(Step(limits, book, e).rows, buyer) <= limits.maxOpenOrders
  {
    var rows := book.rows;
    match e {
      case Ask(req, scene) =>
        if Step(limits, book, e).rows != rows {
          SumOfNew(rows, NewRow(limits, Key(ScopeOf(req)), req, scene.started), Unclosed(buyer));
          UnclosedWithin(rows, buyer);
        }
      case Move(id, target) =>
        if id < |rows| { SumAfterUpdate(rows, id, Moved(rows[id], target), Unclosed(buyer)); }
    }
  }

  lemma {:induction false} RunKeepsHistory(limits: Limits, events: seq<Event>)
    requires 0 < limits.minStars
    ensures HistoryFits(Run(limits, events).rows)
  {
    if events != [] {
      var earlier := events[..|events| - 1];
      RunKeepsHistory(limits, earlier);
      StepKeepsHistory(limits, Run(limits, earlier), events[|events| - 1]);
    }
  }

  /**
   In every closed window whose length is a day less the lag of the transactions, the Stars of a user's orders
   that were never cancelled, expired or failed stay within the daily limit. Without lag this is a full day.
   */
  lemma {:induction false} DailyCapHolds(limits: Limits, events: seq<Event>, lag: int, buyer: int, start: int, end: int)
    requires 0 < limits.minStars && 0 <= limits.dailyStars
    requires Prompt(events, lag) && end - start + lag <= DAY
    ensures GrantedStars(Run(limits, events).rows, buyer, start, end) <= limits.dailyStars
  {
    if events != [] {
      var earlier := events[..|events| - 1];
      assert forall i :: 0 <= i < |earlier| ==> earlier[i] == events[i];
      DailyCapHolds(limits, earlier, lag, buyer, start, end);
      RunKeepsHistory(limits, earlier);
      StepKeepsCap(limits, Run(limits, earlier), events[|events| - 1], lag, buyer, start, end);
    }
  }

  /** Orders of one user that were never closed never outnumber the limit. */
  lemma {:induction false} OpenOrdersAreLimited(limits: Limits, events: seq<Event>, buyer: int)
    requires 0 < limits.minStars && 0 <= limits.maxOpenOrders
    ensures AlwaysOpen(Run(limits, events).rows, buyer) <= limits.maxOpenOrders
  {
    if events != [] {
      var earlier := events[..|events| - 1];
      OpenOrdersAreLimited(limits, earlier, buyer);
      RunKeepsHistory(limits, earlier);
      StepKeepsOpen(limits, Run(limits, earlier), events[|events| - 1], buyer);
    }
  }

  /** A user's request for `stars` to themselves. */
  function OwnRequest(buyer: int, stars: int, requestId: string): Request {
    Request(buyer, SelfOrder, Some(buyer), stars, Some(requestId), 1, None)
  }

  function Calm(started: int, now: int): Scene {
    Scene(started, now, false, false, false, false)
  }

  lemma Accepted(limits: Limits, rows: seq<Row>, req: Request, scene: Scene)
    requires 0 < limits.minStars && Acceptable(limits, req, scene.now) && !HasKey(rows, Key(ScopeOf(req)))
    requires !scene.maintenance && !scene.blocked && !scene.numberTaken
    requires CountOpen(rows, req.buyer) < limits.maxOpenOrders
    requires DailyStars(rows, req.buyer, scene.now - DAY) + req.stars <= limits.dailyStars
    ensures CreateOrder(limits, rows, req, scene)
            == Ok((rows + [NewRow(limits, Key(ScopeOf(req)), req, scene.started)], |rows|))
  {
    hide Key, Sum;
  }

  lemma SumOfOne(row: Row, f: Row -> int)
    ensures Sum([row], f) == f(row)
  {
    assert [row][..0] == [];
  }

  /** An order that is older than the last day no longer counts against the cap. */
  lemma OldOrderCounts(row: Row, buyer: int, since: int)
    requires row.createdAt < since
    ensures CountOpen([row], buyer) <= 1 && DailyStars([row], buyer, since) == 0
  {
    SumOfOne(row, (r: Row) => if r.buyer == buyer && IsOpen(r.status) then 1 else 0);
    SumOfOne(row, (r: Row) => if r.buyer == buyer && r.createdAt >= since && !IsIgnored(r.status) then r.stars else 0);
  }

  lemma NoOrderCounts(buyer: int, since: int)
    ensures CountOpen([], buyer) == 0 && DailyStars([], buyer, since) == 0
  {
  }

  lemma BothGranted(a: Row, b: Row, buyer: int, start: int, end: int)
    requires a.buyer == buyer && b.buyer == buyer && !a.everIgnored && !b.everIgnored
    requires start <= a.createdAt <= end && start <= b.createdAt <= end
    ensures GrantedStars([a] + [b], buyer, start, end) == a.stars + b.stars
  {
    SumOfOne(a, Granted(buyer, start, end));
    SumOfNew([a], b, Granted(buyer, start, end));
  }

  lemma RunOfTwo(limits: Limits, first: Event, second: Event)
    requires 0 < limits.minStars
    ensures Run(limits, [first, second]) == Step(limits, Step(limits, Book([], []), first), second)
  {
    assert [first, second][..1] == [first] && [first][..0] == [];
    assert Run(limits, [first]) == Step(limits, Run(limits, []), first);
  }

  /**
   The window of DailyCapHolds is the longest one: with a longer window, a transaction that waits `lag` for the
   user's row lock lets a second large order into the same window.
   */
  lemma LongerWindowsOverflow(limits: Limits, lag: int, length: int, buyer: int, stars: int)
    requires 0 < limits.minStars <= stars <= limits.maxStars && 0 < buyer && 1 <= limits.maxRubAmount
    requires stars <= limits.dailyStars < 2 * stars && 2 <= limits.maxOpenOrders
    requires 0 <= lag && 0 <= length && length + lag > DAY
    ensures exists events :: Prompt(events, lag) && GrantedStars(Run(limits, events).rows, buyer, 0, length) > limits.dailyStars
  {
    hide Key, Sum, CountOpen, DailyStars, GrantedStars, CreateOrder, Run;
    var a, b := OwnRequest(buyer, stars, "a"), OwnRequest(buyer, stars, "b");
    var first, second := Ask(a, Calm(0, 0)), Ask(b, Calm(length, length + lag));
    var rowA, rowB := NewRow(limits, Key(ScopeOf(a)), a, 0), NewRow(limits, Key(ScopeOf(b)), b, length);
    assert ScopeOf(a).text[0] != ScopeOf(b).text[0];
    KeyIsInjective(ScopeOf(a), ScopeOf(b));
    NoOrderCounts(buyer, -DAY);
    Accepted(limits, [], a, Calm(0, 0));
    OldOrderCounts(rowA, buyer, length + lag - DAY);
    Accepted(limits, [rowA], b, Calm(length, length + lag));
    RunOfTwo(limits, first, second);
    assert [] + [rowA] == [rowA];
    var events := [first, second];
    assert Run(limits, events).rows == [rowA] + [rowB];
    BothGranted(rowA, rowB, buyer, 0, length);
    assert Prompt(events, lag);
  }
}
