/**
 Creating orders and working on them, together: the table that OrderCreation reads its keys and limits from holds the
 orders of World, so the limits and the rule of one order per request are about orders that really live.
 */
module Storefront {
  import opened Domain
  import opened Ledger
  import opened OrderFlow
  import opened OrderInvariants
  import opened OrderSafety
  import opened Protocol
  import opened OrderTheorems
  import opened PaidOnce
  import opened World
  import opened IdempotencyKey
  import Creation = OrderCreation

  datatype Deed =
    | Ask(info: OrderInfo, requestId: Option<string>, quoteExpiresAt: Option<int>, scene: Creation.Scene, testPaymentId: string)
    | Work(id: nat, event: Event)

  /** What has happened to the table of orders, and what has happened to the orders. */
  datatype Store = Store(book: seq<Creation.Event>, shop: seq<Happening>)

  predicate SameSettings(cfg: Settings, limits: Creation.Limits) {
    && 0 < limits.minStars && limits.minStars == cfg.minStars && limits.maxStars == cfg.maxStars
    && limits.testMode == cfg.testMode
  }

  ghost function Book(limits: Creation.Limits, s: Store): Creation.Book
    requires 0 < limits.minStars
  {
    Creation.Run(limits, s.book)
  }

  ghost function Orders(cfg: Settings, s: Store): Shop {
    ShopRun(cfg, s.shop)
  }

  function RequestFor(info: OrderInfo, requestId: Option<string>, quoteExpiresAt: Option<int>): Creation.Request {
    Creation.Request(info.buyer, info.kind, info.recipient, info.stars, requestId, info.rubAmount, quoteExpiresAt)
  }

  /** Each audit event of the order is a change of its status column. */
  function Moves(id: nat, log: seq<Edge>): seq<Creation.Event> {
    if log == [] then [] else Moves(id, log[..|log| - 1]) + [Creation.Move(id, log[|log| - 1].target)]
  }

  /** The creating transaction; the database decides whether the new rows violate a unique key. */
  ghost function AskEvent(cfg: Settings, s: Store, d: Deed): Creation.Event
    requires d.Ask?
  {
    Creation.Ask(RequestFor(d.info, d.requestId, d.quoteExpiresAt),
                 d.scene.(numberTaken := CreationClashes(cfg, Orders(cfg, s), d.info.number, d.testPaymentId)))
  }

  ghost function Next(cfg: Settings, limits: Creation.Limits, s: Store, d: Deed): Store
    requires 0 < limits.minStars
  {
    match d
    case Ask(info, _, _, _, testPaymentId) =>
      var after := s.(book := s.book + [AskEvent(cfg, s, d)]);
      if |Book(limits, after).rows| == |Book(limits, s).rows| then after
      else after.(shop := s.shop + [Create(|Book(limits, s).rows|, info, testPaymentId)])
    case Work(id, event) =>
      var after := s.(shop := s.shop + [At(id, event)]);
      if id !in Orders(cfg, s) then s
      else
        var known := |Orders(cfg, s)[id].rec.log|;
        var log := if id in Orders(cfg, after) then Orders(cfg, after)[id].rec.log else [];
        after.(book := s.book + Moves(id, if known <= |log| then log[known..] else []))
  }

  ghost function Trade(cfg: Settings, limits: Creation.Limits, deeds: seq<Deed>): Store
    requires 0 < limits.minStars
  {
    if deeds == [] then Store([], [])
    else Next(cfg, limits, Trade(cfg, limits, deeds[..|deeds| - 1]), deeds[|deeds| - 1])
  }

  // ---------------------------------------------------------------- rows and orders

  /** The audit log shows that the order was closed once. */
  ghost predicate WasClosed(log: seq<Edge>) {
    exists e :: e in log && !Creation.IsOpen(e.target)
  }

  /** ... that it was cancelled, expired or failed once. */
  ghost predicate WasIgnored(log: seq<Edge>) {
    exists e :: e in log && Creation.IsIgnored(e.target)
  }

  ghost predicate KeyFits(key: string, info: OrderInfo) {
    && info.buyer > 0 && info.recipient.Some? && info.recipient.value > 0 && info.stars > 0
    && exists text :: key == Key(Scope(info.buyer, info.kind, info.recipient.value, info.stars, text))
  }

  ghost predicate Mirrors(row: Creation.Row, r: Rec) {
    && row.status == r.order.status && row.buyer == r.order.info.buyer && row.stars == r.order.info.stars
    && KeyFits(row.key, r.order.info)
    && (row.everClosed <==> WasClosed(r.log))
    && (row.everIgnored <==> WasIgnored(r.log))
  }

  ghost predicate Agrees(rows: seq<Creation.Row>, orders: Shop) {
    && (forall id: nat :: id in orders <==> id < |rows|)
    && (forall id: nat :: id < |rows| ==> Mirrors(rows[id], orders[id].rec))
  }

  lemma BookGrows(limits: Creation.Limits, events: seq<Creation.Event>, e: Creation.Event)
    requires 0 < limits.minStars
    ensures Creation.Run(limits, events + [e]) == Creation.Step(limits, Creation.Run(limits, events), e)
  {
    assert (events + [e])[..|events|] == events;
  }

  lemma ShopGrows(cfg: Settings, hs: seq<Happening>, h: Happening)
    ensures ShopRun(cfg, hs + [h]) == ShopStep(cfg, ShopRun(cfg, hs), h)
  {
    assert (hs + [h])[..|hs|] == hs;
  }

  // ---------------------------------------------------------------- creating

  lemma NewRowMirrors(cfg: Settings, limits: Creation.Limits, info: OrderInfo, req: Creation.Request, now: int, started: int,
                      testPaymentId: string)
    requires SameSettings(cfg, limits) && Creation.Acceptable(limits, req, now)
    requires req == RequestFor(info, req.requestId, req.quoteExpiresAt)
    ensures ValidRequest(cfg, info)
    ensures Mirrors(Creation.NewRow(limits, Key(Creation.ScopeOf(req)), req, started), Begin(cfg, info, testPaymentId).rec)
  {
    hide Key, StatusNotes;
    assert Creation.ScopeOf(req) == Scope(info.buyer, info.kind, info.recipient.value, info.stars, Creation.ScopeOf(req).text);
  }

  /** The one case in which the table grows. */
  lemma CreationGrows(limits: Creation.Limits, book: Creation.Book, req: Creation.Request, scene: Creation.Scene)
    requires 0 < limits.minStars
    ensures
      var rows := Creation.Step(limits, book, Creation.Ask(req, scene)).rows;
      || rows == book.rows
      || (Creation.Acceptable(limits, req, scene.now) && !scene.numberTaken
          && rows == book.rows + [Creation.NewRow(limits, Key(Creation.ScopeOf(req)), req, scene.started)])
  {
    hide Key, Creation.CountOpen, Creation.DailyStars, Creation.Acceptable;
  }

  lemma NewOrderAgrees(rows: seq<Creation.Row>, orders: Shop, row: Creation.Row, c: Cell)
    requires Agrees(rows, orders) && Mirrors(row, c.rec)
    ensures Agrees(rows + [row], orders[|rows| := c])
  {
    hide Mirrors;
  }

  lemma AskKeepsAgreement(cfg: Settings, limits: Creation.Limits, s: Store, d: Deed)
    requires SameSettings(cfg, limits) && d.Ask? && Agrees(Book(limits, s).rows, Orders(cfg, s))
    ensures
      var after := Next(cfg, limits, s, d);
      Agrees(Book(limits, after).rows, Orders(cfg, after))
  {
    var book, orders := Book(limits, s), Orders(cfg, s);
    var ask := AskEvent(cfg, s, d);
    var id, req, scene := |book.rows|, ask.req, ask.scene;
    BookGrows(limits, s.book, ask);
    CreationGrows(limits, book, req, scene);
    assert id !in orders;
    ShopGrows(cfg, s.shop, Create(id, d.info, d.testPaymentId));
    hide Creation.Run, Creation.Step, Creation.NewRow, Creation.Acceptable, Key, ShopRun, Begin, Mirrors, CreationClashes, Agrees;
    if Creation.Step(limits, book, ask).rows != book.rows {
      NewRowMirrors(cfg, limits, d.info, req, scene.now, scene.started, d.testPaymentId);
      NewOrderAgrees(book.rows, orders, Creation.NewRow(limits, Key(Creation.ScopeOf(req)), req, scene.started),
                     Begin(cfg, d.info, d.testPaymentId));
    }
  }

  // ---------------------------------------------------------------- working

  lemma {:induction false} PathSplits(log: seq<Edge>, more: seq<Edge>, mid: OrderStatus, finish: OrderStatus)
    requires PathFrom(Created, log, mid) && PathFrom(Created, log + more, finish)
    ensures PathFrom(mid, more, finish)
  {
    if more == [] {
      assert log + more == log;
    } else {
      var last := more[|more| - 1];
      assert (log + more)[|log + more| - 1] == last;
      assert (log + more)[..|log + more| - 1] == log + more[..|more| - 1];
      PathSplits(log, more[..|more| - 1], mid, last.source);
    }
  }

  /** The row after the status changes that a stretch of the audit log tells of. */
  ghost predicate MovedAlong(row: Creation.Row, log: seq<Edge>, finish: OrderStatus, after: Creation.Row) {
    && after == row.(status := finish, everIgnored := after.everIgnored, everClosed := after.everClosed)
    && (after.everClosed <==> row.everClosed || WasClosed(log))
    && (after.everIgnored <==> row.everIgnored || WasIgnored(log))
  }

  ghost predicate Follows(book: Creation.Book, id: nat, log: seq<Edge>, finish: OrderStatus, after: Creation.Book) {
    && |after.rows| == |book.rows| && id < |book.rows|
    && after == book.(rows := book.rows[id := after.rows[id]])
    && MovedAlong(book.rows[id], log, finish, after.rows[id])
  }

  lemma NoMoveFollows(book: Creation.Book, id: nat)
    requires id < |book.rows|
    ensures Follows(book, id, [], book.rows[id].status, book)
  {
    assert book.rows == book.rows[id := book.rows[id]];
  }

  lemma OneMoveFollows(limits: Creation.Limits, book: Creation.Book, id: nat, log: seq<Edge>, last: Edge, mid: Creation.Book)
    requires 0 < limits.minStars && Allowed(last.source, last.target) && Follows(book, id, log, last.source, mid)
    ensures Follows(book, id, log + [last], last.target, Creation.Step(limits, mid, Creation.Move(id, last.target)))
  {
    hide Creation.IsOpen, Creation.IsIgnored, Allowed;
    assert forall e :: e in log + [last] <==> e in log || e == last;
  }

  lemma {:induction false} MovesFollow(limits: Creation.Limits, events: seq<Creation.Event>, id: nat, log: seq<Edge>, finish: OrderStatus)
    requires 0 < limits.minStars && id < |Creation.Run(limits, events).rows|
    requires PathFrom(Creation.Run(limits, events).rows[id].status, log, finish)
    ensures Follows(Creation.Run(limits, events), id, log, finish, Creation.Run(limits, events + Moves(id, log)))
  {
    var before := Creation.Run(limits, events);
    hide Creation.Run, Creation.Step, Follows, Allowed;
    if log == [] {
      assert events + Moves(id, log) == events;
      NoMoveFollows(before, id);
    } else {
      var earlier, last := log[..|log| - 1], log[|log| - 1];
      MovesFollow(limits, events, id, earlier, last.source);
      assert events + Moves(id, log) == events + Moves(id, earlier) + [Creation.Move(id, last.target)];
      BookGrows(limits, events + Moves(id, earlier), Creation.Move(id, last.target));
      assert log == earlier + [last];
      OneMoveFollows(limits, before, id, earlier, last, Creation.Run(limits, events + Moves(id, earlier)));
    }
  }

  predicate SameInfo(r: Rec, after: Rec) {
    after.order.info == r.order.info && r.log <= after.log
  }

  lemma LogIsPath(r: Rec)
    requires Chronicle(r)
    ensures PathFrom(Created, r.log, r.order.status)
  {
    hide PathFrom, WithoutResent, Announced;
  }

  lemma StepAppendsPath(cfg: Settings, c: Cell, e: Event)
    requires Sound(cfg, c.rec)
    ensures
      var after := Step(cfg, c, e).rec;
      SameInfo(c.rec, after) && PathFrom(c.rec.order.status, after.log[|c.rec.log|..], after.order.status)
  {
    StepKeeps(cfg, c, e);
    StepGrowsLog(cfg, c, e);
    var after := Step(cfg, c, e).rec;
    hide Step, WellFormed, PathFrom, Chronicle;
    LogIsPath(c.rec);
    LogIsPath(after);
    assert c.rec.log + after.log[|c.rec.log|..] == after.log;
    PathSplits(c.rec.log, after.log[|c.rec.log|..], c.rec.order.status, after.order.status);
  }

  /** A step of an order appends an allowed path from its old to its new status to the audit log. */
  lemma WorkAppendsPath(cfg: Settings, hs: seq<Happening>, id: nat, e: Event)
    requires id in ShopRun(cfg, hs)
    ensures
      var orders, after := ShopRun(cfg, hs), ShopStep(cfg, ShopRun(cfg, hs), At(id, e));
      && id in after && after == orders[id := after[id]] && SameInfo(orders[id].rec, after[id].rec)
      && PathFrom(orders[id].rec.order.status, after[id].rec.log[|orders[id].rec.log|..], after[id].rec.order.status)
  {
    var orders := ShopRun(cfg, hs);
    OrdersAreSound(cfg, hs);
    hide ShopRun, Step, Sound, Resolve, PathFrom, Clashes, Refused;
    assert orders == orders[id := orders[id]];
    assert PathFrom(orders[id].rec.order.status, [], orders[id].rec.order.status) by { NoPath(orders[id].rec.order.status); }
    assert orders[id].rec.log[|orders[id].rec.log|..] == [];
    StepAppendsPath(cfg, orders[id], Resolve(e, Clashes(orders, id, e)));
  }

  lemma NoPath(status: OrderStatus)
    ensures PathFrom(status, [], status)
  {
  }

  lemma MovedMirrors(row: Creation.Row, r: Rec, moved: Creation.Row, after: Rec)
    requires Mirrors(row, r) && SameInfo(r, after)
    requires MovedAlong(row, after.log[|r.log|..], after.order.status, moved)
    ensures Mirrors(moved, after)
  {
    var more := after.log[|r.log|..];
    assert after.log == r.log + more;
    hide Creation.IsOpen, Creation.IsIgnored, KeyFits;
    assert forall e :: e in after.log <==> e in r.log || e in more;
  }

  lemma WorkedOrderAgrees(rows: seq<Creation.Row>, orders: Shop, id: nat, log: seq<Edge>, more: seq<Creation.Row>, after: Shop)
    requires Agrees(rows, orders) && id < |rows| && id in after && after == orders[id := after[id]]
    requires SameInfo(orders[id].rec, after[id].rec) && log == after[id].rec.log[|orders[id].rec.log|..]
    requires |more| == |rows| && more == rows[id := more[id]]
    requires MovedAlong(rows[id], log, after[id].rec.order.status, more[id])
    ensures Agrees(more, after)
  {
    hide Mirrors, MovedAlong, SameInfo;
    assert Mirrors(rows[id], orders[id].rec);
    MovedMirrors(rows[id], orders[id].rec, more[id], after[id].rec);
  }

  lemma WorkKeepsAgreement(cfg: Settings, limits: Creation.Limits, s: Store, id: nat, e: Event)
    requires SameSettings(cfg, limits) && Agrees(Book(limits, s).rows, Orders(cfg, s))
    ensures
      var after := Next(cfg, limits, s, Work(id, e));
      Agrees(Book(limits, after).rows, Orders(cfg, after))
  {
    var orders, rows := Orders(cfg, s), Book(limits, s).rows;
    if id in orders {
      ShopGrows(cfg, s.shop, At(id, e));
      WorkAppendsPath(cfg, s.shop, id, e);
      assert Mirrors(rows[id], orders[id].rec);
      assert rows[id].status == orders[id].rec.order.status by { MirrorsStatus(rows[id], orders[id].rec); }
      hide ShopRun, ShopStep, Creation.Run, PathFrom, Mirrors, MovedAlong, Moves, Agrees;
      var after := ShopStep(cfg, orders, At(id, e));
      var log := after[id].rec.log[|orders[id].rec.log|..];
      MovesFollow(limits, s.book, id, log, after[id].rec.order.status);
      WorkedOrderAgrees(rows, orders, id, log, Creation.Run(limits, s.book + Moves(id, log)).rows, after);
    }
  }

  lemma MirrorsStatus(row: Creation.Row, r: Rec)
    requires Mirrors(row, r)
    ensures row.status == r.order.status
  {
  }

  // ---------------------------------------------------------------- main results

  /** In every run the table mirrors the orders: who bought what, under which key, where it stands, and where it has been. */
  lemma {:induction false} TableMirrorsOrders(cfg: Settings, limits: Creation.Limits, deeds: seq<Deed>)
    requires SameSettings(cfg, limits)
    ensures
      var s := Trade(cfg, limits, deeds);
      Agrees(Book(limits, s).rows, Orders(cfg, s))
  {
    if deeds == [] {
      assert Orders(cfg, Trade(cfg, limits, deeds)) == map[];
    } else {
      var s, d := Trade(cfg, limits, deeds[..|deeds| - 1]), deeds[|deeds| - 1];
      TableMirrorsOrders(cfg, limits, deeds[..|deeds| - 1]);
      hide Agrees, Next;
      match d {
        case Ask(_, _, _, _, _) => AskKeepsAgreement(cfg, limits, s, d);
        case Work(id, e) => WorkKeepsAgreement(cfg, limits, s, id, e);
      }
    }
  }

  ghost predicate Describes(scope: Scope, info: OrderInfo) {
    scope.buyer == info.buyer && scope.kind == info.kind && Some(scope.recipient as int) == info.recipient && scope.stars == info.stars
  }

  lemma KeyDescribes(key: string, scope: Scope, info: OrderInfo)
    requires KeyFits(key, info) && key == Key(scope)
    ensures Describes(scope, info)
  {
    hide Key;
    var text :| key == Key(Scope(info.buyer, info.kind, info.recipient.value, info.stars, text));
    KeyIsInjective(scope, Scope(info.buyer, info.kind, info.recipient.value, info.stars, text));
  }

  /**
   Whatever happens to the orders meanwhile, two requests are answered with the same order exactly when they agree on
   buyer, kind, recipient, Stars and scope, and the order that answers is a live one with just these terms.
   */
  lemma RequestsShareOrders(cfg: Settings, limits: Creation.Limits, deeds: seq<Deed>, i: nat, j: nat)
    requires SameSettings(cfg, limits)
    requires i < |Book(limits, Trade(cfg, limits, deeds)).answers| && j < |Book(limits, Trade(cfg, limits, deeds)).answers|
    ensures
      var s := Trade(cfg, limits, deeds);
      var a, b := Book(limits, s).answers[i], Book(limits, s).answers[j];
      && (a.id == b.id <==> a.scope == b.scope)
      && a.id in Orders(cfg, s) && Describes(a.scope, Orders(cfg, s)[a.id].rec.order.info)
  {
    var s := Trade(cfg, limits, deeds);
    var a := Book(limits, s).answers[i];
    TableMirrorsOrders(cfg, limits, deeds);
    Creation.SameRequestSameOrder(limits, s.book, i, j);
    Creation.RunKeepsKeys(limits, s.book);
    assert Mirrors(Book(limits, s).rows[a.id], Orders(cfg, s)[a.id].rec);
    hide Trade, Creation.Run, ShopRun, Key, KeyFits, Describes;
    KeyDescribes(Book(limits, s).rows[a.id].key, a.scope, Orders(cfg, s)[a.id].rec.order.info);
  }

  /** No two orders have the same idempotency key or share any other unique column. */
  lemma StoreSharesNothing(cfg: Settings, limits: Creation.Limits, deeds: seq<Deed>, i: nat, j: nat)
    requires SameSettings(cfg, limits) && i != j
    requires i in Orders(cfg, Trade(cfg, limits, deeds)) && j in Orders(cfg, Trade(cfg, limits, deeds))
    ensures
      var s := Trade(cfg, limits, deeds);
      && i < |Book(limits, s).rows| && j < |Book(limits, s).rows|
      && Book(limits, s).rows[i].key != Book(limits, s).rows[j].key
      && Apart(Orders(cfg, s)[i].rec, Orders(cfg, s)[j].rec)
  {
    var s := Trade(cfg, limits, deeds);
    TableMirrorsOrders(cfg, limits, deeds);
    Creation.RunKeepsKeys(limits, s.book);
    NothingIsShared(cfg, s.shop);
    hide Trade, Creation.Run, ShopRun, Apart, Mirrors;
    assert Book(limits, s).rows[if i < j then i else j].key != Book(limits, s).rows[if i < j then j else i].key;
  }

  // ---------------------------------------------------------------- limits on live orders

  ghost function Total(n: nat, weight: nat -> int): int {
    if n == 0 then 0 else Total(n - 1, weight) + weight(n - 1)
  }

  lemma {:induction false} TotalIsSum(rows: seq<Creation.Row>, weight: nat -> int, f: Creation.Row -> int)
    requires forall id: nat :: id < |rows| ==> weight(id) == f(rows[id])
    ensures Total(|rows|, weight) == Creation.Sum(rows, f)
  {
    if rows != [] {
      var init := rows[..|rows| - 1];
      assert forall id: nat :: id < |init| ==> init[id] == rows[id];
      TotalIsSum(init, weight, f);
    }
  }

  /** Counts an order of the buyer whose audit log never left the open statuses. */
  ghost function StillOpen(orders: Shop, buyer: int): nat -> int {
    (id: nat) => if id in orders && orders[id].rec.order.info.buyer == buyer && !WasClosed(orders[id].rec.log) then 1 else 0
  }

  /** Weighs an order of the buyer, created in the window and never cancelled, expired or failed, with its Stars. */
  ghost function StarsGranted(rows: seq<Creation.Row>, orders: Shop, buyer: int, start: int, end: int): nat -> int {
    (id: nat) =>
      if && id in orders && id < |rows| && orders[id].rec.order.info.buyer == buyer && start <= rows[id].createdAt <= end
         && !WasIgnored(orders[id].rec.log)
      then orders[id].rec.order.info.stars
      else 0
  }

  /** A buyer never has more orders than the limit whose audit log shows no closing. */
  lemma LiveOrdersAreLimited(cfg: Settings, limits: Creation.Limits, deeds: seq<Deed>, buyer: int)
    requires SameSettings(cfg, limits) && 0 <= limits.maxOpenOrders
    ensures
      var s := Trade(cfg, limits, deeds);
      Total(|Book(limits, s).rows|, StillOpen(Orders(cfg, s), buyer)) <= limits.maxOpenOrders
  {
    var s := Trade(cfg, limits, deeds);
    TableMirrorsOrders(cfg, limits, deeds);
    Creation.OpenOrdersAreLimited(limits, s.book, buyer);
    hide Trade, Creation.Run, ShopRun, WasClosed, WasIgnored, KeyFits;
    TotalIsSum(Book(limits, s).rows, StillOpen(Orders(cfg, s), buyer), Creation.Unclosed(buyer));
  }

  /** No creating transaction looks at the clock more than `lag` after it started. */
  ghost predicate PromptDeeds(deeds: seq<Deed>, lag: int) {
    forall i :: 0 <= i < |deeds| && deeds[i].Ask? ==> deeds[i].scene.now - deeds[i].scene.started <= lag
  }

  lemma {:induction false} MovesAskNothing(id: nat, log: seq<Edge>)
    ensures forall i :: 0 <= i < |Moves(id, log)| ==> Moves(id, log)[i].Move?
  {
    if log != [] { MovesAskNothing(id, log[..|log| - 1]); }
  }

  lemma NextStaysPrompt(cfg: Settings, limits: Creation.Limits, s: Store, d: Deed, lag: int)
    requires 0 < limits.minStars && Creation.Prompt(s.book, lag)
    requires d.Ask? ==> d.scene.now - d.scene.started <= lag
    ensures Creation.Prompt(Next(cfg, limits, s, d).book, lag)
  {
    hide Creation.Run, ShopRun, Moves, CreationClashes;
    forall id, log ensures forall i :: 0 <= i < |Moves(id, log)| ==> Moves(id, log)[i].Move? { MovesAskNothing(id, log); }
  }

  lemma {:induction false} TradeStaysPrompt(cfg: Settings, limits: Creation.Limits, deeds: seq<Deed>, lag: int)
    requires 0 < limits.minStars && PromptDeeds(deeds, lag)
    ensures Creation.Prompt(Trade(cfg, limits, deeds).book, lag)
  {
    if deeds != [] {
      var earlier := deeds[..|deeds| - 1];
      assert forall i :: 0 <= i < |earlier| ==> earlier[i] == deeds[i];
      TradeStaysPrompt(cfg, limits, earlier, lag);
      NextStaysPrompt(cfg, limits, Trade(cfg, limits, earlier), deeds[|deeds| - 1], lag);
      hide Next;
    }
  }

  /**
   The Stars of a buyer's live orders that were created in a window and whose audit log shows no cancellation, expiry or
   failure stay within the daily limit, for every window of a day less the lag.
   */
  lemma LiveStarsAreCapped(cfg: Settings, limits: Creation.Limits, deeds: seq<Deed>, lag: int, buyer: int, start: int, end: int)
    requires SameSettings(cfg, limits) && 0 <= limits.dailyStars
    requires PromptDeeds(deeds, lag) && end - start + lag <= Creation.DAY
    ensures
      var s := Trade(cfg, limits, deeds);
      var rows := Book(limits, s).rows;
      Total(|rows|, StarsGranted(rows, Orders(cfg, s), buyer, start, end)) <= limits.dailyStars
  {
    var s := Trade(cfg, limits, deeds);
    TableMirrorsOrders(cfg, limits, deeds);
    TradeStaysPrompt(cfg, limits, deeds, lag);
    Creation.DailyCapHolds(limits, s.book, lag, buyer, start, end);
    hide Trade, Creation.Run, ShopRun, WasClosed, WasIgnored, KeyFits, PromptDeeds;
    TotalIsSum(Book(limits, s).rows, StarsGranted(Book(limits, s).rows, Orders(cfg, s), buyer, start, end),
               Creation.Granted(buyer, start, end));
  }
}
