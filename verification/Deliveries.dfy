/**
 Dispatching: a dispatched item stays dispatched until somebody asks otherwise, and an item is delivered once plus
 once per requeue.
 */
module Deliveries {
  import opened LeaseQueue
  import opened Pipeline

  // ---------- Sticky dispatch, in every interleaving ----------

  predicate DispatchedIsDated(s: World, x: ItemId) {
    x in s.items && s.items[x].status.Dispatched? ==> s.items[x].dispatchedAt.Some?
  }

  predicate Dated(s: World, x: ItemId) {
    x in s.items && s.items[x].dispatchedAt.Some?
  }

  lemma DatedStep(c: Config, s: World, e: Event, x: ItemId)
    requires CanStep(s, e) && DispatchedIsDated(s, x)
    ensures DispatchedIsDated(Next(c, s, e), x)
  {
  }

  /** DISPATCHED always comes with a date, so isAlreadyDispatched is just "dispatched_at is set". */
  lemma {:induction false} AlreadyDispatchedMeansDated(c: Config, ss: seq<World>, es: seq<Event>, x: ItemId, i: nat)
    requires IsTrace(c, ss, es) && ss[0] == START && i < |ss|
    ensures DispatchedIsDated(ss[i], x)
    ensures AlreadyDispatched(ss[i].items, x) <==> Dated(ss[i], x)
  {
    if i > 0 {
      AlreadyDispatchedMeansDated(c, ss, es, x, i - 1);
      DatedStep(c, ss[i - 1], es[i - 1], x);
    }
  }

  /** The item row goes away. */
  predicate Forgets(e: Event, x: ItemId) {
    match e
    case W(_, Delete(y)) => y == x
    case R(_, Cleanup(xs)) => x in xs
    case _ => false
  }

  predicate IsRequeue(e: Event, x: ItemId) {
    e.W? && e.e.Requeue? && e.e.x == x
  }

  lemma StickyStep(c: Config, s: World, e: Event, x: ItemId)
    requires CanStep(s, e) && Dated(s, x) && !Forgets(e, x) && !IsRequeue(e, x)
    ensures Dated(Next(c, s, e), x)
  {
  }

  /** Once dispatched an item stays dispatched until an admin requeue or the removal of its row. */
  lemma {:induction false} DispatchIsSticky(c: Config, ss: seq<World>, es: seq<Event>, x: ItemId, i: nat, j: nat)
    requires IsTrace(c, ss, es) && i <= j < |ss| && Dated(ss[i], x)
    requires forall n | i <= n < j :: !Forgets(es[n], x) && !IsRequeue(es[n], x)
    ensures AlreadyDispatched(ss[j].items, x)
    decreases j - i
  {
    if i < j {
      StickyStep(c, ss[i], es[i], x);
      DispatchIsSticky(c, ss, es, x, i + 1, j);
    }
  }

  /** No analyzer, however stale its claim, moves an item out of DISPATCHED. */
  lemma AnalyzersRespectDispatched(c: Config, s: World, w: WorkerId, a: AnalyzerStep, x: ItemId)
    requires AnalyzerEnabled(s, w, a) && x in s.items && s.items[x].status.Dispatched?
    ensures x in AnalyzerApply(c, s, w, a).items && AnalyzerApply(c, s, w, a).items[x] == s.items[x]
  {
  }

  // ---------- Items nobody has heard of ----------

  ghost predicate NobodyOn(s: World, x: ItemId) {
    && (forall w | w in s.analyzers :: s.analyzers[w].hold.item != x)
    && (forall d | d in s.dispatchers :: s.dispatchers[d].hold.item != x)
    && (forall r | r in s.readers :: s.readers[r].item != x)
    && (forall b | b in s.admins :: s.admins[b].item != x)
  }

  /** Queue rows and processes only concern items that have a row. */
  ghost predicate Known(s: World, x: ItemId) {
    x in s.items || (x !in s.aq && x !in s.dq && NobodyOn(s, x))
  }

  lemma KnownByWorkers(c: Config, s: World, e: Event, x: ItemId)
    requires CanStep(s, e) && (e.A? || e.D?) && Known(s, x)
    ensures Known(Next(c, s, e), x) && (x in s.items ==> x in Next(c, s, e).items)
  {
  }

  lemma KnownByOthers(c: Config, s: World, e: Event, x: ItemId)
    requires CanStep(s, e) && (e.R? || e.W?) && Known(s, x) && !Forgets(e, x)
    ensures Known(Next(c, s, e), x) && (x in s.items ==> x in Next(c, s, e).items)
  {
  }

  lemma KnownStep(c: Config, s: World, e: Event, x: ItemId)
    requires CanStep(s, e) && Known(s, x) && !Forgets(e, x)
    ensures Known(Next(c, s, e), x)
    ensures x in s.items ==> x in Next(c, s, e).items
  {
    if e.A? || e.D? { KnownByWorkers(c, s, e, x); } else { KnownByOthers(c, s, e, x); }
  }

  // ---------- Deliveries against requeues ----------

  function Count(es: seq<Event>, p: Event -> bool, i: nat): nat
    requires i <= |es|
  {
    if i == 0 then 0 else Count(es, p, i - 1) + if p(es[i - 1]) then 1 else 0
  }

  predicate IsDelivery(e: Event, x: ItemId) { e.D? && e.b == Deliver(x) }

  function DeliveriesOf(es: seq<Event>, x: ItemId, i: nat): nat
    requires i <= |es|
  {
    Count(es, (e: Event) => IsDelivery(e, x), i)
  }

  function RequeuesOf(es: seq<Event>, x: ItemId, i: nat): nat
    requires i <= |es|
  {
    Count(es, (e: Event) => IsRequeue(e, x), i)
  }

  function AcceptsOf(es: seq<Event>, x: ItemId, i: nat): nat
    requires i <= |es|
  {
    Count(es, (e: Event) => IsAccept(e, x), i)
  }

  predicate Dispatching(s: World, d: WorkerId, x: ItemId) {
    d in s.dispatchers && s.dispatchers[d].hold.item == x
  }

  /** Reader `r` has stored `x` and not enqueued it yet. */
  predicate Reads(s: World, r: ReaderId, x: ItemId) {
    r in s.readers && s.readers[r].item == x
  }

  ghost predicate Confirmable(s: World, x: ItemId) {
    exists d :: Dispatching(s, d, x) && s.dispatchers[d].pc.Confirming?
  }

  /** Handlings of one item in the dispatch queue do not overlap. */
  ghost predicate SoloAccept(s: World, e: Event) {
    e.D? && e.b.Accept? ==> forall d :: !Dispatching(s, d, e.b.x)
  }

  /** A dispatcher dies after the message went out and before the item is marked. */
  predicate DiesUnconfirmed(s: World, e: Event, x: ItemId) {
    e.D? && e.b.Die? && Dispatching(s, e.d, x) && s.dispatchers[e.d].pc.Confirming?
  }

  /** How often that happened to `x` in the first `i` events. */
  function LossesOf(ss: seq<World>, es: seq<Event>, x: ItemId, i: nat): nat
    requires i <= |es| <= |ss|
  {
    if i == 0 then 0
    else LossesOf(ss, es, x, i - 1) + if DiesUnconfirmed(ss[i - 1], es[i - 1], x) then 1 else 0
  }

  /** A requeue of an item that was dispatched: it takes the date away. */
  predicate Reopens(s: World, e: Event, x: ItemId) {
    IsRequeue(e, x) && Dated(s, x)
  }

  function ReopensOf(ss: seq<World>, es: seq<Event>, x: ItemId, i: nat): nat
    requires i <= |es| <= |ss|
  {
    if i == 0 then 0
    else ReopensOf(ss, es, x, i - 1) + if Reopens(ss[i - 1], es[i - 1], x) then 1 else 0
  }

  /**
   Every delivery is in the books: its date stands, or was taken away by a requeue, or is about to be set, or got
   lost.
  */
  ghost predicate Balanced(s: World, x: ItemId, delivered: nat, booked: nat) {
    && Known(s, x)
    && DispatchedIsDated(s, x)
    && (forall d, d' | Dispatching(s, d, x) && Dispatching(s, d', x) :: d == d')
    && (forall d | Dispatching(s, d, x) && (s.dispatchers[d].pc.Delivering? || s.dispatchers[d].pc.Confirming?) ::
          !Dated(s, x))
    && delivered == booked + if Dated(s, x) || Confirmable(s, x) then 1 else 0
  }

  lemma DispatcherBalances(c: Config, s: World, d: WorkerId, a: DispatcherStep, x: ItemId, n: nat, q: nat)
    requires DispatcherEnabled(s, d, a) && SoloAccept(s, D(d, a))
    requires Balanced(s, x, n, q)
    ensures Balanced(DispatcherApply(c, s, d, a), x, if a == Deliver(x) then n + 1 else n,
                     if DiesUnconfirmed(s, D(d, a), x) then q + 1 else q)
  {
    var s' := DispatcherApply(c, s, d, a);
    KnownStep(c, s, D(d, a), x);
    DatedStep(c, s, D(d, a), x);
    assert forall v | v != d :: Dispatching(s', v, x) <==> Dispatching(s, v, x);
    assert a.Accept? || (Dispatching(s', d, x) ==> Dispatching(s, d, x));
    if a == Deliver(x) {
      assert Dispatching(s', d, x) && s'.dispatchers[d].pc.Confirming?;
    }
    if v :| Dispatching(s, v, x) && s.dispatchers[v].pc.Confirming? {
      if v != d { assert Dispatching(s', v, x) && s'.dispatchers[v].pc.Confirming?; }
    }
  }

  lemma OthersBalance(c: Config, s: World, e: Event, x: ItemId, n: nat, q: nat)
    requires CanStep(s, e) && !e.D? && !Forgets(e, x)
    requires Balanced(s, x, n, q)
    ensures Balanced(Next(c, s, e), x, n, if Reopens(s, e, x) then q + 1 else q)
  {
    var s' := Next(c, s, e);
    KnownStep(c, s, e, x);
    DatedStep(c, s, e, x);
    assert forall v :: Dispatching(s', v, x) <==> Dispatching(s, v, x);
    if !IsRequeue(e, x) && Dated(s, x) { StickyStep(c, s, e, x); }
    if v :| Dispatching(s, v, x) && s.dispatchers[v].pc.Confirming? {
      assert Dispatching(s', v, x) && s'.dispatchers[v].pc.Confirming?;
    }
  }

  /** Dispatch handlings of `x` never overlap, and its row is never removed. */
  ghost predicate Sequential(ss: seq<World>, es: seq<Event>, x: ItemId)
    requires |es| <= |ss|
  {
    forall n | 0 <= n < |es| :: SoloAccept(ss[n], es[n]) && !Forgets(es[n], x)
  }

  /**
   The exact account: an item has been delivered once per requeue that found it dispatched, once per dispatcher that
   died between delivering and marking, and once more if it is dispatched or just about to be marked so.
   */
  lemma {:induction false} DeliveriesAccount(c: Config, ss: seq<World>, es: seq<Event>, x: ItemId, i: nat)
    requires IsTrace(c, ss, es) && ss[0] == START && i < |ss| && Sequential(ss, es, x)
    ensures Balanced(ss[i], x, DeliveriesOf(es, x, i), ReopensOf(ss, es, x, i) + LossesOf(ss, es, x, i))
    ensures DeliveriesOf(es, x, i) == ReopensOf(ss, es, x, i) + LossesOf(ss, es, x, i)
                                      + if Dated(ss[i], x) || Confirmable(ss[i], x) then 1 else 0
  {
    if i > 0 {
      DeliveriesAccount(c, ss, es, x, i - 1);
      var s, e := ss[i - 1], es[i - 1];
      assert CanStep(s, e) && ss[i] == Next(c, s, e);
      var n, q := DeliveriesOf(es, x, i - 1), ReopensOf(ss, es, x, i - 1) + LossesOf(ss, es, x, i - 1);
      if e.D? {
        DispatcherBalances(c, s, e.d, e.b, x, n, q);
      } else {
        OthersBalance(c, s, e, x, n, q);
      }
    }
  }

  lemma {:induction false} ReopensAreRequeues(ss: seq<World>, es: seq<Event>, x: ItemId, i: nat)
    requires i <= |es| <= |ss|
    ensures ReopensOf(ss, es, x, i) <= RequeuesOf(es, x, i)
  {
    if i > 0 { ReopensAreRequeues(ss, es, x, i - 1); }
  }

  /**
   "At most one delivery per requeue, plus one for a dispatched item" holds exactly while the deliveries lost by dying
   dispatchers, and the one about to be marked, do not outnumber the requeues that found the item undelivered.
   */
  lemma OneDeliveryPerRequeueIff(c: Config, ss: seq<World>, es: seq<Event>, x: ItemId, i: nat)
    requires IsTrace(c, ss, es) && ss[0] == START && i < |ss| && Sequential(ss, es, x)
    ensures DeliveriesOf(es, x, i) <= RequeuesOf(es, x, i) + (if Dated(ss[i], x) then 1 else 0)
            <==> LossesOf(ss, es, x, i) + (if Confirmable(ss[i], x) then 1 else 0)
                 <= RequeuesOf(es, x, i) - ReopensOf(ss, es, x, i)
  {
    DeliveriesAccount(c, ss, es, x, i);
  }

  /** With deaths counted, and the delivery about to be marked, the bound always holds. */
  lemma DeliveriesBounded(c: Config, ss: seq<World>, es: seq<Event>, x: ItemId, i: nat)
    requires IsTrace(c, ss, es) && ss[0] == START && i < |ss| && Sequential(ss, es, x)
    ensures DeliveriesOf(es, x, i) <= RequeuesOf(es, x, i) + LossesOf(ss, es, x, i)
                                      + if Dated(ss[i], x) || Confirmable(ss[i], x) then 1 else 0
  {
    DeliveriesAccount(c, ss, es, x, i);
    ReopensAreRequeues(ss, es, x, i);
  }

  /**
   Without such deaths, in a state with no delivery left to mark, the requeues and the date account for all
   deliveries.
  */
  lemma DeliveriesAccountedFor(c: Config, ss: seq<World>, es: seq<Event>, x: ItemId, i: nat)
    requires IsTrace(c, ss, es) && ss[0] == START && i < |ss| && Sequential(ss, es, x)
    requires forall n | 0 <= n < i :: !DiesUnconfirmed(ss[n], es[n], x)
    requires !Confirmable(ss[i], x)
    ensures DeliveriesOf(es, x, i) <= RequeuesOf(es, x, i) + if Dated(ss[i], x) then 1 else 0
  {
    NoLosses(ss, es, x, i);
    ReopensAreRequeues(ss, es, x, i);
    OneDeliveryPerRequeueIff(c, ss, es, x, i);
  }

  lemma {:induction false} NoLosses(ss: seq<World>, es: seq<Event>, x: ItemId, i: nat)
    requires i <= |es| <= |ss| && forall n | 0 <= n < i :: !DiesUnconfirmed(ss[n], es[n], x)
    ensures LossesOf(ss, es, x, i) == 0
  {
    if i > 0 { NoLosses(ss, es, x, i - 1); }
  }

  // ---------- Deliveries against claims, in all runs ----------

  /** The dispatchers that claimed `x` and have not delivered it yet. */
  ghost function Undelivered(s: World, x: ItemId): set<WorkerId> {
    set d | d in s.dispatchers && s.dispatchers[d].hold.item == x
            && (s.dispatchers[d].pc.Received? || s.dispatchers[d].pc.Delivering?)
  }

  lemma DispatcherUndelivered(c: Config, s: World, d: WorkerId, a: DispatcherStep, x: ItemId)
    requires DispatcherEnabled(s, d, a)
    ensures var u, u' := Undelivered(s, x), Undelivered(DispatcherApply(c, s, d, a), x);
            u' <= if a.Accept? && a.x == x then u + {d} else if a == Deliver(x) then u - {d} else u
    ensures a == Deliver(x) ==> d in Undelivered(s, x)
    ensures a.Accept? ==> d !in Undelivered(s, x)
  {
  }

  lemma UndeliveredStep(c: Config, s: World, e: Event, x: ItemId)
    requires CanStep(s, e)
    ensures |Undelivered(Next(c, s, e), x)| + (if IsDelivery(e, x) then 1 else 0)
            <= |Undelivered(s, x)| + (if IsAccept(e, x) then 1 else 0)
  {
    var u, u' := Undelivered(s, x), Undelivered(Next(c, s, e), x);
    if e.D? {
      DispatcherUndelivered(c, s, e.d, e.b, x);
      Smaller(u', if IsAccept(e, x) then u + {e.d} else if IsDelivery(e, x) then u - {e.d} else u);
    } else {
      assert u' == u;
    }
  }

  lemma Smaller(u': set<WorkerId>, u: set<WorkerId>)
    requires u' <= u
    ensures |u'| <= |u|
  {
    assert u == u' + (u - u');
  }

  /**
   Stale workers, crashes and deletions included, every delivery of an item uses up its own claim of the dispatch
   row.
  */
  lemma {:induction false} DeliveriesNeedClaims(c: Config, ss: seq<World>, es: seq<Event>, x: ItemId, i: nat)
    requires IsTrace(c, ss, es) && ss[0] == START && i < |ss|
    ensures DeliveriesOf(es, x, i) + |Undelivered(ss[i], x)| <= AcceptsOf(es, x, i)
  {
    if i > 0 {
      DeliveriesNeedClaims(c, ss, es, x, i - 1);
      assert CanStep(ss[i - 1], es[i - 1]) && ss[i] == Next(c, ss[i - 1], es[i - 1]);
      UndeliveredStep(c, ss[i - 1], es[i - 1], x);
    }
  }
}
