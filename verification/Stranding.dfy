/**
 No stranded work: an item still waiting to be analysed or dispatched always has a live row in one of the queues,
 or a process that is about to enqueue it.
 */
module Stranding {
  import opened LeaseQueue
  import opened Pipeline

  /** The item is stored, neither given up on nor dispatched. */
  predicate Pending(s: World, x: ItemId) {
    x in s.items && (s.items[x].status.New? || s.items[x].status.Analyzed?) && s.items[x].dispatchedAt.None?
  }

  predicate LiveRow(rows: Table, x: ItemId) {
    x in rows && !rows[x].state.Done?
  }

  /** Some process is between two statements, the second of which enqueues `x`. */
  ghost predicate AboutToEnqueue(s: World, x: ItemId) {
    || (exists w :: w in s.analyzers && s.analyzers[w].hold.item == x && s.analyzers[w].pc.Forwarding?)
    || (exists r :: r in s.readers && s.readers[r].item == x)
  }

  /** The analyzer row is live, and its owner is not about to close it. */
  predicate KeptByAnalyzer(s: World, x: ItemId) {
    && LiveRow(s.aq, x)
    && (s.aq[x].leaseOwner.Some? && s.aq[x].leaseOwner.value in s.analyzers ==>
          var work := s.analyzers[s.aq[x].leaseOwner.value];
          work.hold.item == x ==> !work.pc.Completing? && !work.pc.Failing?)
  }

  /** The dispatch row is live, and its owner is not about to close it. */
  predicate KeptByDispatcher(s: World, x: ItemId) {
    && LiveRow(s.dq, x)
    && (s.dq[x].leaseOwner.Some? && s.dq[x].leaseOwner.value in s.dispatchers ==>
          var work := s.dispatchers[s.dq[x].leaseOwner.value];
          work.hold.item == x ==> !work.pc.Closing?)
  }

  predicate RowsOk(s: World, x: ItemId) {
    (x in s.aq ==> RowOk(s.aq[x])) && (x in s.dq ==> RowOk(s.dq[x]))
  }

  ghost predicate Kept(s: World, x: ItemId) {
    && RowsOk(s, x)
    && (Pending(s, x) ==> KeptByAnalyzer(s, x) || KeptByDispatcher(s, x) || AboutToEnqueue(s, x))
  }

  /** Someone other than the process of event `e` is about to enqueue `x`. */
  ghost predicate OtherAboutToEnqueue(s: World, e: Event, x: ItemId) {
    || (exists w :: w in s.analyzers && s.analyzers[w].hold.item == x && s.analyzers[w].pc.Forwarding?
                    && !(e.A? && e.w == w))
    || (exists r :: r in s.readers && s.readers[r].item == x && !(e.R? && e.r == r))
  }

  /** The event removes a process that was about to enqueue `x`. */
  predicate RemovesCarrier(s: World, e: Event, x: ItemId) {
    match e
    case R(r, Vanish) => r in s.readers && s.readers[r].item == x
    case A(w, a) =>
      && (a.Crash? || a.ForwardFault?) && w in s.analyzers
      && s.analyzers[w].hold.item == x && s.analyzers[w].pc.Forwarding?
    case _ => false
  }

  /** The process was the item's last hope: no live row, and nobody else about to enqueue it. */
  ghost predicate Strikes(s: World, e: Event, x: ItemId) {
    && RemovesCarrier(s, e, x) && Pending(s, x)
    && !KeptByAnalyzer(s, x) && !KeptByDispatcher(s, x) && !OtherAboutToEnqueue(s, e, x)
  }

  lemma OthersCarryOn(c: Config, s: World, e: Event, x: ItemId)
    requires CanStep(s, e) && OtherAboutToEnqueue(s, e, x)
    ensures AboutToEnqueue(Next(c, s, e), x)
  {
    match e
    case A(w, a) => assert OnlyAnalyzer(s, AnalyzerApply(c, s, w, a), w);
    case D(d, a) => assert OnlyDispatcher(s, DispatcherApply(c, s, d, a), d);
    case R(r, a) => assert OnlyReader(s, ReaderApply(s, r, a), r);
    case W(b, a) => assert OnlyAdmin(s, AdminApply(s, b, a), b);
  }

  lemma AnalyzerKeeps(c: Config, s: World, w: WorkerId, a: AnalyzerStep, x: ItemId)
    requires AnalyzerEnabled(s, w, a) && Kept(s, x)
    requires !RemovesCarrier(s, A(w, a), x)
    ensures Kept(AnalyzerApply(c, s, w, a), x)
  {
    if OtherAboutToEnqueue(s, A(w, a), x) {
      OthersCarryOn(c, s, A(w, a), x);
    } else if a.Stumble? || a.Poison? || a.Mark? {
      AnalyzerMarkKeeps(c, s, w, a, x);
    } else if a.Take? || a.Forward? || a.Return? || a.Complete? || a.Fail? {
      AnalyzerQueueKeeps(c, s, w, a, x);
    } else {
      AnalyzerMoveKeeps(c, s, w, a, x);
    }
  }

  lemma AnalyzerMarkKeeps(c: Config, s: World, w: WorkerId, a: AnalyzerStep, x: ItemId)
    requires AnalyzerEnabled(s, w, a) && Kept(s, x) && (a.Stumble? || a.Poison? || a.Mark?)
    requires !OtherAboutToEnqueue(s, A(w, a), x)
    ensures Kept(AnalyzerApply(c, s, w, a), x)
  {
    var s' := AnalyzerApply(c, s, w, a);
    assert w in s'.analyzers && s'.analyzers[w].hold == s.analyzers[w].hold;
  }

  lemma AnalyzerQueueKeeps(c: Config, s: World, w: WorkerId, a: AnalyzerStep, x: ItemId)
    requires AnalyzerEnabled(s, w, a) && Kept(s, x) && (a.Take? || a.Forward? || a.Return? || a.Complete? || a.Fail?)
    requires !OtherAboutToEnqueue(s, A(w, a), x)
    ensures Kept(AnalyzerApply(c, s, w, a), x)
  {
  }

  lemma AnalyzerMoveKeeps(c: Config, s: World, w: WorkerId, a: AnalyzerStep, x: ItemId)
    requires AnalyzerEnabled(s, w, a) && Kept(s, x) && !RemovesCarrier(s, A(w, a), x)
    requires a.GiveUp? || a.Load? || a.LoadFault? || a.Answer? || a.Decide? || a.ForwardFault? || a.Crash?
    requires !OtherAboutToEnqueue(s, A(w, a), x)
    ensures Kept(AnalyzerApply(c, s, w, a), x)
  {
    var s' := AnalyzerApply(c, s, w, a);
    assert s'.aq == s.aq && s'.dq == s.dq && s'.items == s.items;
  }

  lemma RemovalStrikes(c: Config, s: World, e: Event, x: ItemId)
    requires CanStep(s, e) && Kept(s, x) && RemovesCarrier(s, e, x)
    ensures Kept(Next(c, s, e), x) <==> !Strikes(s, e, x)
  {
    if OtherAboutToEnqueue(s, e, x) {
      OthersCarryOn(c, s, e, x);
    }
  }

  lemma DispatcherKeeps(c: Config, s: World, d: WorkerId, a: DispatcherStep, x: ItemId)
    requires DispatcherEnabled(s, d, a) && Kept(s, x)
    ensures Kept(DispatcherApply(c, s, d, a), x)
  {
    var s' := DispatcherApply(c, s, d, a);
    assert s'.analyzers == s.analyzers && s'.readers == s.readers;
  }

  lemma ReaderKeeps(c: Config, s: World, r: ReaderId, a: ReaderStep, x: ItemId)
    requires ReaderEnabled(s, r, a) && Kept(s, x)
    requires !RemovesCarrier(s, R(r, a), x)
    ensures Kept(ReaderApply(s, r, a), x)
  {
    var s' := ReaderApply(s, r, a);
    if OtherAboutToEnqueue(s, R(r, a), x) {
      OthersCarryOn(c, s, R(r, a), x);
    } else if a.Insert? && a.x == x {
      assert s'.readers[r].item == x;
    }
  }

  lemma AdminKeeps(s: World, b: AdminId, a: AdminStep, x: ItemId)
    requires AdminEnabled(s, b, a) && Kept(s, x)
    ensures Kept(AdminApply(s, b, a), x)
  {
    var s' := AdminApply(s, b, a);
    assert s'.analyzers == s.analyzers && s'.readers == s.readers;
  }

  /** A step keeps the promise exactly when it does not remove the item's last hope. */
  lemma StepKeepsIff(c: Config, s: World, e: Event, x: ItemId)
    requires CanStep(s, e) && Kept(s, x)
    ensures Kept(Next(c, s, e), x) <==> !Strikes(s, e, x)
  {
    if RemovesCarrier(s, e, x) {
      RemovalStrikes(c, s, e, x);
    } else {
      match e
      case A(w, a) => AnalyzerKeeps(c, s, w, a, x);
      case D(d, a) => DispatcherKeeps(c, s, d, a, x);
      case R(r, a) => ReaderKeeps(c, s, r, a, x);
      case W(b, a) => AdminKeeps(s, b, a, x);
    }
  }

  /**
   However the services interleave, stale workers included, a pending item has a live row or is about to be
   enqueued.
  */
  lemma {:induction false} NothingStranded(c: Config, ss: seq<World>, es: seq<Event>, x: ItemId, i: nat)
    requires IsTrace(c, ss, es) && ss[0] == START && i < |ss|
    requires forall n | 0 <= n < i :: !Strikes(ss[n], es[n], x)
    ensures Kept(ss[i], x)
    ensures Pending(ss[i], x) ==> LiveRow(ss[i].aq, x) || LiveRow(ss[i].dq, x) || AboutToEnqueue(ss[i], x)
  {
    if i > 0 {
      NothingStranded(c, ss, es, x, i - 1);
      assert CanStep(ss[i - 1], es[i - 1]) && ss[i] == Next(c, ss[i - 1], es[i - 1]);
      StepKeepsIff(c, ss[i - 1], es[i - 1], x);
    }
  }

  /** A run keeps the promise in every state if and only if no event of it strikes. */
  lemma RunKeepsIff(c: Config, ss: seq<World>, es: seq<Event>, x: ItemId, i: nat)
    requires IsTrace(c, ss, es) && ss[0] == START && i < |ss|
    ensures (forall k | 0 <= k <= i :: Kept(ss[k], x)) <==> (forall n | 0 <= n < i :: !Strikes(ss[n], es[n], x))
  {
    if forall k | 0 <= k <= i :: Kept(ss[k], x) {
      forall n | 0 <= n < i ensures !Strikes(ss[n], es[n], x) {
        assert Kept(ss[n], x) && Kept(ss[n + 1], x) && CanStep(ss[n], es[n]) && ss[n + 1] == Next(c, ss[n], es[n]);
        StepKeepsIff(c, ss[n], es[n], x);
      }
    }
    if forall n | 0 <= n < i :: !Strikes(ss[n], es[n], x) {
      forall k | 0 <= k <= i ensures Kept(ss[k], x) {
        NothingStranded(c, ss, es, x, k);
      }
    }
  }

  /** With every process idle, a pending item has a row that some claim will be able to take. */
  lemma QuiescentMeansClaimable(c: Config, ss: seq<World>, es: seq<Event>, x: ItemId, i: nat) returns (t: Time)
    requires IsTrace(c, ss, es) && ss[0] == START && i < |ss|
    requires forall n | 0 <= n < i :: !Strikes(ss[n], es[n], x)
    requires Quiescent(ss[i]) && Pending(ss[i], x)
    ensures forall now | now >= t ::
              || (x in ss[i].aq && Claimable(ss[i].aq[x], now))
              || (x in ss[i].dq && Claimable(ss[i].dq[x], now))
  {
    NothingStranded(c, ss, es, x, i);
    var rows := if LiveRow(ss[i].aq, x) then ss[i].aq else ss[i].dq;
    assert LiveRow(rows, x) && RowOk(rows[x]);
    t := if rows[x].leaseUntil.Some? then rows[x].leaseUntil.value else 0;
  }

  /**
   A condition on crashes alone, for analyses that may overlap: no reader dies between storing and enqueuing, and an
   analyzer dies or fails at its enqueue only while its claim is still its own.
  */
  predicate Benign(s: World, e: Event) {
    match e
    case R(_, Vanish) => false
    case A(w, a) => (a.Crash? || a.ForwardFault?) && w in s.analyzers && s.analyzers[w].pc.Forwarding? ==>
                      OwnedBy(s.aq, s.analyzers[w].hold.item, w)
    case _ => true
  }

  lemma BenignNeverStrikes(s: World, e: Event, x: ItemId)
    requires CanStep(s, e) && Kept(s, x) && Benign(s, e)
    ensures !Strikes(s, e, x)
  {
  }

  /** Without such accidents nothing is ever stranded, whatever the interleaving of all four services. */
  lemma {:induction false} BenignRunsStrandNothing(c: Config, ss: seq<World>, es: seq<Event>, x: ItemId, i: nat)
    requires IsTrace(c, ss, es) && ss[0] == START && i < |ss|
    requires forall n | 0 <= n < |es| :: Benign(ss[n], es[n])
    ensures Kept(ss[i], x)
  {
    if i > 0 {
      BenignRunsStrandNothing(c, ss, es, x, i - 1);
      BenignNeverStrikes(ss[i - 1], es[i - 1], x);
      StepKeepsIff(c, ss[i - 1], es[i - 1], x);
    }
  }
}
