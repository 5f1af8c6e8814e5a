/**
 The stored analysis and the dispatch queue agree, and an analysis once stored is never made again.
 */
module StoredAnalysisAgrees {
  import opened Options
  import opened LeaseQueue
  import opened Pipeline
  import opened Deliveries

  predicate Handles(s: World, w: WorkerId, x: ItemId) {
    w in s.analyzers && s.analyzers[w].hold.item == x
  }

  /** Handlings of one item in the analyzer queue do not overlap. */
  ghost predicate SoloTake(s: World, e: Event) {
    e.A? && e.a.Take? ==> forall w :: !Handles(s, w, e.a.x)
  }

  /** loadStoredAnalyzed failed, and the analyzer goes on as if nothing were stored. */
  predicate LoadFails(e: Event) {
    e.A? && e.a.LoadFault?
  }

  predicate Computing(pc: AnalyzerPc) {
    pc.Analyzing? || pc.Marking?
  }

  /** What is known of `x` while it has one analyzer at most. */
  ghost predicate Agrees(s: World, x: ItemId) {
    var stored := StoredAnalysis(s.items, x);
    && Known(s, x)
    && (forall v, w | Handles(s, v, x) && Handles(s, w, x) :: v == w)
    && (x in s.dq ==> stored == Some(s.dq[x].payload))
    && (forall w | Handles(s, w, x) && Computing(s.analyzers[w].pc) :: stored.None?)
    && (forall w | Handles(s, w, x) && s.analyzers[w].pc.Forwarding? :: stored == Some(s.analyzers[w].pc.out))
    && (forall d | Dispatching(s, d, x) :: stored == Some(s.dispatchers[d].hold.payload))
    && (forall b | b in s.admins && s.admins[b].item == x && s.admins[b].stored.Some? :: stored == s.admins[b].stored)
    && (x in s.items && s.items[x].status.Dispatched? ==> stored.Some?)
  }

  lemma TakeAgrees(c: Config, s: World, w: WorkerId, y: ItemId, t: Time, x: ItemId)
    requires AnalyzerEnabled(s, w, Take(y, t)) && SoloTake(s, A(w, Take(y, t))) && Agrees(s, x)
    ensures Agrees(AnalyzerApply(c, s, w, Take(y, t)), x)
  {
    var s' := AnalyzerApply(c, s, w, Take(y, t));
    KnownStep(c, s, A(w, Take(y, t)), x);
    assert forall v | v != w :: Handles(s', v, x) <==> Handles(s, v, x);
    assert forall d :: Dispatching(s', d, x) <==> Dispatching(s, d, x);
  }

  /** Agreement does not look at anything but `x`, and at no counter but those of its handlers. */
  lemma OtherAnalyzerAgrees(c: Config, s: World, w: WorkerId, a: AnalyzerStep, x: ItemId)
    requires AnalyzerEnabled(s, w, a) && !a.Take? && !Handles(s, w, x) && Agrees(s, x)
    ensures Agrees(AnalyzerApply(c, s, w, a), x)
  {
    var s' := AnalyzerApply(c, s, w, a);
    KnownStep(c, s, A(w, a), x);
    assert forall v :: Handles(s', v, x) <==> Handles(s, v, x);
    assert forall d :: Dispatching(s', d, x) <==> Dispatching(s, d, x);
  }

  lemma HandlerMarkAgrees(c: Config, s: World, w: WorkerId, a: AnalyzerStep, x: ItemId)
    requires AnalyzerEnabled(s, w, a) && (a.Stumble? || a.Poison? || a.Mark?) && Handles(s, w, x) && Agrees(s, x)
    ensures Agrees(AnalyzerApply(c, s, w, a), x)
  {
    var s' := AnalyzerApply(c, s, w, a);
    assert s'.dq == s.dq && s'.dispatchers == s.dispatchers && s'.admins == s.admins;
    assert forall v | v != w :: Handles(s', v, x) <==> Handles(s, v, x);
  }

  lemma HandlerMoveAgrees(c: Config, s: World, w: WorkerId, a: AnalyzerStep, x: ItemId)
    requires AnalyzerEnabled(s, w, a) && !a.Take? && !a.LoadFault? && !a.Stumble? && !a.Poison? && !a.Mark?
    requires Handles(s, w, x) && Agrees(s, x)
    ensures Agrees(AnalyzerApply(c, s, w, a), x)
  {
    var s' := AnalyzerApply(c, s, w, a);
    assert s'.items == s.items && s'.dispatchers == s.dispatchers && s'.admins == s.admins;
    assert forall v | v != w :: Handles(s', v, x) <==> Handles(s, v, x);
    assert Handles(s', w, x) ==> Handles(s, w, x);
  }

  lemma DispatcherAgrees(c: Config, s: World, d: WorkerId, a: DispatcherStep, x: ItemId)
    requires DispatcherEnabled(s, d, a) && Agrees(s, x)
    ensures Agrees(DispatcherApply(c, s, d, a), x)
  {
    var s' := DispatcherApply(c, s, d, a);
    KnownStep(c, s, D(d, a), x);
    assert forall v :: Handles(s', v, x) <==> Handles(s, v, x);
    assert forall v | v != d :: Dispatching(s', v, x) <==> Dispatching(s, v, x);
    assert a.Accept? || (Dispatching(s', d, x) ==> Dispatching(s, d, x));
  }

  lemma ReaderAgrees(s: World, r: ReaderId, a: ReaderStep, x: ItemId)
    requires ReaderEnabled(s, r, a) && Agrees(s, x) && Known(ReaderApply(s, r, a), x)
    requires a.Cleanup? ==> x !in a.xs
    ensures Agrees(ReaderApply(s, r, a), x)
  {
    var s' := ReaderApply(s, r, a);
    assert forall v :: Handles(s', v, x) <==> Handles(s, v, x);
    assert forall v :: Dispatching(s', v, x) <==> Dispatching(s, v, x);
  }

  lemma AdminAgrees(s: World, b: AdminId, a: AdminStep, x: ItemId)
    requires AdminEnabled(s, b, a) && Agrees(s, x) && Known(AdminApply(s, b, a), x)
    requires a != Delete(x)
    ensures Agrees(AdminApply(s, b, a), x)
  {
    var s' := AdminApply(s, b, a);
    assert forall v :: Handles(s', v, x) <==> Handles(s, v, x);
    assert forall v :: Dispatching(s', v, x) <==> Dispatching(s, v, x);
  }

  lemma StepAgrees(c: Config, s: World, e: Event, x: ItemId)
    requires CanStep(s, e) && SoloTake(s, e) && !LoadFails(e) && !Forgets(e, x) && Agrees(s, x)
    ensures Agrees(Next(c, s, e), x)
  {
    match e
    case A(w, a) =>
      if a.Take? { TakeAgrees(c, s, w, a.x, a.t, x); }
      else if !Handles(s, w, x) { OtherAnalyzerAgrees(c, s, w, a, x); }
      else if a.Stumble? || a.Poison? || a.Mark? { HandlerMarkAgrees(c, s, w, a, x); }
      else { HandlerMoveAgrees(c, s, w, a, x); }
    case D(d, a) => DispatcherAgrees(c, s, d, a, x);
    case R(r, a) => KnownStep(c, s, e, x); ReaderAgrees(s, r, a, x);
    case W(b, a) => KnownStep(c, s, e, x); AdminAgrees(s, b, a, x);
  }

  /**
   Over the fresh, cached and requeued routes every dispatch row, and every message being dispatched, carries the
   analysis stored with the item.
   */
  lemma {:induction false} StoredAnalysisMatchesQueue(c: Config, ss: seq<World>, es: seq<Event>, x: ItemId, i: nat)
    requires IsTrace(c, ss, es) && ss[0] == START && i < |ss|
    requires forall n | 0 <= n < |es| :: SoloTake(ss[n], es[n]) && !LoadFails(es[n]) && !Forgets(es[n], x)
    ensures Agrees(ss[i], x)
    ensures x in ss[i].dq ==> StoredAnalysis(ss[i].items, x) == Some(ss[i].dq[x].payload)
  {
    if i > 0 {
      StoredAnalysisMatchesQueue(c, ss, es, x, i - 1);
      StepAgrees(c, ss[i - 1], es[i - 1], x);
    }
  }

  lemma StoredOnceStep(c: Config, s: World, e: Event, x: ItemId)
    requires CanStep(s, e) && !Forgets(e, x) && Agrees(s, x) && StoredAnalysis(s.items, x).Some?
    ensures StoredAnalysis(Next(c, s, e).items, x) == StoredAnalysis(s.items, x)
    ensures !(e.A? && e.a.Answer? && e.a.x == x)
  {
    assert e.A? ==> (Handles(s, e.w, x) ==> !Computing(s.analyzers[e.w].pc));
  }

  /** A stored analysis is never overwritten. */
  lemma {:induction false} StoredOnce(c: Config, ss: seq<World>, es: seq<Event>, x: ItemId, i: nat, j: nat)
    requires IsTrace(c, ss, es) && ss[0] == START && i <= j < |ss|
    requires forall n | 0 <= n < |es| :: SoloTake(ss[n], es[n]) && !LoadFails(es[n]) && !Forgets(es[n], x)
    requires StoredAnalysis(ss[i].items, x).Some?
    ensures StoredAnalysis(ss[j].items, x) == StoredAnalysis(ss[i].items, x)
  {
    if i < j {
      StoredOnce(c, ss, es, x, i, j - 1);
      StoredAnalysisMatchesQueue(c, ss, es, x, j - 1);
      StoredOnceStep(c, ss[j - 1], es[j - 1], x);
    }
  }

  /** Nor is it computed again: after it is stored no analysis of the item succeeds any more. */
  lemma NeverRecomputed(c: Config, ss: seq<World>, es: seq<Event>, x: ItemId, i: nat, j: nat)
    requires IsTrace(c, ss, es) && ss[0] == START && i <= j < |es|
    requires forall n | 0 <= n < |es| :: SoloTake(ss[n], es[n]) && !LoadFails(es[n]) && !Forgets(es[n], x)
    requires StoredAnalysis(ss[i].items, x).Some?
    ensures !(es[j].A? && es[j].a.Answer? && es[j].a.x == x)
  {
    StoredOnce(c, ss, es, x, i, j);
    StoredAnalysisMatchesQueue(c, ss, es, x, j);
    StoredOnceStep(c, ss[j], es[j], x);
  }
}
