/**
 Each queue of the pipeline, seen on its own, behaves like the queue of `LeaseQueue`: every step of any service is
 one queue event or leaves that queue idle. The queue theorems therefore hold of the pipeline.
 */
module Views {
  import opened LeaseQueue
  import opened Pipeline

  function RawView(s: World): QueueState {
    QueueState(s.aq, map w | w in s.analyzers :: s.analyzers[w].hold)
  }

  function DispatchView(s: World): QueueState {
    QueueState(s.dq, map d | d in s.dispatchers :: s.dispatchers[d].hold)
  }

  /** What the event means for analyzer_queue. */
  function OnRaw(s: World, e: Event): QueueEvent
    requires CanStep(s, e)
  {
    match e
    case A(w, Take(x, t)) => Claimed(w, x, t)
    case A(w, Return) => Released(w)
    case A(w, Complete(t)) => Finished(w, t)
    case A(w, Fail(t)) => Finished(w, t)
    case A(w, Crash) => Dropped(w)
    case R(r, Publish(t)) => Enqueued(s.readers[r].item, s.readers[r].payload, t)
    case W(b, Requeue(x, raw, t)) => if s.admins[b].stored.None? then Enqueued(x, raw, t) else Idle
    case W(_, Delete(x)) => Deleted(x)
    case _ => Idle
  }

  /** What the event means for dispatch_queue. */
  function OnDispatch(s: World, e: Event): QueueEvent
    requires CanStep(s, e)
  {
    match e
    case A(w, Forward(t)) => Enqueued(s.analyzers[w].hold.item, s.analyzers[w].pc.out, t)
    case D(d, Accept(x, t)) => Claimed(d, x, t)
    case D(d, GiveBack) => Released(d)
    case D(d, Close(t)) => Finished(d, t)
    case D(d, CheckFault) => Dropped(d)
    case D(d, Die) => Dropped(d)
    case W(b, Requeue(x, _, t)) => if s.admins[b].stored.Some? then Enqueued(x, s.admins[b].stored.value, t) else Idle
    case W(_, Delete(x)) => Deleted(x)
    case _ => Idle
  }

  lemma RawHolds(c: Config, s: World, e: Event)
    requires e.A? && CanStep(s, e) && Enabled(RawView(s), OnRaw(s, e))
    ensures RawView(Next(c, s, e)).holds == Apply(c.analyzerLease, RawView(s), OnRaw(s, e)).holds
  {
  }

  lemma RawStep(c: Config, s: World, e: Event)
    requires CanStep(s, e)
    ensures Enabled(RawView(s), OnRaw(s, e))
    ensures RawView(Next(c, s, e)) == Apply(c.analyzerLease, RawView(s), OnRaw(s, e))
  {
    if e.A? { RawHolds(c, s, e); }
    assert RawView(Next(c, s, e)).rows == Apply(c.analyzerLease, RawView(s), OnRaw(s, e)).rows;
  }

  lemma DispatchHolds(c: Config, s: World, e: Event)
    requires e.D? && CanStep(s, e) && Enabled(DispatchView(s), OnDispatch(s, e))
    ensures DispatchView(Next(c, s, e)).holds == Apply(c.dispatcherLease, DispatchView(s), OnDispatch(s, e)).holds
  {
  }

  lemma DispatchEnabled(s: World, e: Event)
    requires CanStep(s, e)
    ensures Enabled(DispatchView(s), OnDispatch(s, e))
  {
  }

  lemma DispatcherRows(c: Config, s: World, e: Event)
    requires CanStep(s, e) && e.D? && Enabled(DispatchView(s), OnDispatch(s, e))
    ensures DispatchView(Next(c, s, e)).rows == Apply(c.dispatcherLease, DispatchView(s), OnDispatch(s, e)).rows
  {
  }

  lemma OtherRows(c: Config, s: World, e: Event)
    requires CanStep(s, e) && !e.D? && Enabled(DispatchView(s), OnDispatch(s, e))
    ensures DispatchView(Next(c, s, e)).rows == Apply(c.dispatcherLease, DispatchView(s), OnDispatch(s, e)).rows
  {
  }

  lemma DispatchStep(c: Config, s: World, e: Event)
    requires CanStep(s, e)
    ensures Enabled(DispatchView(s), OnDispatch(s, e))
    ensures DispatchView(Next(c, s, e)) == Apply(c.dispatcherLease, DispatchView(s), OnDispatch(s, e))
  {
    DispatchEnabled(s, e);
    if e.D? {
      DispatcherRows(c, s, e);
      DispatchHolds(c, s, e);
    } else {
      OtherRows(c, s, e);
    }
  }

  ghost function RawViews(ss: seq<World>): seq<QueueState> {
    seq(|ss|, i requires 0 <= i < |ss| => RawView(ss[i]))
  }

  ghost function RawEvents(ss: seq<World>, es: seq<Event>): seq<QueueEvent>
    requires |ss| == |es| + 1 && forall i | 0 <= i < |es| :: CanStep(ss[i], es[i])
  {
    seq(|es|, i requires 0 <= i < |es| => OnRaw(ss[i], es[i]))
  }

  ghost function DispatchViews(ss: seq<World>): seq<QueueState> {
    seq(|ss|, i requires 0 <= i < |ss| => DispatchView(ss[i]))
  }

  ghost function DispatchEvents(ss: seq<World>, es: seq<Event>): seq<QueueEvent>
    requires |ss| == |es| + 1 && forall i | 0 <= i < |es| :: CanStep(ss[i], es[i])
  {
    seq(|es|, i requires 0 <= i < |es| => OnDispatch(ss[i], es[i]))
  }

  /** A pipeline trace is a run of the raw queue. */
  lemma RawRun(c: Config, ss: seq<World>, es: seq<Event>)
    requires IsTrace(c, ss, es)
    ensures IsRun(c.analyzerLease, RawViews(ss), RawEvents(ss, es))
  {
    forall i | 0 <= i < |es|
      ensures Enabled(RawViews(ss)[i], RawEvents(ss, es)[i])
      ensures RawViews(ss)[i + 1] == Apply(c.analyzerLease, RawViews(ss)[i], RawEvents(ss, es)[i])
    {
      RawStep(c, ss[i], es[i]);
    }
  }

  /** A pipeline trace is a run of the dispatch queue. */
  lemma DispatchRun(c: Config, ss: seq<World>, es: seq<Event>)
    requires IsTrace(c, ss, es)
    ensures IsRun(c.dispatcherLease, DispatchViews(ss), DispatchEvents(ss, es))
  {
    forall i | 0 <= i < |es|
      ensures Enabled(DispatchViews(ss)[i], DispatchEvents(ss, es)[i])
      ensures DispatchViews(ss)[i + 1] == Apply(c.dispatcherLease, DispatchViews(ss)[i], DispatchEvents(ss, es)[i])
    {
      DispatchStep(c, ss[i], es[i]);
    }
  }

  lemma StartViews()
    ensures RawView(START) == EMPTY && DispatchView(START) == EMPTY
  {
    assert RawView(START).holds == map[];
    assert DispatchView(START).holds == map[];
  }

  /** In both queues of every reachable world LEASED means owned and dated, and a row names its owner's own claim. */
  lemma RowsAreFenced(c: Config, ss: seq<World>, es: seq<Event>, i: nat)
    requires IsTrace(c, ss, es) && ss[0] == START && i < |ss|
    ensures Inv(RawView(ss[i])) && Inv(DispatchView(ss[i]))
  {
    StartViews();
    RawRun(c, ss, es);
    InvAlways(c.analyzerLease, RawViews(ss), RawEvents(ss, es), i);
    DispatchRun(c, ss, es);
    InvAlways(c.dispatcherLease, DispatchViews(ss), DispatchEvents(ss, es), i);
  }

  /** In both queues `delivery_count` counts the claims since the row was inserted; no requeue resets it. */
  lemma DeliveryCountsAreClaims(c: Config, ss: seq<World>, es: seq<Event>, x: ItemId, i: nat)
    requires IsTrace(c, ss, es) && ss[0] == START && i < |ss|
    ensures ClaimsSince(RawEvents(ss, es), x, i) == if x in ss[i].aq then ss[i].aq[x].deliveryCount else 0
    ensures ClaimsSince(DispatchEvents(ss, es), x, i) == if x in ss[i].dq then ss[i].dq[x].deliveryCount else 0
  {
    StartViews();
    RawRun(c, ss, es);
    DeliveryCountCountsClaims(c.analyzerLease, RawViews(ss), RawEvents(ss, es), x, i);
    DispatchRun(c, ss, es);
    DeliveryCountCountsClaims(c.dispatcherLease, DispatchViews(ss), DispatchEvents(ss, es), x, i);
  }

  /** Consecutive claims of an item by analyzers are a lease apart, unless it was freed early in between. */
  lemma AnalyzerLeasesExclude(c: Config, ss: seq<World>, es: seq<Event>, x: ItemId, i: nat, j: nat)
    requires IsTrace(c, ss, es) && i < j < |es| && IsTake(es[i], x) && IsTake(es[j], x)
    requires forall k | i < k < j :: !IsTake(es[k], x)
    ensures es[j].a.t >= es[i].a.t + c.analyzerLease
            || exists k :: i < k < j && FreesEarly(RawView(ss[k]), OnRaw(ss[k], es[k]), x)
  {
    var qs, qe := RawViews(ss), RawEvents(ss, es);
    RawRun(c, ss, es);
    forall k | i < k < j ensures !(qe[k].Claimed? && qe[k].x == x) {
      RawEventMeans(ss[k], es[k]);
      assert !IsTake(es[k], x);
    }
    LeaseExclusion(c.analyzerLease, qs, qe, x, i, j);
    if k :| i < k < j && FreesEarly(qs[k], qe[k], x) {
      assert FreesEarly(RawView(ss[k]), OnRaw(ss[k], es[k]), x);
    }
  }

  /** Consecutive claims of an item by dispatchers are a lease apart, unless it was freed early in between. */
  lemma DispatcherLeasesExclude(c: Config, ss: seq<World>, es: seq<Event>, x: ItemId, i: nat, j: nat)
    requires IsTrace(c, ss, es) && i < j < |es| && IsAccept(es[i], x) && IsAccept(es[j], x)
    requires forall k | i < k < j :: !IsAccept(es[k], x)
    ensures es[j].b.t >= es[i].b.t + c.dispatcherLease
            || exists k :: i < k < j && FreesEarly(DispatchView(ss[k]), OnDispatch(ss[k], es[k]), x)
  {
    var qs, qe := DispatchViews(ss), DispatchEvents(ss, es);
    DispatchRun(c, ss, es);
    forall k | i < k < j ensures !(qe[k].Claimed? && qe[k].x == x) {
      DispatchEventMeans(ss[k], es[k]);
      assert !IsAccept(es[k], x);
    }
    LeaseExclusion(c.dispatcherLease, qs, qe, x, i, j);
    if k :| i < k < j && FreesEarly(qs[k], qe[k], x) {
      assert FreesEarly(DispatchView(ss[k]), OnDispatch(ss[k], es[k]), x);
    }
  }

  /** A Complete, Fail or Return that changes analyzer_queue is the latest claimer's, on the payload it claimed. */
  lemma OnlyTheLatestAnalyzerCloses(c: Config, ss: seq<World>, es: seq<Event>, n: nat)
    requires IsTrace(c, ss, es) && ss[0] == START && n < |es|
    requires es[n].A? && (es[n].a.Complete? || es[n].a.Fail? || es[n].a.Return?) && ss[n + 1].aq != ss[n].aq
    ensures CanStep(ss[n], es[n])
    ensures var h := ss[n].analyzers[es[n].w].hold;
            && OwnedBy(ss[n].aq, h.item, es[n].w) && ss[n].aq[h.item].state.Leased?
            && ss[n].aq[h.item].payload == h.payload && ss[n].aq[h.item].deliveryCount == h.attempt
  {
    RowsAreFenced(c, ss, es, n);
    RawStep(c, ss[n], es[n]);
    assert ss[n + 1] == Next(c, ss[n], es[n]);
    OnlyTheLatestClaimWrites(c.analyzerLease, RawView(ss[n]), OnRaw(ss[n], es[n]));
  }

  /** A Close or GiveBack that changes dispatch_queue is the latest claimer's, on the payload it claimed. */
  lemma OnlyTheLatestDispatcherCloses(c: Config, ss: seq<World>, es: seq<Event>, n: nat)
    requires IsTrace(c, ss, es) && ss[0] == START && n < |es|
    requires es[n].D? && (es[n].b.Close? || es[n].b.GiveBack?) && ss[n + 1].dq != ss[n].dq
    ensures CanStep(ss[n], es[n])
    ensures var h := ss[n].dispatchers[es[n].d].hold;
            && OwnedBy(ss[n].dq, h.item, es[n].d) && ss[n].dq[h.item].state.Leased?
            && ss[n].dq[h.item].payload == h.payload && ss[n].dq[h.item].deliveryCount == h.attempt
  {
    RowsAreFenced(c, ss, es, n);
    DispatchStep(c, ss[n], es[n]);
    assert ss[n + 1] == Next(c, ss[n], es[n]);
    OnlyTheLatestClaimWrites(c.dispatcherLease, DispatchView(ss[n]), OnDispatch(ss[n], es[n]));
  }

  /** Analyzers take items in the order in which they were first enqueued since their last deletion. */
  lemma RawClaimsAreFifo(c: Config, ss: seq<World>, es: seq<Event>, j: nat, y: ItemId) returns (i: nat, k: nat)
    requires IsTrace(c, ss, es) && ss[0] == START && j < |es| && es[j].A? && es[j].a.Take?
    requires y in ss[j].aq && Claimable(ss[j].aq[y], es[j].a.t)
    ensures i < j && k < j && OnRaw(ss[i], es[i]).Enqueued? && OnRaw(ss[k], es[k]).Enqueued?
    ensures OnRaw(ss[i], es[i]).x == es[j].a.x && es[j].a.x !in ss[i].aq
    ensures OnRaw(ss[k], es[k]).x == y && y !in ss[k].aq
    ensures OnRaw(ss[i], es[i]).t <= OnRaw(ss[k], es[k]).t
    ensures forall n | i < n < j :: OnRaw(ss[n], es[n]) != Deleted(es[j].a.x)
    ensures forall n | k < n < j :: OnRaw(ss[n], es[n]) != Deleted(y)
  {
    var qs, qe := RawViews(ss), RawEvents(ss, es);
    StartViews();
    RawRun(c, ss, es);
    i, k := ClaimsAreFifo(c.analyzerLease, qs, qe, j, y);
    forall n | i < n < j ensures OnRaw(ss[n], es[n]) != Deleted(es[j].a.x) { assert qe[n] == OnRaw(ss[n], es[n]); }
    forall n | k < n < j ensures OnRaw(ss[n], es[n]) != Deleted(y) { assert qe[n] == OnRaw(ss[n], es[n]); }
  }

  /** So do dispatchers. */
  lemma DispatchClaimsAreFifo(c: Config, ss: seq<World>, es: seq<Event>, j: nat, y: ItemId) returns (i: nat, k: nat)
    requires IsTrace(c, ss, es) && ss[0] == START && j < |es| && es[j].D? && es[j].b.Accept?
    requires y in ss[j].dq && Claimable(ss[j].dq[y], es[j].b.t)
    ensures i < j && k < j && OnDispatch(ss[i], es[i]).Enqueued? && OnDispatch(ss[k], es[k]).Enqueued?
    ensures OnDispatch(ss[i], es[i]).x == es[j].b.x && es[j].b.x !in ss[i].dq
    ensures OnDispatch(ss[k], es[k]).x == y && y !in ss[k].dq
    ensures OnDispatch(ss[i], es[i]).t <= OnDispatch(ss[k], es[k]).t
    ensures forall n | i < n < j :: OnDispatch(ss[n], es[n]) != Deleted(es[j].b.x)
    ensures forall n | k < n < j :: OnDispatch(ss[n], es[n]) != Deleted(y)
  {
    var qs, qe := DispatchViews(ss), DispatchEvents(ss, es);
    StartViews();
    DispatchRun(c, ss, es);
    i, k := ClaimsAreFifo(c.dispatcherLease, qs, qe, j, y);
    forall n | i < n < j ensures OnDispatch(ss[n], es[n]) != Deleted(es[j].b.x) {
      assert qe[n] == OnDispatch(ss[n], es[n]);
    }
    forall n | k < n < j ensures OnDispatch(ss[n], es[n]) != Deleted(y) { assert qe[n] == OnDispatch(ss[n], es[n]); }
  }

  /** In both queues `enqueued_at` is the time carried by the event that inserted the row. */
  lemma PlacesAreInsertions(c: Config, ss: seq<World>, es: seq<Event>, x: ItemId, j: nat) returns (i: nat, k: nat)
    requires IsTrace(c, ss, es) && ss[0] == START && j < |ss|
    ensures x in ss[j].aq ==> i < j && x !in ss[i].aq && OnRaw(ss[i], es[i]).Enqueued? && OnRaw(ss[i], es[i]).x == x
                              && ss[j].aq[x].enqueuedAt == OnRaw(ss[i], es[i]).t
    ensures x in ss[j].dq ==> k < j && x !in ss[k].dq && OnDispatch(ss[k], es[k]).Enqueued?
                              && OnDispatch(ss[k], es[k]).x == x && ss[j].dq[x].enqueuedAt == OnDispatch(ss[k], es[k]).t
  {
    StartViews();
    i, k := 0, 0;
    if x in ss[j].aq {
      RawRun(c, ss, es);
      i := PlaceIsInsertion(c.analyzerLease, RawViews(ss), RawEvents(ss, es), x, j);
    }
    if x in ss[j].dq {
      DispatchRun(c, ss, es);
      k := PlaceIsInsertion(c.dispatcherLease, DispatchViews(ss), DispatchEvents(ss, es), x, j);
    }
  }

  lemma RawEventMeans(s: World, e: Event)
    requires CanStep(s, e)
    ensures OnRaw(s, e).Claimed? ==> e.A? && e.a.Take? && e.a.x == OnRaw(s, e).x && e.w == OnRaw(s, e).w
    ensures OnRaw(s, e).Finished? ==> e.A? && (e.a.Complete? || e.a.Fail?) && e.w == OnRaw(s, e).w
  {
  }

  lemma DispatchEventMeans(s: World, e: Event)
    requires CanStep(s, e)
    ensures OnDispatch(s, e).Claimed? ==>
              e.D? && e.b.Accept? && e.b.x == OnDispatch(s, e).x && e.d == OnDispatch(s, e).w
    ensures OnDispatch(s, e).Finished? ==> e.D? && e.b.Close? && e.d == OnDispatch(s, e).w
  {
  }

  predicate Closes(e: Event, w: WorkerId) { e.A? && (e.a.Complete? || e.a.Fail?) && e.w == w }
  predicate Settles(e: Event, d: WorkerId) { e.D? && e.b.Close? && e.d == d }

  /** A raw enqueue cannot be swallowed by a worker already busy with the item: a later claim closes the row. */
  lemma RawEnqueueIsAnalysed(c: Config, ss: seq<World>, es: seq<Event>, i: nat, j: nat, x: ItemId)
    returns (k: nat, m: nat)
    requires IsTrace(c, ss, es) && ss[0] == START && i < j <= |es|
    requires OnRaw(ss[i], es[i]).Enqueued? && OnRaw(ss[i], es[i]).x == x
    requires x in ss[j].aq && ss[j].aq[x].state.Done?
    ensures i < k < m < j && IsTake(es[k], x) && Closes(es[m], es[k].w)
    ensures forall n | k < n < m :: !Touches(OnRaw(ss[n], es[n]), es[k].w, x)
  {
    var qs, qe := RawViews(ss), RawEvents(ss, es);
    StartViews();
    RawRun(c, ss, es);
    k, m := NoLostEnqueue(c.analyzerLease, qs, qe, i, j, x);
    RawEventMeans(ss[k], es[k]);
    RawEventMeans(ss[m], es[m]);
    forall n | k < n < m ensures !Touches(OnRaw(ss[n], es[n]), es[k].w, x) {
      assert qe[n] == OnRaw(ss[n], es[n]);
    }
  }

  /** A message enqueued for dispatch is closed only by a dispatcher that claimed it afterwards. */
  lemma ForwardIsDispatched(c: Config, ss: seq<World>, es: seq<Event>, i: nat, j: nat, x: ItemId)
    returns (k: nat, m: nat)
    requires IsTrace(c, ss, es) && ss[0] == START && i < j <= |es|
    requires OnDispatch(ss[i], es[i]).Enqueued? && OnDispatch(ss[i], es[i]).x == x
    requires x in ss[j].dq && ss[j].dq[x].state.Done?
    ensures i < k < m < j && IsAccept(es[k], x) && Settles(es[m], es[k].d)
    ensures forall n | k < n < m :: !Touches(OnDispatch(ss[n], es[n]), es[k].d, x)
  {
    var qs, qe := DispatchViews(ss), DispatchEvents(ss, es);
    StartViews();
    DispatchRun(c, ss, es);
    k, m := NoLostEnqueue(c.dispatcherLease, qs, qe, i, j, x);
    DispatchEventMeans(ss[k], es[k]);
    DispatchEventMeans(ss[m], es[m]);
    forall n | k < n < m ensures !Touches(OnDispatch(ss[n], es[n]), es[k].d, x) {
      assert qe[n] == OnDispatch(ss[n], es[n]);
    }
  }
}
