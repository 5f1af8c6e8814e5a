/**
 What the theorems' hypotheses rule out: concrete runs that strand an item or deliver it twice.
 */
module Findings {
  import opened Options
  import opened LeaseQueue
  import opened Pipeline
  import opened Stranding
  import opened Deliveries

  /** Every process is idle, the item is waiting, and no queue will ever give it to a worker. */
  predicate Stranded(s: World, x: ItemId) {
    Quiescent(s) && Pending(s, x) && !LiveRow(s.aq, x) && !LiveRow(s.dq, x)
  }

  const JOB := Payload(1, true)
  const ANALYSIS := Payload(2, true)
  const CFG := Config(3, 1, 10, 10)

  /** One more event, and what it does to the two counts. */
  lemma Happens(l0: Log, e: Event) returns (l: Log)
    requires Good(CFG, l0) && CanStep(Now(l0), e)
    ensures Good(CFG, l) && l.ss[0] == l0.ss[0] && Now(l) == Next(CFG, Now(l0), e)
    ensures DeliveriesOf(l.es, 7, |l.es|) == DeliveriesOf(l0.es, 7, |l0.es|) + if IsDelivery(e, 7) then 1 else 0
    ensures RequeuesOf(l.es, 7, |l.es|) == RequeuesOf(l0.es, 7, |l0.es|) + if IsRequeue(e, 7) then 1 else 0
  {
    l := Then(CFG, l0, e);
    CountPrefix(l0.es, l.es, (e: Event) => IsDelivery(e, 7), |l0.es|);
    CountPrefix(l0.es, l.es, (e: Event) => IsRequeue(e, 7), |l0.es|);
  }

  lemma {:induction false} CountPrefix(es: seq<Event>, es': seq<Event>, p: Event -> bool, i: nat)
    requires es <= es' && i <= |es|
    ensures Count(es, p, i) == Count(es', p, i)
  {
    if i > 0 { CountPrefix(es, es', p, i - 1); }
  }

  /** A reader that dies between storing an item and enqueuing it leaves the item behind for good. */
  lemma ReaderDeathStrands() returns (l: Log)
    ensures Good(CFG, l) && l.ss[0] == START && Stranded(Now(l), 7)
  {
    l := Log([START], []);
    l := Then(CFG, l, R(0, Insert(7, JOB)));
    l := Then(CFG, l, R(0, Vanish));
    assert Now(l).readers == map[];
  }

  /** The item is published, and nobody has claimed it. */
  lemma Published() returns (l: Log)
    ensures Good(CFG, l) && l.ss[0] == START && DeliveriesOf(l.es, 7, |l.es|) == RequeuesOf(l.es, 7, |l.es|) == 0
    ensures Now(l) == World(map[7 := Row(JOB, Queued, 0, None, None, 0, None)], map[],
                            map[7 := Item(New, None, None)], map[], map[], map[], map[])
  {
    l := Log([START], []);
    l := Happens(l, R(0, Insert(7, JOB)));
    l := Happens(l, R(0, Publish(0)));
    assert Now(l).aq == map[7 := Row(JOB, Queued, 0, None, None, 0, None)];
    assert Now(l).items == map[7 := Item(New, None, None)];
    assert Now(l).readers == map[];
  }

  const FRESH := map[7 := Item(New, None, None)]
  const GIVEN_UP := map[7 := Item(Failed, None, None)]

  /** The item is there, without an analysis and not dispatched. */
  predicate Bare(items: Items) {
    7 in items && items[7].analyzed.None? && !items[7].status.Dispatched?
  }

  /** Analyzer `w` claims item 7 and finds nothing stored. */
  lemma Begin(l0: Log, w: WorkerId, t: Time) returns (l: Log)
    requires Good(CFG, l0) && w !in Now(l0).analyzers && Oldest(Now(l0).aq, 7, t)
    requires Now(l0).aq[7].payload.decodable && Bare(Now(l0).items)
    ensures Good(CFG, l) && l.ss[0] == l0.ss[0] && l.es == l0.es + [A(w, Take(7, t)), A(w, Load)]
    ensures var s := Now(l0);
            Now(l) == s.(aq := Claim(s.aq, 7, w, t, 10),
                         analyzers := s.analyzers[w := AnalyzerWork(Taken(s.aq, 7, t, 10), Analyzing(1))])
  {
    l := Then(CFG, l0, A(w, Take(7, t)));
    l := Then(CFG, l, A(w, Load));
  }

  /** Its only attempt gets an answer that cannot be retried. */
  lemma Misjudge(l0: Log, w: WorkerId) returns (l: Log)
    requires Good(CFG, l0) && w in Now(l0).analyzers && Now(l0).analyzers[w].pc == Analyzing(1)
    requires Now(l0).analyzers[w].hold.item == 7 && Now(l0).items == FRESH
    ensures Good(CFG, l) && l.ss[0] == l0.ss[0]
    ensures var s := Now(l0);
            Now(l) == s.(items := GIVEN_UP,
                         analyzers := s.analyzers[w := AnalyzerWork(s.analyzers[w].hold, Deciding(true))])
  {
    l := Then(CFG, l0, A(w, Stumble(7, false, true)));
    assert Now(l).items == GIVEN_UP;
  }

  /** So it decides to quarantine the item. */
  lemma Judge(l0: Log, w: WorkerId) returns (l: Log)
    requires Good(CFG, l0) && w in Now(l0).analyzers && Now(l0).analyzers[w].pc == Deciding(true)
    ensures Good(CFG, l) && l.ss[0] == l0.ss[0]
    ensures var s := Now(l0);
            Now(l) == s.(analyzers := s.analyzers[w := AnalyzerWork(s.analyzers[w].hold, Poisoning)])
  {
    l := Then(CFG, l0, A(w, Decide(false)));
  }

  /** Marks the item, which is FAILED already. */
  lemma Poisoned(l0: Log, w: WorkerId) returns (l: Log)
    requires Good(CFG, l0) && w in Now(l0).analyzers && Now(l0).analyzers[w].pc == Poisoning
    requires Now(l0).analyzers[w].hold.item == 7 && Now(l0).items == GIVEN_UP
    ensures Good(CFG, l) && l.ss[0] == l0.ss[0]
    ensures var s := Now(l0); Now(l) == s.(analyzers := s.analyzers[w := s.analyzers[w].(pc := Failing)])
  {
    l := Then(CFG, l0, A(w, Poison));
    assert Now(l).items == GIVEN_UP;
  }

  lemma Condemn(l0: Log, w: WorkerId, t: Time) returns (l: Log)
    requires Good(CFG, l0) && w in Now(l0).analyzers && Now(l0).analyzers[w].pc == Poisoning
    requires Now(l0).analyzers[w].hold.item == 7 && Now(l0).items == GIVEN_UP
    ensures Good(CFG, l) && l.ss[0] == l0.ss[0]
    ensures var s := Now(l0); Now(l) == s.(aq := Finish(s.aq, 7, w, t), analyzers := s.analyzers - {w})
  {
    l := Poisoned(l0, w);
    l := Then(CFG, l, A(w, Fail(t)));
    assert Now(l).analyzers == Now(l0).analyzers - {w};
  }

  /** Analyzer `w` claims the item and quarantines it at once. */
  lemma Quarantine(l0: Log, w: WorkerId, t: Time) returns (l: Log)
    requires Good(CFG, l0) && w !in Now(l0).analyzers && Oldest(Now(l0).aq, 7, t)
    requires Now(l0).aq[7].payload.decodable && Now(l0).items == FRESH
    ensures Good(CFG, l) && l.ss[0] == l0.ss[0]
    ensures var s := Now(l0); Now(l) == s.(aq := Finish(Claim(s.aq, 7, w, t, 10), 7, w, t), items := GIVEN_UP)
  {
    l := Begin(l0, w, t);
    l := Misjudge(l, w);
    l := Judge(l, w);
    l := Condemn(l, w, t);
    assert Now(l).analyzers == Now(l0).analyzers;
  }

  /** Analyzer 1 has claimed the published item and is analysing it. */
  lemma UnderAnalysis() returns (l: Log)
    ensures Good(CFG, l) && l.ss[0] == START && DeliveriesOf(l.es, 7, |l.es|) == RequeuesOf(l.es, 7, |l.es|) == 0
    ensures Now(l) == World(map[7 := Row(JOB, Leased, 0, Some(1), Some(10), 1, None)], map[], FRESH,
                            map[1 := AnalyzerWork(Hold(7, JOB, 1, 10), Analyzing(1))], map[], map[], map[])
  {
    l := Published();
    l := Happens(l, A(1, Take(7, 0)));
    l := Happens(l, A(1, Load));
    assert Now(l).aq == map[7 := Row(JOB, Leased, 0, Some(1), Some(10), 1, None)];
  }

  /** Analyzer 1 has analysed the published item and is about to store the result. */
  lemma Analysed() returns (l: Log)
    ensures Good(CFG, l) && l.ss[0] == START && DeliveriesOf(l.es, 7, |l.es|) == RequeuesOf(l.es, 7, |l.es|) == 0
    ensures Now(l) == World(map[7 := Row(JOB, Leased, 0, Some(1), Some(10), 1, None)], map[], FRESH,
                            map[1 := AnalyzerWork(Hold(7, JOB, 1, 10), Marking(ANALYSIS))], map[], map[], map[])
  {
    l := UnderAnalysis();
    l := Happens(l, A(1, Answer(7, ANALYSIS)));
  }

  /**
   A stale analyzer overwrites the FAILED left by the worker that quarantined the item, then dies before it enqueues:
   the item reads ANALYZED and nobody has it.
   */
  lemma StaleDeathStrands() returns (l: Log)
    ensures Good(CFG, l) && l.ss[0] == START && Stranded(Now(l), 7)
  {
    l := Analysed();
    l := Quarantine(l, 2, 20);
    l := Then(CFG, l, A(1, Mark));
    l := Then(CFG, l, A(1, Crash));
    assert Now(l).analyzers == map[];
  }

  /**
   The item is deleted while analyzer 1 has it, stored again, and its enqueue fails; the analyzer then marks it ANALYZED
   and dies. No two analyses overlapped.
   */
  lemma FailedRepublishStrands() returns (l: Log)
    ensures Good(CFG, l) && l.ss[0] == START && Stranded(Now(l), 7)
  {
    l := Republished();
    l := Then(CFG, l, A(1, Mark));
    l := Then(CFG, l, A(1, Crash));
    assert Now(l).analyzers == map[];
  }

  lemma Republished() returns (l: Log)
    ensures Good(CFG, l) && l.ss[0] == START
    ensures Now(l) == World(map[], map[], GIVEN_UP, map[1 := AnalyzerWork(Hold(7, JOB, 1, 10), Marking(ANALYSIS))],
                            map[], map[], map[])
  {
    l := Analysed();
    l := Then(CFG, l, W(0, Delete(7)));
    l := Then(CFG, l, R(0, Insert(7, JOB)));
    l := Then(CFG, l, R(0, PublishFault));
    assert Now(l).aq == map[] && Now(l).items == GIVEN_UP && Now(l).readers == map[];
  }

  // ---------- Upsert and bookkeeping, taken apart ----------

  function ReaderUpsert(s: World, r: ReaderId, t: Time): World
    requires r in s.readers
  {
    s.(aq := Enqueue(s.aq, s.readers[r].item, s.readers[r].payload, t))
  }

  function ReaderBook(s: World, r: ReaderId): World
    requires r in s.readers
  {
    s.(items := ReaderMark(s.items, s.readers[r].item, New), readers := s.readers - {r})
  }

  /** Together, with nothing between them, they are the reader's step. */
  lemma PublishIsBoth(s: World, r: ReaderId, t: Time)
    requires r in s.readers
    ensures ReaderApply(s, r, Publish(t)) == ReaderBook(ReaderUpsert(s, r, t), r)
  {
  }

  /** With a quarantine in between, the bookkeeping turns the given-up item back into NEW, and no queue has it. */
  lemma SplitPublishStrands() returns (before: Log, between: Log)
    ensures Good(CFG, before) && before.ss[0] == START && 0 in Now(before).readers
    ensures Good(CFG, between) && between.ss[0] == ReaderUpsert(Now(before), 0, 0) && 0 in Now(between).readers
    ensures Stranded(ReaderBook(Now(between), 0), 7)
  {
    before := Then(CFG, Log([START], []), R(0, Insert(7, JOB)));
    assert Now(before).items == FRESH;
    between := Quarantine(Log([ReaderUpsert(Now(before), 0, 0)], []), 1, 0);
    assert ReaderBook(Now(between), 0).readers == map[];
  }

  /** The raw requeue's upsert and update. */
  function RequeueUpsert(s: World, b: AdminId, raw: Payload, t: Time): World
    requires b in s.admins
  {
    s.(aq := Enqueue(s.aq, s.admins[b].item, raw, t))
  }

  function RequeueBook(s: World, b: AdminId): World
    requires b in s.admins
  {
    s.(items := Reopen(s.items, s.admins[b].item, New), admins := s.admins - {b})
  }

  lemma RequeueIsBoth(s: World, b: AdminId, raw: Payload, t: Time)
    requires b in s.admins && s.admins[b].stored.None?
    ensures AdminApply(s, b, Requeue(s.admins[b].item, raw, t)) == RequeueBook(RequeueUpsert(s, b, raw, t), b)
  {
  }

  lemma AnsweredAndMarked(l0: Log, w: WorkerId) returns (l: Log)
    requires Good(CFG, l0) && w in Now(l0).analyzers && Now(l0).analyzers[w].pc.Analyzing?
    requires Now(l0).analyzers[w].hold.item == 7
    ensures Good(CFG, l) && l.ss[0] == l0.ss[0]
    ensures var s := Now(l0);
            Now(l) == s.(items := AnalyzerMark(s.items, 7, Analyzed, Some(ANALYSIS)),
                         analyzers := s.analyzers[w := s.analyzers[w].(pc := Forwarding(ANALYSIS))])
  {
    l := Then(CFG, l0, A(w, Answer(7, ANALYSIS)));
    l := Then(CFG, l, A(w, Mark));
  }

  lemma Forwards(l0: Log, w: WorkerId, t: Time) returns (l: Log)
    requires Good(CFG, l0) && w in Now(l0).analyzers && Now(l0).analyzers[w].pc == Forwarding(ANALYSIS)
    requires Now(l0).analyzers[w].hold.item == 7
    ensures Good(CFG, l) && l.ss[0] == l0.ss[0]
    ensures var s := Now(l0);
            Now(l) == s.(dq := Enqueue(s.dq, 7, ANALYSIS, t),
                         analyzers := s.analyzers[w := s.analyzers[w].(pc := Completing)])
  {
    l := Then(CFG, l0, A(w, Forward(t)));
  }

  /** The analysis of item 7 succeeds and goes to the dispatch queue. */
  lemma Analyse(l0: Log, w: WorkerId, t: Time) returns (l: Log)
    requires Good(CFG, l0) && w !in Now(l0).analyzers && Oldest(Now(l0).aq, 7, t)
    requires Now(l0).aq[7].payload.decodable && Bare(Now(l0).items)
    ensures Good(CFG, l) && l.ss[0] == l0.ss[0]
    ensures var s := Now(l0);
            Now(l) == s.(aq := Claim(s.aq, 7, w, t, 10),
                         dq := Enqueue(s.dq, 7, ANALYSIS, t),
                         items := AnalyzerMark(s.items, 7, Analyzed, Some(ANALYSIS)),
                         analyzers := s.analyzers[w := AnalyzerWork(Taken(s.aq, 7, t, 10), Completing)])
  {
    l := Begin(l0, w, t);
    l := AnsweredAndMarked(l, w);
    l := Forwards(l, w, t);
  }

  lemma Finished(l0: Log, w: WorkerId, t: Time) returns (l: Log)
    requires Good(CFG, l0) && w in Now(l0).analyzers && Now(l0).analyzers[w].pc.Completing?
    ensures Good(CFG, l) && l.ss[0] == l0.ss[0]
    ensures var s := Now(l0);
            Now(l) == s.(aq := Finish(s.aq, s.analyzers[w].hold.item, w, t), analyzers := s.analyzers - {w})
  {
    l := Then(CFG, l0, A(w, Complete(t)));
  }

  /** Dispatcher `d` claims item 7, sends it, marks it and closes its claim. */
  lemma SentAndClosed(l0: Log, d: WorkerId, t: Time) returns (l: Log)
    requires Good(CFG, l0) && d !in Now(l0).dispatchers && Oldest(Now(l0).dq, 7, t)
    requires Now(l0).dq[7].payload.decodable && !AlreadyDispatched(Now(l0).items, 7)
    ensures Good(CFG, l) && l.ss[0] == l0.ss[0]
    ensures var s := Now(l0);
            Now(l) == s.(dq := Finish(Claim(s.dq, 7, d, t, 10), 7, d, t),
                         items := DispatcherMark(s.items, 7, Dispatched, Some(t)))
  {
    l := SendOff(l0, d, t);
    l := Then(CFG, l, D(d, Confirm(t)));
    l := Then(CFG, l, D(d, Close(t)));
    assert Now(l).dispatchers == Now(l0).dispatchers;
  }

  /** A given-up item, and a web-admin request that has read it. */
  lemma Asked() returns (l: Log)
    ensures Good(CFG, l) && l.ss[0] == START
    ensures Now(l).items == GIVEN_UP && 7 in Now(l).aq && Now(l).aq.Keys == {7} && Now(l).dq == map[]
    ensures Now(l).analyzers == map[] && Now(l).dispatchers == map[] && Now(l).readers == map[]
    ensures Now(l).admins == map[0 := AdminWork(7, None)]
  {
    l := Published();
    l := Quarantine(l, 1, 0);
    l := Then(CFG, l, W(0, Ask(7)));
  }

  /**
   With an analysis and a dispatch between the upsert and the update of a requeue, the delivered item ends NEW, without
   a date and in no queue.
   */
  lemma SplitRequeueStrands() returns (before: Log, between: Log)
    ensures Good(CFG, before) && before.ss[0] == START && 0 in Now(before).admins
    ensures Good(CFG, between) && between.ss[0] == RequeueUpsert(Now(before), 0, JOB, 0) && 0 in Now(between).admins
    ensures Dated(Now(between), 7)
    ensures Stranded(RequeueBook(Now(between), 0), 7) && RequeueBook(Now(between), 0).items[7].status.New?
  {
    before := Asked();
    var s := RequeueUpsert(Now(before), 0, JOB, 0);
    between := Analyse(Log([s], []), 1, 0);
    between := Finished(between, 1, 0);
    between := SentAndClosed(between, 5, 0);
    assert Now(between).analyzers == map[] && Now(between).admins == s.admins;
    assert RequeueBook(Now(between), 0).admins == map[];
  }

  // ---------- Requeues do not reset the count ----------

  lemma RequeuedRaw(l0: Log) returns (l: Log)
    requires Good(CFG, l0) && Now(l0).admins == map[] && Now(l0).items == GIVEN_UP
    ensures Good(CFG, l) && l.ss[0] == l0.ss[0] && |l.es| > 0 && IsRequeue(l.es[|l.es| - 1], 7)
    ensures Now(l) == Now(l0).(aq := Enqueue(Now(l0).aq, 7, JOB, 0), items := FRESH)
  {
    l := Then(CFG, l0, W(0, Ask(7)));
    l := Then(CFG, l, W(0, Requeue(7, JOB, 0)));
    assert Now(l).admins == map[] && Now(l).items == FRESH;
  }

  /** The item was quarantined and requeued twice, and nobody is working. */
  lemma TwiceRequeued() returns (l: Log)
    ensures Good(CFG, l) && l.ss[0] == START && |l.es| > 0 && IsRequeue(l.es[|l.es| - 1], 7)
    ensures Now(l).aq == map[7 := Row(JOB, Queued, 0, None, None, 2, Some(0))]
    ensures Now(l).items == FRESH && Now(l).analyzers == map[]
  {
    l := Published();
    l := Quarantine(l, 1, 0);
    l := RequeuedRaw(l);
    l := Quarantine(l, 1, 0);
    l := RequeuedRaw(l);
  }

  /** Analyzer 1 claims the item for the third time. */
  lemma ClaimedAgain(l0: Log) returns (l: Log)
    requires Good(CFG, l0) && Now(l0).analyzers == map[] && Now(l0).items == FRESH
    requires Now(l0).aq == map[7 := Row(JOB, Queued, 0, None, None, 2, Some(0))]
    ensures Good(CFG, l) && l.ss[0] == l0.ss[0] && l.es == l0.es + [A(1, Take(7, 0)), A(1, Load)]
    ensures Now(l).analyzers == map[1 := AnalyzerWork(Hold(7, JOB, 3, 10), Analyzing(1))]
    ensures OwnedBy(Now(l).aq, 7, 1) && Now(l).aq[7].deliveryCount == 3
  {
    l := Begin(l0, 1, 0);
    assert Now(l).analyzers == map[1 := AnalyzerWork(Hold(7, JOB, 3, 10), Analyzing(1))];
  }

  /**
   One retryable failure right after a requeue sends the item into quarantine, though three deliveries are allowed.
  */
  lemma RequeueQuarantinedAtOnce() returns (l: Log, k: nat)
    ensures Good(CFG, l) && l.ss[0] == START && k + 4 == |l.es| - 1 && IsRequeue(l.es[k], 7)
    ensures l.es[k + 1..] == [A(1, Take(7, 0)), A(1, Load), A(1, Stumble(7, false, false)), A(1, Decide(false))]
    ensures 1 in Now(l).analyzers && Now(l).analyzers[1].pc.Poisoning? && CFG.maxDeliveries == 3
  {
    var l0 := TwiceRequeued();
    k := |l0.es| - 1;
    l := ClaimedAgain(l0);
    l := Then(CFG, l, A(1, Stumble(7, false, false)));
    l := Then(CFG, l, A(1, Decide(false)));
  }

  // ---------- Deliveries ----------

  /** Analyzer 1 has handed the item to the dispatch queue. */
  lemma Forwarded() returns (l: Log)
    ensures Good(CFG, l) && l.ss[0] == START && DeliveriesOf(l.es, 7, |l.es|) == RequeuesOf(l.es, 7, |l.es|) == 0
    ensures Now(l).dq == map[7 := Row(ANALYSIS, Queued, 0, None, None, 0, None)] && Now(l).dispatchers == map[]
    ensures Now(l).items == map[7 := Item(Analyzed, Some(ANALYSIS), None)]
  {
    l := Analysed();
    l := Happens(l, A(1, Mark));
    l := Happens(l, A(1, Forward(0)));
  }

  /** Dispatcher `d` claims item 7 at `t` and is about to send it. */
  lemma AboutToSend(l0: Log, d: WorkerId, t: Time) returns (l: Log)
    requires Good(CFG, l0) && d !in Now(l0).dispatchers && Oldest(Now(l0).dq, 7, t)
    requires Now(l0).dq[7].payload.decodable && !AlreadyDispatched(Now(l0).items, 7)
    ensures Good(CFG, l) && l.ss[0] == l0.ss[0]
    ensures var s := Now(l0);
            Now(l) == s.(dq := Claim(s.dq, 7, d, t, 10),
                         dispatchers := s.dispatchers[d := DispatcherWork(Taken(s.dq, 7, t, 10), Delivering(1))])
    ensures DeliveriesOf(l.es, 7, |l.es|) == DeliveriesOf(l0.es, 7, |l0.es|)
    ensures RequeuesOf(l.es, 7, |l.es|) == RequeuesOf(l0.es, 7, |l0.es|)
  {
    l := Happens(l0, D(d, Accept(7, t)));
    l := Happens(l, D(d, Check));
  }

  /** Dispatcher `d` takes item 7 at `t` and delivers it. */
  lemma SendOff(l0: Log, d: WorkerId, t: Time) returns (l: Log)
    requires Good(CFG, l0) && d !in Now(l0).dispatchers && Oldest(Now(l0).dq, 7, t)
    requires Now(l0).dq[7].payload.decodable && !AlreadyDispatched(Now(l0).items, 7)
    ensures Good(CFG, l) && l.ss[0] == l0.ss[0]
    ensures var s := Now(l0);
            Now(l) == s.(dq := Claim(s.dq, 7, d, t, 10),
                         dispatchers := s.dispatchers[d := DispatcherWork(Taken(s.dq, 7, t, 10), Confirming)])
    ensures DeliveriesOf(l.es, 7, |l.es|) == DeliveriesOf(l0.es, 7, |l0.es|) + 1
    ensures RequeuesOf(l.es, 7, |l.es|) == RequeuesOf(l0.es, 7, |l0.es|)
  {
    l := AboutToSend(l0, d, t);
    l := Sent(l, d);
  }

  lemma Sent(l0: Log, d: WorkerId) returns (l: Log)
    requires Good(CFG, l0) && d in Now(l0).dispatchers && Now(l0).dispatchers[d].pc.Delivering?
    requires Now(l0).dispatchers[d].hold.item == 7
    ensures Good(CFG, l) && l.ss[0] == l0.ss[0]
    ensures var s := Now(l0); Now(l) == s.(dispatchers := s.dispatchers[d := s.dispatchers[d].(pc := Confirming)])
    ensures DeliveriesOf(l.es, 7, |l.es|) == DeliveriesOf(l0.es, 7, |l0.es|) + 1
    ensures RequeuesOf(l.es, 7, |l.es|) == RequeuesOf(l0.es, 7, |l0.es|)
  {
    l := Happens(l0, D(d, Deliver(7)));
  }

  /** Between a delivery and its mark the item has been delivered once, without a requeue and without a date. */
  lemma DeliveryPrecedesItsMark() returns (l: Log)
    ensures Good(CFG, l) && l.ss[0] == START && !Dated(Now(l), 7)
    ensures DeliveriesOf(l.es, 7, |l.es|) == 1 && RequeuesOf(l.es, 7, |l.es|) == 0
  {
    l := Forwarded();
    l := SendOff(l, 5, 0);
  }

  /** A dispatcher that dies after the message went out makes the next one send it again, without any requeue. */
  lemma DeathAfterDeliveryRepeats() returns (l: Log)
    ensures Good(CFG, l) && l.ss[0] == START
    ensures DeliveriesOf(l.es, 7, |l.es|) == 2 && RequeuesOf(l.es, 7, |l.es|) == 0
  {
    l := Forwarded();
    l := SendOff(l, 5, 0);
    l := Happens(l, D(5, Die));
    l := SendOff(l, 6, 20);
  }

  /**
   Two overlapping dispatches: the late one fails and marks the item FAILED although it is dispatched, so the date and
   the status disagree.
   */
  lemma OverlapBreaksTheStatus() returns (l: Log)
    ensures Good(CFG, l) && l.ss[0] == START
    ensures Dated(Now(l), 7) && Now(l).items[7].status.Failed?
  {
    l := Forwarded();
    l := AboutToSend(l, 5, 0);
    l := SentAndMarked(l, 6, 5, 20);
    l := Then(CFG, l, D(5, Miss(7, false)));
  }

  lemma SentAndMarked(l0: Log, d: WorkerId, other: WorkerId, t: Time) returns (l: Log)
    requires Good(CFG, l0) && d !in Now(l0).dispatchers && Oldest(Now(l0).dq, 7, t)
    requires Now(l0).dq[7].payload.decodable && 7 in Now(l0).items && !AlreadyDispatched(Now(l0).items, 7)
    requires other != d && other in Now(l0).dispatchers
    ensures Good(CFG, l) && l.ss[0] == l0.ss[0]
    ensures Dated(Now(l), 7)
    ensures other in Now(l).dispatchers && Now(l).dispatchers[other] == Now(l0).dispatchers[other]
  {
    l := SendOff(l0, d, t);
    l := Happens(l, D(d, Confirm(t)));
  }

  /** Item 7 is queued with a payload that does not decode, after `n` claims. */
  predicate Undecodable(s: World, n: nat) {
    && s.aq.Keys == {7} && s.analyzers == map[]
    && s.aq[7].state.Queued? && s.aq[7].deliveryCount == n && !s.aq[7].payload.decodable
  }

  lemma ClaimInVain(c: Config, l0: Log, n: nat) returns (l: Log)
    requires Good(c, l0) && Undecodable(Now(l0), n)
    ensures Good(c, l) && l.ss[0] == l0.ss[0] && Undecodable(Now(l), n + 1)
  {
    l := Then(c, l0, A(1, Take(7, 0)));
    var taken := Now(l);
    assert taken.aq == Claim(Now(l0).aq, 7, 1, 0, c.analyzerLease);
    l := Then(c, l, A(1, GiveUp));
    assert Now(l).aq == taken.aq && Now(l).analyzers.Keys == {1};
    l := Then(c, l, A(1, Return));
  }

  /** A payload that does not decode is never quarantined: it can be claimed any number of times. */
  lemma {:induction false} UndecodableIsClaimedForever(c: Config, n: nat) returns (l: Log)
    ensures Good(c, l) && l.ss[0] == START && Undecodable(Now(l), n)
  {
    if n == 0 {
      l := Log([START], []);
      l := Then(c, l, R(0, Insert(7, Payload(3, false))));
      l := Then(c, l, R(0, Publish(0)));
    } else {
      l := UndecodableIsClaimedForever(c, n - 1);
      l := ClaimInVain(c, l, n - 1);
    }
  }
}
