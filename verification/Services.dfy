/**
 The services as they are written: methods over a mutable database, one method per SQL statement and one per handler.
 Each of them takes a trace of the pipeline that has led to the present world and returns one that goes on from there,
 statement by statement; the other processes may be anywhere in their own work. What is proved of all traces from the
 start therefore holds after any of these methods, provided it held of a trace from the start before.
 */
module Services {
  import opened Int64
  import opened Options
  import opened LeaseQueue
  import opened Pipeline
  import opened Effects
  import opened Retry

  /** The three tables of the shared database. */
  class Database {
    var aq: Table
    var dq: Table
    var items: Items

    constructor ()
      ensures aq == map[] && dq == map[] && items == map[]
    {
      aq, dq, items := map[], map[], map[];
    }
  }

  lemma OldestExists(rows: Table, now: Time, candidates: set<ItemId>) returns (x: ItemId)
    requires candidates != {} && forall y | y in candidates :: y in rows
    ensures x in candidates && forall y | y in candidates :: rows[x].enqueuedAt <= rows[y].enqueuedAt
  {
    x :| x in candidates;
    if candidates != {x} {
      var z := OldestExists(rows, now, candidates - {x});
      x := if rows[x].enqueuedAt <= rows[z].enqueuedAt then x else z;
    }
  }

  /** The claim's subquery: the oldest claimable row, if there is any. */
  method FindOldest(rows: Table, now: Time) returns (found: Option<ItemId>)
    ensures found.Some? ==> Oldest(rows, found.value, now)
    ensures found.None? ==> forall y | y in rows :: !Claimable(rows[y], now)
  {
    var candidates := set y | y in rows && Claimable(rows[y], now);
    if candidates == {} {
      assert forall y | y in rows && Claimable(rows[y], now) :: y in candidates;
      return None;
    }
    ghost var z := OldestExists(rows, now, candidates);
    var x :| x in candidates && forall y | y in candidates :: rows[x].enqueuedAt <= rows[y].enqueuedAt;
    assert forall y | y in rows && Claimable(rows[y], now) :: y in candidates;
    found := Some(x);
  }

  // ---------- The analyzer ----------

  datatype Answered = Answered(out: Payload) | Refused(nonRetryable: bool)

  /** What the outside world does to one handling: the model's answers, cancellations, database errors. */
  datatype Plan = Plan(answer: nat -> Answered, cancelled: nat -> bool, limiterFails: bool,
                       loadFails: bool, readFails: bool, enqueueFails: bool)

  /** What the attempts come to: an analysis, or the last error's kind. */
  datatype Verdict = Verdict(out: Option<Payload>, nonRetryable: bool)

  /** The attempts of a plan, as the retry loop sees them. */
  function Attempts(plan: Plan): nat -> Attempt {
    (i: nat) => Attempt(plan.answer(i).Answered?, 0, plan.cancelled(i), 0)
  }

  /** What the attempts come to when `k` is the last. */
  function VerdictAt(plan: Plan, attempts: nat, k: nat): Verdict {
    match plan.answer(k)
    case Answered(p) => Verdict(Some(p), false)
    case Refused(nr) => Verdict(None, k >= attempts && nr)
  }

  function VerdictOf(plan: Plan, attempts: nat): Verdict {
    VerdictAt(plan, attempts, RetryCalls(attempts, Attempts(plan)))
  }

  /** The first answer before any cancellation wins, if one of the max(1, attempts) attempts gets it. */
  lemma FirstAnswerWins(plan: Plan, attempts: nat, k: nat)
    requires 1 <= k <= Max(1, attempts) && plan.answer(k).Answered?
    requires forall n | 1 <= n < k :: plan.answer(n).Refused? && !plan.cancelled(n)
    ensures VerdictOf(plan, attempts) == Verdict(Some(plan.answer(k).out), false)
    ensures RetryCalls(attempts, Attempts(plan)) == k
  {
    LastCallIs(Limit(attempts), Attempts(plan), 1, k);
  }

  /** When all max(1, attempts) attempts are made in vain, the kind of the last refusal counts. */
  lemma LastRefusalCounts(plan: Plan, attempts: nat)
    requires forall n | 1 <= n <= Max(1, attempts) :: plan.answer(n).Refused?
    requires forall n | 1 <= n < Max(1, attempts) :: !plan.cancelled(n)
    ensures VerdictOf(plan, attempts) == Verdict(None, plan.answer(Max(1, attempts)).nonRetryable)
    ensures RetryCalls(attempts, Attempts(plan)) == Max(1, attempts)
  {
    LastCallIs(Limit(attempts), Attempts(plan), 1, Limit(attempts));
  }

  /** A cancellation between two attempts ends them without a verdict on the item. */
  lemma CancellationEnds(plan: Plan, attempts: nat, k: nat)
    requires 1 <= k < attempts && plan.cancelled(k)
    requires forall n | 1 <= n <= k :: plan.answer(n).Refused?
    requires forall n | 1 <= n < k :: !plan.cancelled(n)
    ensures VerdictOf(plan, attempts) == Verdict(None, false)
    ensures RetryCalls(attempts, Attempts(plan)) == k
  {
    LastCallIs(Limit(attempts), Attempts(plan), 1, k);
  }

  /** In any case the verdict is that of the last call of the retry loop. */
  lemma VerdictIsTheLastCalls(plan: Plan, attempts: nat)
    ensures var k, v := RetryCalls(attempts, Attempts(plan)), VerdictOf(plan, attempts);
            && 1 <= k <= Limit(attempts)
            && (forall i | 1 <= i < k :: plan.answer(i).Refused? && !plan.cancelled(i))
            && (plan.answer(k).Answered? ==> v == Verdict(Some(plan.answer(k).out), false))
            && (plan.answer(k).Refused? && k == Limit(attempts) ==> v == Verdict(None, plan.answer(k).nonRetryable))
            && (plan.answer(k).Refused? && k < Limit(attempts) ==> plan.cancelled(k) && v == Verdict(None, false))
  {
    var fn, k := Attempts(plan), RetryCalls(attempts, Attempts(plan));
    forall i | 1 <= i < k ensures plan.answer(i).Refused? && !plan.cancelled(i) {
      assert !fn(i).ok && !fn(i).cancelled;
    }
    assert fn(k).ok || fn(k).cancelled || k == Limit(attempts);
  }

  /** What is left in the database by one whole handling, and whether the claim was closed or put back. */
  datatype Round = Round(closed: bool, dq: Table, items: Items)

  function AfterVerdict(v: Verdict): AnalyzerPc {
    if v.out.Some? then Marking(v.out.value) else Deciding(v.nonRetryable)
  }

  /** The items with `x` marked FAILED, or as they are. */
  function MarkedIf(failed: bool, items: Items, x: ItemId): Items {
    if failed then AnalyzerMark(items, x, Failed, None) else items
  }

  lemma MarkedTwice(items: Items, x: ItemId, failed: bool)
    ensures AnalyzerMark(MarkedIf(failed, items, x), x, Failed, None) == MarkedIf(true, items, x)
  {
  }

  /** A handling that finds nothing stored. */
  function FreshRound(c: Config, w: WorkerId, aq: Table, dq: Table, items: Items, h: Hold, plan: Plan,
                      now: Time): Round {
    var v := VerdictOf(plan, c.attempts);
    if v.out.None? then
      Round(Quarantines(c, aq, h.item, w, v.nonRetryable, plan.readFails), dq, MarkedIf(true, items, h.item))
    else
      var items' := AnalyzerMark(items, h.item, Analyzed, v.out);
      if plan.enqueueFails then Round(false, dq, items')
      else Round(true, Enqueue(dq, h.item, v.out.value, now), items')
  }

  /** What follows the attempts: an answer is stored and handed on, a failure quarantined or put back. */
  function Conclusion(c: Config, w: WorkerId, aq: Table, dq: Table, items: Items, h: Hold, v: Verdict, plan: Plan,
                      now: Time)
    : Round
  {
    if v.out.None? then
      var closed := Quarantines(c, aq, h.item, w, v.nonRetryable, plan.readFails);
      Round(closed, dq, MarkedIf(closed, items, h.item))
    else
      var items' := AnalyzerMark(items, h.item, Analyzed, v.out);
      if plan.enqueueFails then Round(false, dq, items')
      else Round(true, Enqueue(dq, h.item, v.out.value, now), items')
  }

  /** What a handling that finds nothing stored comes to, by what its attempts come to. */
  lemma FreshRoundMeans(c: Config, w: WorkerId, aq: Table, dq: Table, items: Items, h: Hold, plan: Plan, now: Time)
    ensures var r, v := FreshRound(c, w, aq, dq, items, h, plan, now), VerdictOf(plan, c.attempts);
            && OnlyItem(items, r.items, h.item)
            && (h.item in items && items[h.item].status.Dispatched? ==> r.items[h.item] == items[h.item])
            && (h.item in items && !items[h.item].status.Dispatched? ==>
                  r.items[h.item] == if v.out.Some? then Item(Analyzed, v.out, items[h.item].dispatchedAt)
                                     else Item(Failed, items[h.item].analyzed, items[h.item].dispatchedAt))
            && (v.out.Some? ==> r.closed == !plan.enqueueFails)
            && (v.out.Some? && r.closed ==> Waits(r.dq, h.item, v.out.value) && OnlyRow(dq, r.dq, h.item))
            && (v.out.None? || !r.closed ==> r.dq == dq)
            && (v.out.None? ==>
                  (r.closed <==> v.nonRetryable || (!plan.readFails && OwnedBy(aq, h.item, w)
                                                    && aq[h.item].deliveryCount >= c.maxDeliveries)))
  {
  }

  /** What a whole handling comes to before, or instead of, its attempts. */
  lemma AnalyzerRoundMeans(c: Config, w: WorkerId, aq: Table, dq: Table, items: Items, h: Hold, plan: Plan, now: Time)
    ensures var r := AnalyzerRound(c, w, aq, dq, items, h, plan, now);
            var stored := h.item in items && items[h.item].analyzed.Some? && !plan.loadFails;
            && (plan.limiterFails || !h.payload.decodable ==> r == Round(false, dq, items))
            && (!plan.limiterFails && h.payload.decodable && !stored ==>
                  r == FreshRound(c, w, aq, dq, items, h, plan, now))
            && (!plan.limiterFails && h.payload.decodable && stored ==>
                  && r.items == items && r.closed == !plan.enqueueFails
                  && (r.closed ==> Waits(r.dq, h.item, items[h.item].analyzed.value) && OnlyRow(dq, r.dq, h.item))
                  && (!r.closed ==> r.dq == dq))
  {
  }

  /** Marks of failed attempts do not show in the end: an answer overwrites them, and quarantine repeats them. */
  lemma AttemptsThenConclusion(c: Config, w: WorkerId, aq: Table, dq: Table, items: Items, h: Hold, plan: Plan,
                               now: Time)
    ensures Conclusion(c, w, aq, dq, MarkedIf(plan.answer(1).Refused?, items, h.item), h,
                       VerdictOf(plan, c.attempts), plan, now)
            == FreshRound(c, w, aq, dq, items, h, plan, now)
  {
  }

  /** A handling of a payload that decodes: the stored analysis is forwarded, or a fresh one made. */
  function DecodedRound(c: Config, w: WorkerId, aq: Table, dq: Table, items: Items, h: Hold, plan: Plan,
                        now: Time): Round {
    var stored := if plan.loadFails then None else StoredAnalysis(items, h.item);
    if stored.None? then FreshRound(c, w, aq, dq, items, h, plan, now)
    else if plan.enqueueFails then Round(false, dq, items)
    else Round(true, Enqueue(dq, h.item, stored.value, now), items)
  }

  /** One handling in one go. */
  function AnalyzerRound(c: Config, w: WorkerId, aq: Table, dq: Table, items: Items, h: Hold, plan: Plan,
                         now: Time): Round {
    if plan.limiterFails || !h.payload.decodable then Round(false, dq, items)
    else DecodedRound(c, w, aq, dq, items, h, plan, now)
  }

  function EndClaim(rows: Table, x: ItemId, w: WorkerId, now: Time, closed: bool): Table {
    if closed then Finish(rows, x, w, now) else Release(rows, x, w)
  }

  /**
   Without limiter, decoding, queue-read or enqueue trouble, a claim is put back only while it has deliveries to
   spare.
  */
  lemma PutBackMeansToSpare(c: Config, w: WorkerId, aq: Table, dq: Table, items: Items, h: Hold, plan: Plan, now: Time)
    requires h.payload.decodable && OnlyAnalysesFail(plan) && OwnedBy(aq, h.item, w)
    requires !AnalyzerRound(c, w, aq, dq, items, h, plan, now).closed
    ensures aq[h.item].deliveryCount < c.maxDeliveries
  {
  }

  /** Nothing fails but the analyses themselves. */
  predicate OnlyAnalysesFail(p: Plan) {
    !p.limiterFails && !p.readFails && !p.enqueueFails
  }

  // ---------- Traces that go on ----------

  predicate IsClaim(e: Event) { (e.A? && e.a.Take?) || (e.D? && e.b.Accept?) }

  /** The items claimed in these events, by analyzers and dispatchers, in order. */
  function ClaimsIn(es: seq<Event>): seq<ItemId> {
    if es == [] then []
    else
      var e := es[|es| - 1];
      ClaimsIn(es[..|es| - 1]) + if e.A? && e.a.Take? then [e.a.x] else if e.D? && e.b.Accept? then [e.b.x] else []
  }

  /** `l` starts where `l0` starts, has claimed what `l0` has claimed, and ends in `s`. */
  ghost predicate Onward(c: Config, l0: Log, l: Log, s: World) {
    Good(c, l0) && Good(c, l) && l.ss[0] == l0.ss[0] && ClaimsIn(l.es) == ClaimsIn(l0.es) && Now(l) == s
  }

  ghost function Further(c: Config, l: Log, e: Event): (l': Log)
    requires Good(c, l) && CanStep(Now(l), e) && !IsClaim(e)
    ensures Onward(c, l, l', Next(c, Now(l), e)) && l'.es == l.es + [e]
  {
    assert (l.es + [e])[..|l.es|] == l.es;
    Then(c, l, e)
  }

  /** The world `s` with these tables and analyzer `w` at work. */
  function AtWork(s: World, aq: Table, dq: Table, items: Items, w: WorkerId, h: Hold, pc: AnalyzerPc): World {
    s.(aq := aq, dq := dq, items := items, analyzers := s.analyzers[w := AnalyzerWork(h, pc)])
  }

  /** The same, with analyzer `w` idle. */
  function Idling(s: World, aq: Table, dq: Table, items: Items, w: WorkerId): World {
    s.(aq := aq, dq := dq, items := items, analyzers := s.analyzers - {w})
  }

  /** A statement in the middle of an analyzer's handling. */
  lemma AnalyzerGoesOn(c: Config, l0: Log, s: World, aq: Table, dq: Table, items: Items, w: WorkerId, h: Hold,
                       pc: AnalyzerPc, a: AnalyzerStep) returns (l: Log)
    requires Good(c, l0) && Now(l0) == AtWork(s, aq, dq, items, w, h, pc)
    requires AnalyzerEnabled(Now(l0), w, a) && !a.Take? && AnalyzerGoes(c, Now(l0), w, a).Some?
    ensures |l.es| == |l0.es| + 1
    ensures Onward(c, l0, l, AtWork(s, aq, AnalyzerOnDispatch(Now(l0), w, a), AnalyzerOnItems(Now(l0), w, a), w, h,
                                    AnalyzerGoes(c, Now(l0), w, a).value))
  {
    l := Further(c, l0, A(w, a));
  }

  /** The last statement of an analyzer's handling. */
  lemma AnalyzerEnds(c: Config, l0: Log, s: World, aq: Table, dq: Table, items: Items, w: WorkerId, h: Hold,
                     pc: AnalyzerPc, a: AnalyzerStep) returns (l: Log)
    requires Good(c, l0) && Now(l0) == AtWork(s, aq, dq, items, w, h, pc)
    requires AnalyzerEnabled(Now(l0), w, a) && (a.Return? || a.Complete? || a.Fail?)
    ensures Onward(c, l0, l, Idling(s, AnalyzerOnRaw(c, Now(l0), w, a), dq, items, w))
  {
    l := Further(c, l0, A(w, a));
    assert Now(l).analyzers == s.analyzers - {w};
  }

  lemma AnalyzerTakes(c: Config, l0: Log, s: World, aq: Table, dq: Table, items: Items, w: WorkerId, x: ItemId,
                      now: Time)
    returns (l: Log)
    requires Good(c, l0) && Now(l0) == Idling(s, aq, dq, items, w) && Oldest(aq, x, now)
    ensures Good(c, l) && l.ss[0] == l0.ss[0] && ClaimsIn(l.es) == ClaimsIn(l0.es) + [x]
    ensures Now(l) == AtWork(s, Claim(aq, x, w, now, c.analyzerLease), dq, items, w,
                                 Taken(aq, x, now, c.analyzerLease), Waiting)
  {
    l := Then(c, l0, A(w, Take(x, now)));
    assert l.es[..|l.es| - 1] == l0.es;
    assert Now(l).analyzers == s.analyzers[w := AnalyzerWork(Taken(aq, x, now, c.analyzerLease), Waiting)];
  }

  class Analyzer {
    const db: Database
    const cfg: Config
    const workerId: WorkerId

    constructor (db: Database, cfg: Config, workerId: WorkerId)
      ensures this.db == db && this.cfg == cfg && this.workerId == workerId
    {
      this.db, this.cfg, this.workerId := db, cfg, workerId;
    }

    /** The world around: the database as it is, the other processes as in `s`, this analyzer at work. */
    ghost function Doing(s: World, h: Hold, pc: AnalyzerPc): World
      reads db
    {
      AtWork(s, db.aq, db.dq, db.items, workerId, h, pc)
    }

    ghost function Idle(s: World): World
      reads db
    {
      Idling(s, db.aq, db.dq, db.items, workerId)
    }

    /** The claim is the pipeline's: an oldest claimable row becomes this worker's, or there is none. */
    method ClaimNextRawJob(now: Time, ghost s: World, ghost l0: Log) returns (claimed: Option<Hold>, ghost l: Log)
      requires Good(cfg, l0) && Now(l0) == Idle(s)
      modifies db`aq
      ensures claimed.None? ==> l == l0 && db.aq == old(db.aq) && forall y | y in db.aq :: !Claimable(db.aq[y], now)
      ensures claimed.Some? ==>
                var x := claimed.value.item;
                && Oldest(old(db.aq), x, now)
                && claimed.value == Taken(old(db.aq), x, now, cfg.analyzerLease)
                && db.aq == Claim(old(db.aq), x, workerId, now, cfg.analyzerLease)
                && Good(cfg, l) && l.ss[0] == l0.ss[0] && ClaimsIn(l.es) == ClaimsIn(l0.es) + [x]
                && Now(l) == Doing(s, claimed.value, Waiting)
    {
      l := l0;
      var found := FindOldest(db.aq, now);
      match found
      case None => return None, l;
      case Some(x) =>
        l := AnalyzerTakes(cfg, l0, s, db.aq, db.dq, db.items, workerId, x, now);
        claimed := Some(Taken(db.aq, x, now, cfg.analyzerLease));
        db.aq := Claim(db.aq, x, workerId, now, cfg.analyzerLease);
    }

    /** Ends a handling whose analysis was forwarded. */
    method CompleteClaim(h: Hold, now: Time, ghost s: World, ghost l0: Log) returns (ghost l: Log)
      requires Good(cfg, l0) && Now(l0) == Doing(s, h, Completing)
      modifies db`aq
      ensures Onward(cfg, l0, l, Idle(s)) && db.aq == Finish(old(db.aq), h.item, workerId, now)
    {
      l := AnalyzerEnds(cfg, l0, s, db.aq, db.dq, db.items, workerId, h, Completing, Complete(now));
      db.aq := Finish(db.aq, h.item, workerId, now);
    }

    /** Ends a handling whose item was quarantined. */
    method FailClaim(h: Hold, now: Time, ghost s: World, ghost l0: Log) returns (ghost l: Log)
      requires Good(cfg, l0) && Now(l0) == Doing(s, h, Failing)
      modifies db`aq
      ensures Onward(cfg, l0, l, Idle(s)) && db.aq == Finish(old(db.aq), h.item, workerId, now)
    {
      l := AnalyzerEnds(cfg, l0, s, db.aq, db.dq, db.items, workerId, h, Failing, Fail(now));
      db.aq := Finish(db.aq, h.item, workerId, now);
    }

    /** Ends a handling that has to be repeated. */
    method ReleaseClaim(h: Hold, ghost s: World, ghost l0: Log) returns (ghost l: Log)
      requires Good(cfg, l0) && Now(l0) == Doing(s, h, Releasing)
      modifies db`aq
      ensures Onward(cfg, l0, l, Idle(s)) && db.aq == Release(old(db.aq), h.item, workerId)
    {
      l := AnalyzerEnds(cfg, l0, s, db.aq, db.dq, db.items, workerId, h, Releasing, Return);
      db.aq := Release(db.aq, h.item, workerId);
    }

    method MarkItemStatus(x: ItemId, status: Status, out: Option<Payload>)
      modifies db`items
      ensures db.items == AnalyzerMark(old(db.items), x, status, out)
    {
      db.items := AnalyzerMark(db.items, x, status, out);
    }

    /** Hands the analysis on; what comes next is closing the claim or, on an error, putting it back. */
    method EnqueueDispatchJob(h: Hold, p: Payload, now: Time, fails: bool, ghost s: World, ghost l0: Log)
      returns (ok: bool, ghost l: Log)
      requires Good(cfg, l0) && Now(l0) == Doing(s, h, Forwarding(p))
      modifies db`dq
      ensures Onward(cfg, l0, l, Doing(s, h, if ok then Completing else Releasing))
      ensures ok == !fails && db.dq == if ok then Enqueue(old(db.dq), h.item, p, now) else old(db.dq)
    {
      ok := !fails;
      l := AnalyzerGoesOn(cfg, l0, s, db.aq, db.dq, db.items, workerId, h, Forwarding(p),
                          if ok then Forward(now) else ForwardFault);
      if ok { db.dq := Enqueue(db.dq, h.item, p, now); }
    }

    /** Decides whether the claim is quarantined or put back. */
    method ShouldQuarantineClaim(h: Hold, nonRetryable: bool, readFails: bool, ghost s: World, ghost l0: Log)
      returns (yes: bool, ghost l: Log)
      requires Good(cfg, l0) && Now(l0) == Doing(s, h, Deciding(nonRetryable))
      ensures Onward(cfg, l0, l, Doing(s, h, if yes then Poisoning else Releasing))
      ensures yes == Quarantines(cfg, db.aq, h.item, workerId, nonRetryable, readFails)
    {
      l := AnalyzerGoesOn(cfg, l0, s, db.aq, db.dq, db.items, workerId, h, Deciding(nonRetryable), Decide(readFails));
      if nonRetryable { return true, l; }
      if readFails || !OwnedBy(db.aq, h.item, workerId) { return false, l; }
      return db.aq[h.item].deliveryCount >= cfg.maxDeliveries, l;
    }

    /** A failed attempt marks the item. */
    method NoteFailure(h: Hold, attempt: nat, cancelled: bool, nonRetryable: bool, ghost s: World, ghost l0: Log)
      returns (ghost l: Log)
      requires Good(cfg, l0) && Now(l0) == Doing(s, h, Analyzing(attempt))
      modifies db`items
      ensures Onward(cfg, l0, l, Doing(s, h, AfterStumble(cfg, attempt, cancelled, nonRetryable)))
      ensures |l.es| == |l0.es| + 1
      ensures db.items == AnalyzerMark(old(db.items), h.item, Failed, None)
    {
      l := AnalyzerGoesOn(cfg, l0, s, db.aq, db.dq, db.items, workerId, h, Analyzing(attempt),
                          Stumble(h.item, cancelled, nonRetryable));
      MarkItemStatus(h.item, Failed, None);
    }

    /** Attempt `k`: it is the last one after an answer, at the limit or on a cancellation. */
    method AttemptOnce(h: Hold, plan: Plan, k: nat, ghost s: World, ghost l0: Log)
      returns (over: bool, verdict: Verdict, ghost l: Log)
      requires Good(cfg, l0) && Now(l0) == Doing(s, h, Analyzing(k)) && k >= 1
      modifies db`items
      ensures over <==> plan.answer(k).Answered? || plan.cancelled(k) || k >= cfg.attempts
      ensures over ==> verdict == VerdictAt(plan, cfg.attempts, k)
      ensures Onward(cfg, l0, l, Doing(s, h, if over then AfterVerdict(verdict) else Analyzing(k + 1)))
      ensures |l.es| == |l0.es| + 1 && db.items == MarkedIf(plan.answer(k).Refused?, old(db.items), h.item)
    {
      match plan.answer(k)
      case Answered(p) =>
        l := AnalyzerGoesOn(cfg, l0, s, db.aq, db.dq, db.items, workerId, h, Analyzing(k), Answer(h.item, p));
        return true, Verdict(Some(p), false), l;
      case Refused(nr) =>
        l := NoteFailure(h, k, plan.cancelled(k), nr, s, l0);
        if k >= cfg.attempts { return true, Verdict(None, nr), l; }
        return plan.cancelled(k), Verdict(None, false), l;
    }

    /** The loop of retry.Exponential around analyze; every failed attempt marks the item. */
    method Attempt(h: Hold, plan: Plan, ghost s: World, ghost l0: Log)
      returns (verdict: Verdict, calls: nat, ghost l: Log)
      requires Good(cfg, l0) && Now(l0) == Doing(s, h, Analyzing(1))
      modifies db`items
      ensures Onward(cfg, l0, l, Doing(s, h, AfterVerdict(verdict))) && |l.es| == |l0.es| + calls
      ensures verdict == VerdictAt(plan, cfg.attempts, calls) && calls == RetryCalls(cfg.attempts, Attempts(plan))
      ensures db.items == MarkedIf(plan.answer(1).Refused?, old(db.items), h.item)
    {
      calls := 1;
      l := l0;
      while true
        invariant 1 <= calls <= Limit(cfg.attempts) && (calls > 1 ==> plan.answer(1).Refused?)
        invariant LastCall(Limit(cfg.attempts), Attempts(plan), calls) == RetryCalls(cfg.attempts, Attempts(plan))
        invariant db.items == MarkedIf(calls > 1, old(db.items), h.item)
        invariant Onward(cfg, l0, l, Doing(s, h, Analyzing(calls))) && |l.es| == |l0.es| + calls - 1
        decreases cfg.attempts - calls
      {
        MarkedTwice(old(db.items), h.item, calls > 1);
        var over;
        over, verdict, l := AttemptOnce(h, plan, calls, s, l);
        if over { return; }
        calls := calls + 1;
      }
    }

    /**
     The attempts at an analysis. They go on until an answer, a cancellation or the last of max(1, RetryAttempts), as
     the retry loop does; each is one step of the trace. A failed one leaves the item FAILED.
     */
    method AnalyzeWithRetries(h: Hold, plan: Plan, ghost s: World, ghost l0: Log)
      returns (verdict: Verdict, calls: nat, ghost l: Log)
      requires Good(cfg, l0) && Now(l0) == Doing(s, h, Analyzing(1))
      modifies db`items
      ensures Onward(cfg, l0, l, Doing(s, h, AfterVerdict(verdict))) && |l.es| == |l0.es| + calls
      ensures calls == RetryCalls(cfg.attempts, Attempts(plan)) && 1 <= calls <= Limit(cfg.attempts)
      ensures forall i | 1 <= i < calls :: plan.answer(i).Refused? && !plan.cancelled(i)
      ensures plan.answer(calls).Answered? ==> verdict == Verdict(Some(plan.answer(calls).out), false)
      ensures plan.answer(calls).Refused? && calls == Limit(cfg.attempts) ==>
                verdict == Verdict(None, plan.answer(calls).nonRetryable)
      ensures plan.answer(calls).Refused? && calls < Limit(cfg.attempts) ==>
                plan.cancelled(calls) && verdict == Verdict(None, false)
      ensures verdict == VerdictOf(plan, cfg.attempts)
      ensures db.items == MarkedIf(plan.answer(1).Refused?, old(db.items), h.item)
    {
      verdict, calls, l := Attempt(h, plan, s, l0);
      VerdictIsTheLastCalls(plan, cfg.attempts);
    }

    method Condemn(h: Hold, now: Time, ghost s: World, ghost l0: Log) returns (ghost l: Log)
      requires Good(cfg, l0) && Now(l0) == Doing(s, h, Poisoning)
      modifies db`aq, db`items
      ensures Onward(cfg, l0, l, Idle(s))
      ensures db.aq == Finish(old(db.aq), h.item, workerId, now)
      ensures db.items == AnalyzerMark(old(db.items), h.item, Failed, None)
    {
      l := AnalyzerGoesOn(cfg, l0, s, db.aq, db.dq, db.items, workerId, h, Poisoning, Poison);
      MarkItemStatus(h.item, Failed, None);
      l := FailClaim(h, now, s, l);
    }

    /** The last part of a failed handling: quarantine the claim or put it back. */
    method GiveUpOn(h: Hold, plan: Plan, nonRetryable: bool, now: Time, ghost s: World, ghost l0: Log)
      returns (closed: bool, ghost l: Log)
      requires Good(cfg, l0) && Now(l0) == Doing(s, h, Deciding(nonRetryable))
      modifies db`aq, db`items
      ensures Onward(cfg, l0, l, Idle(s))
      ensures closed == Quarantines(cfg, old(db.aq), h.item, workerId, nonRetryable, plan.readFails)
      ensures db.aq == EndClaim(old(db.aq), h.item, workerId, now, closed)
      ensures db.items == MarkedIf(closed, old(db.items), h.item)
    {
      closed, l := ShouldQuarantineClaim(h, nonRetryable, plan.readFails, s, l0);
      if closed {
        l := Condemn(h, now, s, l);
      } else {
        l := ReleaseClaim(h, s, l);
      }
    }

    /** The last part of a successful handling: hand the analysis to the dispatcher and close the claim. */
    method HandOver(h: Hold, p: Payload, fails: bool, now: Time, ghost s: World, ghost l0: Log)
      returns (closed: bool, ghost l: Log)
      requires Good(cfg, l0) && Now(l0) == Doing(s, h, Forwarding(p))
      modifies db`aq, db`dq
      ensures Onward(cfg, l0, l, Idle(s)) && closed == !fails
      ensures db.aq == EndClaim(old(db.aq), h.item, workerId, now, closed)
      ensures db.dq == if closed then Enqueue(old(db.dq), h.item, p, now) else old(db.dq)
    {
      closed, l := EnqueueDispatchJob(h, p, now, fails, s, l0);
      if closed {
        l := CompleteClaim(h, now, s, l);
      } else {
        l := ReleaseClaim(h, s, l);
      }
    }

    /** Keep a fresh analysis with the item, then hand it over. */
    method StoreAndHandOver(h: Hold, p: Payload, fails: bool, now: Time, ghost s: World, ghost l0: Log)
      returns (closed: bool, ghost l: Log)
      requires Good(cfg, l0) && Now(l0) == Doing(s, h, Marking(p))
      modifies db
      ensures Onward(cfg, l0, l, Idle(s)) && closed == !fails
      ensures db.aq == EndClaim(old(db.aq), h.item, workerId, now, closed)
      ensures db.dq == if closed then Enqueue(old(db.dq), h.item, p, now) else old(db.dq)
      ensures db.items == AnalyzerMark(old(db.items), h.item, Analyzed, Some(p))
    {
      l := AnalyzerGoesOn(cfg, l0, s, db.aq, db.dq, db.items, workerId, h, Marking(p), Mark);
      MarkItemStatus(h.item, Analyzed, Some(p));
      closed, l := HandOver(h, p, fails, now, s, l);
    }

    /** The part of a handling after its attempts. */
    method Conclude(h: Hold, v: Verdict, plan: Plan, now: Time, ghost s: World, ghost l0: Log)
      returns (closed: bool, ghost l: Log)
      requires Good(cfg, l0) && Now(l0) == Doing(s, h, AfterVerdict(v))
      modifies db
      ensures Onward(cfg, l0, l, Idle(s))
      ensures db.aq == EndClaim(old(db.aq), h.item, workerId, now, closed)
      ensures Round(closed, db.dq, db.items)
              == Conclusion(cfg, workerId, old(db.aq), old(db.dq), old(db.items), h, v, plan, now)
    {
      match v.out
      case Some(p) => closed, l := StoreAndHandOver(h, p, plan.enqueueFails, now, s, l0);
      case None => closed, l := GiveUpOn(h, plan, v.nonRetryable, now, s, l0);
    }

    /** The handling of an item with nothing stored. */
    method AnalyzeAfresh(h: Hold, plan: Plan, now: Time, ghost s: World, ghost l0: Log)
      returns (closed: bool, ghost l: Log)
      requires Good(cfg, l0) && Now(l0) == Doing(s, h, Analyzing(1))
      modifies db
      ensures Onward(cfg, l0, l, Idle(s))
      ensures db.aq == EndClaim(old(db.aq), h.item, workerId, now, closed)
      ensures Round(closed, db.dq, db.items)
              == FreshRound(cfg, workerId, old(db.aq), old(db.dq), old(db.items), h, plan, now)
    {
      AttemptsThenConclusion(cfg, workerId, db.aq, db.dq, db.items, h, plan, now);
      var verdict, calls;
      verdict, calls, l := AnalyzeWithRetries(h, plan, s, l0);
      closed, l := Conclude(h, verdict, plan, now, s, l);
    }

    /** After the decoding: the stored analysis is handed on, or a fresh one is made. */
    method HandleDecoded(h: Hold, plan: Plan, now: Time, ghost s: World, ghost l0: Log)
      returns (closed: bool, ghost l: Log)
      requires Good(cfg, l0) && Now(l0) == Doing(s, h, Waiting) && h.payload.decodable
      modifies db
      ensures Onward(cfg, l0, l, Idle(s))
      ensures db.aq == EndClaim(old(db.aq), h.item, workerId, now, closed)
      ensures Round(closed, db.dq, db.items)
              == DecodedRound(cfg, workerId, old(db.aq), old(db.dq), old(db.items), h, plan, now)
    {
      var stored := if plan.loadFails then None else StoredAnalysis(db.items, h.item);
      l := AnalyzerGoesOn(cfg, l0, s, db.aq, db.dq, db.items, workerId, h, Waiting,
                          if plan.loadFails then LoadFault else Load);
      match stored
      case Some(p) => closed, l := HandOver(h, p, plan.enqueueFails, now, s, l);
      case None => closed, l := AnalyzeAfresh(h, plan, now, s, l);
    }

    /**
     One claim, from the rate limiter to the last statement: the trace goes on to this worker being idle, and the
     database is left as `AnalyzerRound` says.
     */
    method HandleClaimedMessage(h: Hold, plan: Plan, now: Time, ghost s: World, ghost l0: Log)
      returns (closed: bool, ghost l: Log)
      requires Good(cfg, l0) && Now(l0) == Doing(s, h, Waiting)
      modifies db
      ensures Onward(cfg, l0, l, Idle(s))
      ensures Round(closed, db.dq, db.items)
              == AnalyzerRound(cfg, workerId, old(db.aq), old(db.dq), old(db.items), h, plan, now)
      ensures db.aq == EndClaim(old(db.aq), h.item, workerId, now, closed)
    {
      if plan.limiterFails || !h.payload.decodable {
        l := AnalyzerGoesOn(cfg, l0, s, db.aq, db.dq, db.items, workerId, h, Waiting, GiveUp);
        l := ReleaseClaim(h, s, l);
        return false, l;
      }
      closed, l := HandleDecoded(h, plan, now, s, l0);
    }
  }

  // ---------- The dispatcher ----------

  /** What the outside world does to one dispatch. */
  datatype Trip = Trip(delivered: nat -> bool, cancelled: nat -> bool, limiterFails: bool, checkFails: bool,
                       templateFails: bool)

  /** The deliveries of a trip, as the retry loop sees them. */
  function Posts(trip: Trip): nat -> Attempt {
    (i: nat) => Attempt(trip.delivered(i), 0, trip.cancelled(i), 0)
  }

  /** Whether one of the attempts gets through. */
  predicate GetsThrough(trip: Trip, attempts: nat) {
    Succeeds(attempts, Posts(trip))
  }

  /** What the last call of the retry loop says about the deliveries. */
  lemma LastPost(trip: Trip, attempts: nat)
    ensures var k := RetryCalls(attempts, Posts(trip));
            && 1 <= k <= Limit(attempts)
            && (forall i | 1 <= i < k :: !trip.delivered(i) && !trip.cancelled(i))
            && (!trip.delivered(k) && k < Limit(attempts) ==> trip.cancelled(k))
            && (k > 1 ==> !trip.delivered(1))
  {
    var fn, k := Posts(trip), RetryCalls(attempts, Posts(trip));
    forall i | 1 <= i < k ensures !trip.delivered(i) && !trip.cancelled(i) {
      assert !fn(i).ok && !fn(i).cancelled;
    }
    assert fn(k).ok || fn(k).cancelled || k == Limit(attempts);
  }

  /** The items with `x` marked FAILED by a dispatcher, or as they are. */
  function MissedIf(missed: bool, items: Items, x: ItemId): Items {
    if missed then DispatcherMark(items, x, Failed, None) else items
  }

  lemma MissedTwice(items: Items, x: ItemId, missed: bool)
    ensures DispatcherMark(MissedIf(missed, items, x), x, Failed, None) == MissedIf(true, items, x)
  {
  }

  /** The items after one dispatch that reached the deliveries. */
  function AfterDeliveries(c: Config, items: Items, x: ItemId, trip: Trip, now: Time): Items {
    if trip.templateFails then items
    else if GetsThrough(trip, c.attempts) then DispatcherMark(items, x, Dispatched, Some(now))
    else DispatcherMark(items, x, Failed, None)
  }

  /** The date of a delivery overwrites the marks of the misses before it. */
  lemma MissesAreOverwritten(c: Config, items: Items, x: ItemId, trip: Trip, now: Time)
    requires !trip.templateFails
    ensures AfterDeliveries(c, items, x, trip, now)
            == var marked := MissedIf(!trip.delivered(1), items, x);
               if GetsThrough(trip, c.attempts) then DispatcherMark(marked, x, Dispatched, Some(now)) else marked
  {
  }

  /** The world `s` with these tables and dispatcher `d` at work. */
  function OnTheWay(s: World, dq: Table, items: Items, d: WorkerId, h: Hold, pc: DispatcherPc): World {
    s.(dq := dq, items := items, dispatchers := s.dispatchers[d := DispatcherWork(h, pc)])
  }

  /** The same, with dispatcher `d` idle. */
  function Parked(s: World, dq: Table, items: Items, d: WorkerId): World {
    s.(dq := dq, items := items, dispatchers := s.dispatchers - {d})
  }

  /** A statement in the middle of a dispatch. */
  lemma DispatcherGoesOn(c: Config, l0: Log, s: World, dq: Table, items: Items, d: WorkerId, h: Hold,
                         pc: DispatcherPc, a: DispatcherStep) returns (l: Log)
    requires Good(c, l0) && Now(l0) == OnTheWay(s, dq, items, d, h, pc)
    requires DispatcherEnabled(Now(l0), d, a) && !a.Accept? && DispatcherGoes(c, Now(l0), d, a).Some?
    ensures |l.es| == |l0.es| + 1
    ensures Onward(c, l0, l, OnTheWay(s, dq, DispatcherOnItems(Now(l0), d, a), d, h,
                                      DispatcherGoes(c, Now(l0), d, a).value))
  {
    l := Further(c, l0, D(d, a));
  }

  /** The end of a dispatch: the last statement, or the failed check after which there is none. */
  lemma DispatcherEnds(c: Config, l0: Log, s: World, dq: Table, items: Items, d: WorkerId, h: Hold,
                       pc: DispatcherPc, a: DispatcherStep) returns (l: Log)
    requires Good(c, l0) && Now(l0) == OnTheWay(s, dq, items, d, h, pc)
    requires DispatcherEnabled(Now(l0), d, a) && (a.Close? || a.GiveBack? || a.CheckFault?)
    ensures Onward(c, l0, l, Parked(s, DispatcherOnDispatch(c, Now(l0), d, a), items, d))
  {
    l := Further(c, l0, D(d, a));
    assert Now(l).dispatchers == s.dispatchers - {d};
  }

  lemma DispatcherAccepts(c: Config, l0: Log, s: World, dq: Table, items: Items, d: WorkerId, x: ItemId, now: Time)
    returns (l: Log)
    requires Good(c, l0) && Now(l0) == Parked(s, dq, items, d) && Oldest(dq, x, now)
    ensures Good(c, l) && l.ss[0] == l0.ss[0] && ClaimsIn(l.es) == ClaimsIn(l0.es) + [x]
    ensures Now(l) == OnTheWay(s, Claim(dq, x, d, now, c.dispatcherLease), items, d,
                               Taken(dq, x, now, c.dispatcherLease), Received)
  {
    l := Then(c, l0, D(d, Accept(x, now)));
    assert l.es[..|l.es| - 1] == l0.es;
    assert Now(l).dispatchers == s.dispatchers[d := DispatcherWork(Taken(dq, x, now, c.dispatcherLease), Received)];
  }

  class Dispatcher {
    const db: Database
    const cfg: Config
    const workerId: WorkerId

    constructor (db: Database, cfg: Config, workerId: WorkerId)
      ensures this.db == db && this.cfg == cfg && this.workerId == workerId
    {
      this.db, this.cfg, this.workerId := db, cfg, workerId;
    }

    /** The world around: the database as it is, everything else as in `s`, this dispatcher at work. */
    ghost function Doing(s: World, h: Hold, pc: DispatcherPc): World
      reads db
    {
      OnTheWay(s, db.dq, db.items, workerId, h, pc)
    }

    ghost function Idle(s: World): World
      reads db
    {
      Parked(s, db.dq, db.items, workerId)
    }

    /** The claim is the pipeline's: an oldest claimable row becomes this worker's, or there is none. */
    method ClaimNextDispatchJob(now: Time, ghost s: World, ghost l0: Log) returns (claimed: Option<Hold>, ghost l: Log)
      requires Good(cfg, l0) && Now(l0) == Idle(s)
      modifies db`dq
      ensures claimed.None? ==> l == l0 && db.dq == old(db.dq) && forall y | y in db.dq :: !Claimable(db.dq[y], now)
      ensures claimed.Some? ==>
                var x := claimed.value.item;
                && Oldest(old(db.dq), x, now)
                && claimed.value == Taken(old(db.dq), x, now, cfg.dispatcherLease)
                && db.dq == Claim(old(db.dq), x, workerId, now, cfg.dispatcherLease)
                && Good(cfg, l) && l.ss[0] == l0.ss[0] && ClaimsIn(l.es) == ClaimsIn(l0.es) + [x]
                && Now(l) == Doing(s, claimed.value, Received)
    {
      l := l0;
      var found := FindOldest(db.dq, now);
      match found
      case None => return None, l;
      case Some(x) =>
        l := DispatcherAccepts(cfg, l0, s, db.dq, db.items, workerId, x, now);
        claimed := Some(Taken(db.dq, x, now, cfg.dispatcherLease));
        db.dq := Claim(db.dq, x, workerId, now, cfg.dispatcherLease);
    }

    method MarkItemStatus(x: ItemId, status: Status, at: Option<Time>)
      modifies db`items
      ensures db.items == DispatcherMark(old(db.items), x, status, at)
    {
      db.items := DispatcherMark(db.items, x, status, at);
    }

    /** Ends a dispatch that has to be repeated. */
    method ReleaseDispatchClaim(h: Hold, ghost s: World, ghost l0: Log) returns (ghost l: Log)
      requires Good(cfg, l0) && Now(l0) == Doing(s, h, Returning)
      modifies db`dq
      ensures Onward(cfg, l0, l, Idle(s)) && db.dq == Release(old(db.dq), h.item, workerId)
    {
      l := DispatcherEnds(cfg, l0, s, db.dq, db.items, workerId, h, Returning, GiveBack);
      db.dq := Release(db.dq, h.item, workerId);
    }

    /** Ends a dispatch that is done, now or earlier. */
    method CompleteDispatchClaim(h: Hold, now: Time, ghost s: World, ghost l0: Log) returns (ghost l: Log)
      requires Good(cfg, l0) && Now(l0) == Doing(s, h, Closing)
      modifies db`dq
      ensures Onward(cfg, l0, l, Idle(s)) && db.dq == Finish(old(db.dq), h.item, workerId, now)
    {
      l := DispatcherEnds(cfg, l0, s, db.dq, db.items, workerId, h, Closing, Close(now));
      db.dq := Finish(db.dq, h.item, workerId, now);
    }

    /** A failed delivery marks the item. */
    method NoteMiss(h: Hold, attempt: nat, cancelled: bool, ghost s: World, ghost l0: Log) returns (ghost l: Log)
      requires Good(cfg, l0) && Now(l0) == Doing(s, h, Delivering(attempt))
      modifies db`items
      ensures Onward(cfg, l0, l, Doing(s, h, AfterMiss(cfg, attempt, cancelled))) && |l.es| == |l0.es| + 1
      ensures db.items == DispatcherMark(old(db.items), h.item, Failed, None)
    {
      l := DispatcherGoesOn(cfg, l0, s, db.dq, db.items, workerId, h, Delivering(attempt), Miss(h.item, cancelled));
      MarkItemStatus(h.item, Failed, None);
    }

    /** The loop of retry.Exponential around deliver; every failed delivery marks the item. */
    method Attempt(h: Hold, trip: Trip, ghost s: World, ghost l0: Log) returns (sent: bool, calls: nat, ghost l: Log)
      requires Good(cfg, l0) && Now(l0) == Doing(s, h, Delivering(1))
      modifies db`items
      ensures Onward(cfg, l0, l, Doing(s, h, if sent then Confirming else Returning)) && |l.es| == |l0.es| + calls
      ensures sent == trip.delivered(calls) && calls == RetryCalls(cfg.attempts, Posts(trip))
      ensures db.items == MissedIf(!trip.delivered(1), old(db.items), h.item)
    {
      calls := 1;
      l := l0;
      while true
        invariant 1 <= calls <= Limit(cfg.attempts) && (calls > 1 ==> !trip.delivered(1))
        invariant LastCall(Limit(cfg.attempts), Posts(trip), calls) == RetryCalls(cfg.attempts, Posts(trip))
        invariant db.items == MissedIf(calls > 1, old(db.items), h.item)
        invariant Onward(cfg, l0, l, Doing(s, h, Delivering(calls))) && |l.es| == |l0.es| + calls - 1
        decreases cfg.attempts - calls
      {
        if trip.delivered(calls) {
          l := DispatcherGoesOn(cfg, l, s, db.dq, db.items, workerId, h, Delivering(calls), Deliver(h.item));
          return true, calls, l;
        }
        l := NoteMiss(h, calls, trip.cancelled(calls), s, l);
        MissedTwice(old(db.items), h.item, calls > 1);
        if calls >= cfg.attempts || trip.cancelled(calls) { return false, calls, l; }
        calls := calls + 1;
      }
    }

    /**
     The attempts at a delivery. They go on until one gets through, a cancellation or the last of max(1,
     RetryAttempts), as the retry loop does; each is one step of the trace. A failed one leaves the item FAILED, with
     its analysis and its date.
     */
    method DeliverWithRetries(h: Hold, trip: Trip, ghost s: World, ghost l0: Log)
      returns (sent: bool, calls: nat, ghost l: Log)
      requires Good(cfg, l0) && Now(l0) == Doing(s, h, Delivering(1))
      modifies db`items
      ensures Onward(cfg, l0, l, Doing(s, h, if sent then Confirming else Returning)) && |l.es| == |l0.es| + calls
      ensures calls == RetryCalls(cfg.attempts, Posts(trip)) && 1 <= calls <= Limit(cfg.attempts)
      ensures forall i | 1 <= i < calls :: !trip.delivered(i) && !trip.cancelled(i)
      ensures sent == trip.delivered(calls) && (!sent && calls < Limit(cfg.attempts) ==> trip.cancelled(calls))
      ensures db.items == MissedIf(!trip.delivered(1), old(db.items), h.item)
      ensures OnlyItem(old(db.items), db.items, h.item)
      ensures (!sent || calls > 1) && h.item in old(db.items) ==>
                db.items[h.item] == Item(Failed, old(db.items)[h.item].analyzed, old(db.items)[h.item].dispatchedAt)
      ensures sent && calls == 1 ==> db.items == old(db.items)
    {
      sent, calls, l := Attempt(h, trip, s, l0);
      LastPost(trip, cfg.attempts);
    }

    /** From the last delivery to the last statement. */
    method Settle(h: Hold, sent: bool, now: Time, ghost s: World, ghost l0: Log) returns (ghost l: Log)
      requires Good(cfg, l0) && Now(l0) == Doing(s, h, if sent then Confirming else Returning)
      modifies db`dq, db`items
      ensures Onward(cfg, l0, l, Idle(s))
      ensures db.dq == EndClaim(old(db.dq), h.item, workerId, now, sent)
      ensures db.items == if sent then DispatcherMark(old(db.items), h.item, Dispatched, Some(now)) else old(db.items)
    {
      if sent {
        l := DispatcherGoesOn(cfg, l0, s, db.dq, db.items, workerId, h, Confirming, Confirm(now));
        MarkItemStatus(h.item, Dispatched, Some(now));
        l := CompleteDispatchClaim(h, now, s, l);
      } else {
        l := ReleaseDispatchClaim(h, s, l0);
      }
    }

    /** The template, the deliveries and what follows from them. */
    method Send(h: Hold, trip: Trip, now: Time, ghost s: World, ghost l0: Log) returns (sent: bool, ghost l: Log)
      requires Good(cfg, l0) && Now(l0) == Doing(s, h, Delivering(1))
      modifies db`dq, db`items
      ensures Onward(cfg, l0, l, Idle(s))
      ensures sent == (!trip.templateFails && GetsThrough(trip, cfg.attempts))
      ensures db.dq == EndClaim(old(db.dq), h.item, workerId, now, sent)
      ensures db.items == AfterDeliveries(cfg, old(db.items), h.item, trip, now)
    {
      if trip.templateFails {
        l := DispatcherGoesOn(cfg, l0, s, db.dq, db.items, workerId, h, Delivering(1), Decline);
        l := ReleaseDispatchClaim(h, s, l);
        return false, l;
      }
      var calls;
      sent, calls, l := DeliverWithRetries(h, trip, s, l0);
      MissesAreOverwritten(cfg, old(db.items), h.item, trip, now);
      l := Settle(h, sent, now, s, l);
    }

    /**
     One claim, from the rate limiter to the last statement: the trace goes on to this worker being idle. A dispatched
     item is closed unsent, a failed check leaves everything as it is, and otherwise the item is sent or put back.
     */
    method HandleClaimedMessage(h: Hold, trip: Trip, now: Time, ghost s: World, ghost l0: Log)
      returns (sent: bool, ghost l: Log)
      requires Good(cfg, l0) && Now(l0) == Doing(s, h, Received)
      modifies db`dq, db`items
      ensures Onward(cfg, l0, l, Idle(s))
      ensures trip.limiterFails || !h.payload.decodable ==>
                !sent && db.items == old(db.items) && db.dq == Release(old(db.dq), h.item, workerId)
      ensures !trip.limiterFails && h.payload.decodable ==>
                if trip.checkFails then !sent && db.items == old(db.items) && db.dq == old(db.dq)
                else if AlreadyDispatched(old(db.items), h.item) then
                  !sent && db.items == old(db.items) && db.dq == Finish(old(db.dq), h.item, workerId, now)
                else
                  && sent == (!trip.templateFails && GetsThrough(trip, cfg.attempts))
                  && db.items == AfterDeliveries(cfg, old(db.items), h.item, trip, now)
                  && db.dq == EndClaim(old(db.dq), h.item, workerId, now, sent)
    {
      sent := false;
      if trip.limiterFails || !h.payload.decodable {
        l := DispatcherGoesOn(cfg, l0, s, db.dq, db.items, workerId, h, Received, Decline);
        l := ReleaseDispatchClaim(h, s, l);
        return;
      }
      if trip.checkFails {
        l := DispatcherEnds(cfg, l0, s, db.dq, db.items, workerId, h, Received, CheckFault);
        return;
      }
      l := DispatcherGoesOn(cfg, l0, s, db.dq, db.items, workerId, h, Received, Check);
      if AlreadyDispatched(db.items, h.item) {
        l := CompleteDispatchClaim(h, now, s, l);
        return;
      }
      sent, l := Send(h, trip, now, s, l);
    }
  }

  // ---------- The web-admin ----------

  datatype RequeueMode = NotFound | RawMode | AnalyzedMode

  lemma RequestAsks(c: Config, l0: Log, b: AdminId, x: ItemId) returns (l: Log)
    requires Good(c, l0) && b !in Now(l0).admins && x in Now(l0).items
    ensures l.es == l0.es + [W(b, Ask(x))]
    ensures var s := Now(l0); Onward(c, l0, l, s.(admins := s.admins[b := AdminWork(x, s.items[x].analyzed)]))
  {
    l := Further(c, l0, W(b, Ask(x)));
  }

  /** What a requeue with this stored analysis leaves. */
  function Requeued(s: World, x: ItemId, raw: Payload, now: Time, stored: Option<Payload>): World {
    match stored
    case None => s.(aq := Enqueue(s.aq, x, raw, now), items := Reopen(s.items, x, New))
    case Some(p) => s.(dq := Enqueue(s.dq, x, p, now), items := Reopen(s.items, x, Analyzed))
  }

  lemma EnqueuedWaits(rows: Table, x: ItemId, p: Payload, now: Time)
    ensures Waits(Enqueue(rows, x, p, now), x, p) && OnlyRow(rows, Enqueue(rows, x, p, now), x)
  {
  }

  lemma ReopenedIs(items: Items, x: ItemId, status: Status)
    requires x in items
    ensures OnlyItem(items, Reopen(items, x, status), x)
    ensures Reopen(items, x, status)[x] == Item(status, items[x].analyzed, None)
  {
  }

  /** What it leaves, column by column. */
  lemma RequeuedMeans(s: World, x: ItemId, raw: Payload, now: Time)
    requires x in s.items
    ensures var stored := s.items[x].analyzed; var s' := Requeued(s, x, raw, now, stored);
            && OnlyItem(s.items, s'.items, x)
            && s'.items[x] == Item(if stored.Some? then Analyzed else New, stored, None)
            && (stored.None? ==> s'.dq == s.dq && Waits(s'.aq, x, raw) && OnlyRow(s.aq, s'.aq, x))
            && (stored.Some? ==> s'.aq == s.aq && Waits(s'.dq, x, stored.value) && OnlyRow(s.dq, s'.dq, x))
  {
    match s.items[x].analyzed
    case None =>
      ReopenedIs(s.items, x, New);
      EnqueuedWaits(s.aq, x, raw, now);
    case Some(p) =>
      ReopenedIs(s.items, x, Analyzed);
      EnqueuedWaits(s.dq, x, p, now);
  }

  lemma RequestEnds(c: Config, l0: Log, b: AdminId, x: ItemId, raw: Payload, now: Time, stored: Option<Payload>)
    returns (l: Log)
    requires Good(c, l0) && b in Now(l0).admins && Now(l0).admins[b] == AdminWork(x, stored)
    ensures l.es == l0.es + [W(b, Requeue(x, raw, now))]
    ensures var s := Now(l0); Onward(c, l0, l, Requeued(s.(admins := s.admins - {b}), x, raw, now, stored))
  {
    l := Further(c, l0, W(b, Requeue(x, raw, now)));
  }

  lemma NothingLeft(admins: map<AdminId, AdminWork>, b: AdminId, work: AdminWork)
    requires b !in admins
    ensures admins[b := work] - {b} == admins
  {
  }

  /** The two steps of a requeue request, taken together. */
  lemma RequestRequeues(c: Config, l0: Log, b: AdminId, x: ItemId, raw: Payload, now: Time) returns (l: Log)
    requires Good(c, l0) && b !in Now(l0).admins && x in Now(l0).items
    ensures l.es == l0.es + [W(b, Ask(x)), W(b, Requeue(x, raw, now))]
    ensures Onward(c, l0, l, Requeued(Now(l0), x, raw, now, Now(l0).items[x].analyzed))
  {
    var s := Now(l0);
    var asked := RequestAsks(c, l0, b, x);
    NothingLeft(s.admins, b, AdminWork(x, s.items[x].analyzed));
    assert Now(asked).(admins := Now(asked).admins - {b}) == s;
    l := RequestEnds(c, asked, b, x, raw, now, s.items[x].analyzed);
  }

  class WebAdmin {
    const db: Database

    constructor (db: Database)
      ensures this.db == db
    {
      this.db := db;
    }

    /** The database as it is, every process as in `s`. */
    ghost function Around(s: World): World
      reads db
    {
      s.(aq := db.aq, dq := db.dq, items := db.items)
    }

    method SendBack(
        x: ItemId, raw: Payload, now: Time, ghost c: Config, ghost b: AdminId, ghost s: World, ghost l0: Log)
      returns (mode: RequeueMode, ghost l: Log)
      requires Good(c, l0) && Now(l0) == Around(s) && b !in s.admins
      modifies db
      ensures Onward(c, l0, l, Around(s))
      ensures mode == (if x !in old(db.items) then NotFound else if old(db.items)[x].analyzed.None? then RawMode
                       else AnalyzedMode)
      ensures mode.NotFound? ==> Around(s) == old(Around(s)) && l == l0
      ensures !mode.NotFound? ==> l.es == l0.es + [W(b, Ask(x)), W(b, Requeue(x, raw, now))]
      ensures !mode.NotFound? ==> Around(s) == Requeued(old(Around(s)), x, raw, now, old(db.items)[x].analyzed)
    {
      l := l0;
      if x !in db.items { return NotFound, l; }
      l := RequestRequeues(c, l0, b, x, raw, now);
      var stored := db.items[x].analyzed;
      match stored
      case None =>
        db.aq := Enqueue(db.aq, x, raw, now);
        db.items := Reopen(db.items, x, New);
        mode := RawMode;
      case Some(p) =>
        db.dq := Enqueue(db.dq, x, p, now);
        db.items := Reopen(db.items, x, Analyzed);
        mode := AnalyzedMode;
    }

    /**
     A requeue is the request's two pipeline steps: it goes where the stored analysis says, clears the owner of the row
     and reopens the item. A missing item changes nothing.
     */
    method HandleItemRequeue(x: ItemId, raw: Payload, now: Time, ghost c: Config, ghost b: AdminId, ghost s: World,
                             ghost l0: Log)
      returns (mode: RequeueMode, ghost l: Log)
      requires Good(c, l0) && Now(l0) == Around(s) && b !in s.admins
      modifies db
      ensures Onward(c, l0, l, Around(s))
      ensures mode.NotFound? <==> x !in old(db.items)
      ensures mode.NotFound? ==> Around(s) == old(Around(s)) && l == l0
      ensures mode.RawMode? <==> x in old(db.items) && old(db.items)[x].analyzed.None?
      ensures !mode.NotFound? ==> l.es == l0.es + [W(b, Ask(x)), W(b, Requeue(x, raw, now))]
      ensures OnlyItem(old(db.items), db.items, x)
      ensures mode.RawMode? ==>
                && db.items[x] == Item(New, None, None) && db.dq == old(db.dq)
                && Waits(db.aq, x, raw) && OnlyRow(old(db.aq), db.aq, x)
      ensures mode.AnalyzedMode? ==>
                && old(db.items)[x].analyzed.Some? && db.aq == old(db.aq)
                && db.items[x] == Item(Analyzed, old(db.items)[x].analyzed, None)
                && Waits(db.dq, x, old(db.items)[x].analyzed.value) && OnlyRow(old(db.dq), db.dq, x)
    {
      ghost var before := Around(s);
      mode, l := SendBack(x, raw, now, c, b, s, l0);
      ghost var after := Around(s);
      assert after.aq == db.aq && after.dq == db.dq && after.items == db.items;
      if !mode.NotFound? { RequeuedMeans(before, x, raw, now); }
    }

    /** The delete transaction is one pipeline step: the item and both its queue rows go, or nothing at all. */
    method HandleItemDelete(x: ItemId, ghost c: Config, ghost b: AdminId, ghost s: World, ghost l0: Log)
      returns (found: bool, ghost l: Log)
      requires Good(c, l0) && Now(l0) == Around(s)
      modifies db
      ensures Onward(c, l0, l, Around(s))
      ensures found == (x in old(db.items)) && l.es == if found then l0.es + [W(b, Delete(x))] else l0.es
      ensures x !in db.items && (found ==> x !in db.aq && x !in db.dq)
      ensures !found ==> Around(s) == old(Around(s))
    {
      l := l0;
      found := x in db.items;
      if !found { return; }
      l := Further(c, l, W(b, Delete(x)));
      db.items := db.items - {x};
      db.aq := db.aq - {x};
      db.dq := db.dq - {x};
    }
  }
}
