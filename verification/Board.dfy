/**
 The web-admin's pipeline board: the lane of an item, the loop that fills the lanes, and why the anomalies lane
 stays empty while handlings of an item do not overlap and nobody interferes with an item being worked on.
 */
module Board {
  import opened Options
  import opened LeaseQueue
  import opened Pipeline
  import opened Stranding
  import opened Deliveries
  import opened StoredAnalysisAgrees

  datatype Lane = RawBacklog | RawInflight | AnalyzedBacklog | AnalyzedInflight | FailedLane | Anomalies

  function RowOf(rows: Table, x: ItemId): Option<Row> {
    if x in rows then Some(rows[x]) else None
  }

  predicate InState(r: Option<Row>, st: RowState) {
    r.Some? && r.value.state == st
  }

  predicate Live(r: Option<Row>) { r.Some? && !r.value.state.Done? }

  /**
   The lane CASE; None where the query answers the empty string. The anomalies are the waiting items without a live
   row.
  */
  function LaneOf(status: Status, aq: Option<Row>, dq: Option<Row>): (lane: Option<Lane>)
    ensures lane == Some(RawInflight) <==> InState(aq, Leased)
    ensures lane == Some(RawBacklog) <==> InState(aq, Queued)
    ensures lane == Some(AnalyzedInflight) <==> InState(dq, Leased) && !Live(aq)
    ensures lane == Some(AnalyzedBacklog) <==> InState(dq, Queued) && !Live(aq)
    ensures lane == Some(Anomalies) <==> (status.New? || status.Analyzed?) && !Live(aq) && !Live(dq)
    ensures lane == Some(FailedLane) <==> status.Failed? && !Live(aq) && !Live(dq)
    ensures lane.None? <==> status.Dispatched? && !Live(aq) && !Live(dq)
  {
    if InState(aq, Leased) then Some(RawInflight)
    else if InState(aq, Queued) then Some(RawBacklog)
    else if InState(dq, Leased) then Some(AnalyzedInflight)
    else if InState(dq, Queued) then Some(AnalyzedBacklog)
    else if status.Failed? then Some(FailedLane)
    else if status.Dispatched? then None
    else if status.Analyzed? && InState(dq, Done) then Some(Anomalies)
    else if status.New? && InState(aq, Done) then Some(Anomalies)
    else if status.Analyzed? && dq.None? then Some(Anomalies)
    else if status.New? && aq.None? then Some(Anomalies)
    else None
  }

  // ---------- Filling the lanes ----------

  datatype Entry = Entry(item: ItemId, lane: Option<Lane>)

  /** The items of one lane, in the order of the query. */
  function InLane(rows: seq<Entry>, l: Lane): seq<ItemId> {
    if rows == [] then []
    else
      var front, last := rows[..|rows| - 1], rows[|rows| - 1];
      InLane(front, l) + if last.lane == Some(l) then [last.item] else []
  }

  /** A lane of two batches of rows is the lane of the first and then that of the second. */
  lemma {:induction false} LanesJoin(a: seq<Entry>, b: seq<Entry>, l: Lane)
    ensures InLane(a + b, l) == InLane(a, l) + InLane(b, l)
  {
    if b == [] {
      assert a + b == a;
    } else {
      var front, last := b[..|b| - 1], b[|b| - 1];
      LanesJoin(a, front, l);
      assert (a + b)[..|a + b| - 1] == a + front && (a + b)[|a + b| - 1] == last;
    }
  }

  /** A row is in its own lane and in no other. */
  lemma RowInLane(row: Entry, l: Lane)
    ensures InLane([row], l) == if row.lane == Some(l) then [row.item] else []
  {
    assert [row][..0] == [];
  }

  function Shortened<T>(s: seq<T>, n: nat): seq<T> {
    if |s| <= n then s else s[..n]
  }

  /** `counts` and `shown` are right for these rows: every lane has an entry. */
  ghost predicate LanesShow(rows: seq<Entry>, limit: nat, counts: map<Lane, nat>, shown: map<Lane, seq<ItemId>>) {
    forall l: Lane :: l in counts && l in shown
                      && counts[l] == |InLane(rows, l)| && shown[l] == Shortened(InLane(rows, l), limit)
  }

  lemma OneMoreRow(rows: seq<Entry>, row: Entry, limit: nat, counts: map<Lane, nat>, shown: map<Lane, seq<ItemId>>,
                   l: Lane)
    requires LanesShow(rows, limit, counts, shown) && row.lane == Some(l)
    ensures LanesShow(rows + [row], limit, counts[l := counts[l] + 1],
                      if |shown[l]| < limit then shown[l := shown[l] + [row.item]] else shown)
  {
    assert (rows + [row])[..|rows|] == rows;
  }

  /** Every lane counts all its items and shows the first `limit` of them. */
  method FillLanes(rows: seq<Entry>, limit: nat) returns (counts: map<Lane, nat>, shown: map<Lane, seq<ItemId>>)
    ensures LanesShow(rows, limit, counts, shown)
  {
    counts := map[RawBacklog := 0, RawInflight := 0, AnalyzedBacklog := 0, AnalyzedInflight := 0,
                  FailedLane := 0, Anomalies := 0];
    shown := map[RawBacklog := [], RawInflight := [], AnalyzedBacklog := [], AnalyzedInflight := [],
                 FailedLane := [], Anomalies := []];
    forall l: Lane ensures l in counts && l in shown && counts[l] == 0 && shown[l] == [] {
      match l {
        case RawBacklog =>
        case RawInflight =>
        case AnalyzedBacklog =>
        case AnalyzedInflight =>
        case FailedLane =>
        case Anomalies =>
      }
    }
    for i := 0 to |rows|
      invariant LanesShow(rows[..i], limit, counts, shown)
    {
      assert rows[..i + 1] == rows[..i] + [rows[i]];
      if rows[i].lane.None? {
        assert forall l :: InLane(rows[..i + 1], l) == InLane(rows[..i], l) by {
          assert rows[..i + 1][..i] == rows[..i];
        }
        continue;
      }
      var l := rows[i].lane.value;
      OneMoreRow(rows[..i], rows[i], limit, counts, shown, l);
      counts := counts[l := counts[l] + 1];
      if |shown[l]| < limit {
        shown := shown[l := shown[l] + [rows[i].item]];
      }
    }
    assert rows[..|rows|] == rows;
  }

  /** The lanes partition the items that have one: their counts add up. */
  lemma {:induction false} LanesPartition(rows: seq<Entry>)
    ensures |InLane(rows, RawBacklog)| + |InLane(rows, RawInflight)| + |InLane(rows, AnalyzedBacklog)|
            + |InLane(rows, AnalyzedInflight)| + |InLane(rows, FailedLane)| + |InLane(rows, Anomalies)|
            == |Placed(rows)|
  {
    if rows != [] {
      LanesPartition(rows[..|rows| - 1]);
      match rows[|rows| - 1].lane
      case None =>
      case Some(l) => match l {
        case RawBacklog =>
        case RawInflight =>
        case AnalyzedBacklog =>
        case AnalyzedInflight =>
        case FailedLane =>
        case Anomalies =>
      }
    }
  }

  function Placed(rows: seq<Entry>): seq<ItemId> {
    if rows == [] then []
    else
      var last := rows[|rows| - 1];
      Placed(rows[..|rows| - 1]) + if last.lane.Some? then [last.item] else []
  }

  // ---------- Status and date ----------

  predicate DatedIffDispatched(s: World, x: ItemId) {
    x in s.items ==> (s.items[x].status.Dispatched? <==> s.items[x].dispatchedAt.Some?)
  }

  /** The event gives a dispatched item another status and leaves its date. */
  predicate Discords(s: World, e: Event, x: ItemId) {
    && Dated(s, x)
    && match e
       case D(_, Miss(y, _)) => y == x
       case R(r, Publish(_)) => Reads(s, r, x)
       case R(r, PublishFault) => Reads(s, r, x)
       case _ => false
  }

  /**
   A step keeps date and status in agreement exactly when it is not a failed delivery or a publication of a dated
   item.
  */
  lemma StepAgreesIff(c: Config, s: World, e: Event, x: ItemId)
    requires CanStep(s, e) && DatedIffDispatched(s, x)
    ensures DatedIffDispatched(Next(c, s, e), x) <==> !Discords(s, e, x)
  {
  }

  /**
   In a whole run `dispatched_at` is set exactly for DISPATCHED items, in every state, if and only if no event
   discords.
  */
  lemma {:induction false} RunAgreesIff(c: Config, ss: seq<World>, es: seq<Event>, x: ItemId, i: nat)
    requires IsTrace(c, ss, es) && ss[0] == START && i < |ss|
    ensures (forall k | 0 <= k <= i :: DatedIffDispatched(ss[k], x)) <==>
              (forall n | 0 <= n < i :: !Discords(ss[n], es[n], x))
  {
    if i > 0 {
      RunAgreesIff(c, ss, es, x, i - 1);
      assert CanStep(ss[i - 1], es[i - 1]) && ss[i] == Next(c, ss[i - 1], es[i - 1]);
      if forall k | 0 <= k <= i - 1 :: DatedIffDispatched(ss[k], x) {
        assert DatedIffDispatched(ss[i - 1], x);
        StepAgreesIff(c, ss[i - 1], es[i - 1], x);
      }
    }
  }

  // ---------- Calm runs ----------

  /** No worker and no reader is in the middle of something with `x`. */
  ghost predicate Unattended(s: World, x: ItemId) {
    && (forall w :: !Handles(s, w, x))
    && (forall d :: !Dispatching(s, d, x))
    && (forall r :: !Reads(s, r, x))
  }

  /**
   Claims go to items nobody handles in that queue; requeues, deletions and clean-ups go to items left alone by
   everybody; readers do not die in the middle.
   */
  ghost predicate Calm(s: World, e: Event) {
    match e
    case A(_, Take(x, _)) => forall w :: !Handles(s, w, x)
    case D(_, Accept(x, _)) => forall d :: !Dispatching(s, d, x)
    case W(_, Requeue(x, _, _)) => x in s.items && Unattended(s, x)
    case W(_, Delete(x)) => Unattended(s, x)
    case R(_, Cleanup(xs)) => forall x | x in xs :: Unattended(s, x) && !LiveRow(s.aq, x) && !LiveRow(s.dq, x)
    case R(_, Vanish) => false
    case _ => true
  }

  /** An item still with its reader, or gone, has nothing else going on. */
  ghost predicate Quiet(s: World, x: ItemId) {
    && !LiveRow(s.aq, x) && !LiveRow(s.dq, x)
    && (forall w :: !Handles(s, w, x))
    && (forall d :: !Dispatching(s, d, x))
    && !Dated(s, x)
  }

  ghost predicate Orderly(s: World, x: ItemId) {
    && RowsOk(s, x)
    && (forall v, w | Handles(s, v, x) && Handles(s, w, x) :: v == w)
    && (forall v, d | Dispatching(s, v, x) && Dispatching(s, d, x) :: v == d)
    && (forall w | Handles(s, w, x) :: OwnedBy(s.aq, x, w))
    && (x !in s.items ==> Quiet(s, x) && Unattended(s, x))
    && (forall r | Reads(s, r, x) :: Quiet(s, x))
    && (forall q, r | Reads(s, q, x) && Reads(s, r, x) :: q == r)
    && (forall d | Dispatching(s, d, x) && (s.dispatchers[d].pc.Delivering? || s.dispatchers[d].pc.Confirming?) ::
          !Dated(s, x))
    && DispatchedIsDated(s, x)
  }

  /** Nothing about `x` has changed. */
  ghost predicate Same(s: World, s': World, x: ItemId) {
    && (x in s'.items <==> x in s.items) && (x in s.items ==> s'.items[x] == s.items[x])
    && RowOf(s'.aq, x) == RowOf(s.aq, x) && RowOf(s'.dq, x) == RowOf(s.dq, x)
    && (forall w :: Handles(s', w, x) <==> Handles(s, w, x))
    && (forall d :: Dispatching(s', d, x) <==> Dispatching(s, d, x))
    && (forall d | Dispatching(s, d, x) :: s'.dispatchers[d].pc == s.dispatchers[d].pc)
    && (forall r :: Reads(s', r, x) <==> Reads(s, r, x))
  }

  lemma SameIsOrderly(s: World, s': World, x: ItemId)
    requires Orderly(s, x) && Same(s, s', x)
    ensures Orderly(s', x)
  {
  }

  lemma TakeOrderly(c: Config, s: World, w: WorkerId, t: Time, x: ItemId)
    requires AnalyzerEnabled(s, w, Take(x, t)) && Calm(s, A(w, Take(x, t))) && Orderly(s, x)
    ensures Orderly(AnalyzerApply(c, s, w, Take(x, t)), x)
  {
    var s' := AnalyzerApply(c, s, w, Take(x, t));
    assert forall v | v != w :: Handles(s', v, x) <==> Handles(s, v, x);
    assert forall d :: Dispatching(s', d, x) <==> Dispatching(s, d, x);
    assert forall r :: Reads(s', r, x) <==> Reads(s, r, x);
  }

  /** The worker's own item: its row is the worker's until the handling ends. */
  lemma HandlerOrderly(c: Config, s: World, w: WorkerId, a: AnalyzerStep, x: ItemId)
    requires AnalyzerEnabled(s, w, a) && !a.Take? && Handles(s, w, x) && Orderly(s, x)
    ensures Orderly(AnalyzerApply(c, s, w, a), x)
  {
    var s' := AnalyzerApply(c, s, w, a);
    assert forall v | v != w :: Handles(s', v, x) <==> Handles(s, v, x);
    assert forall d :: Dispatching(s', d, x) <==> Dispatching(s, d, x);
    assert forall r :: Reads(s', r, x) <==> Reads(s, r, x);
  }

  lemma AnalyzerElsewhere(c: Config, s: World, w: WorkerId, a: AnalyzerStep, x: ItemId)
    requires AnalyzerEnabled(s, w, a) && !Handles(s, w, x) && (a.Take? ==> a.x != x)
    ensures Same(s, AnalyzerApply(c, s, w, a), x)
  {
  }

  lemma AcceptOrderly(c: Config, s: World, d: WorkerId, t: Time, x: ItemId)
    requires DispatcherEnabled(s, d, Accept(x, t)) && Calm(s, D(d, Accept(x, t))) && Orderly(s, x)
    ensures Orderly(DispatcherApply(c, s, d, Accept(x, t)), x)
  {
    var s' := DispatcherApply(c, s, d, Accept(x, t));
    assert forall w :: Handles(s', w, x) <==> Handles(s, w, x);
    assert forall v | v != d :: Dispatching(s', v, x) <==> Dispatching(s, v, x);
    assert forall r :: Reads(s', r, x) <==> Reads(s, r, x);
  }

  /** The dispatcher's own item. */
  lemma SenderOrderly(c: Config, s: World, d: WorkerId, a: DispatcherStep, x: ItemId)
    requires DispatcherEnabled(s, d, a) && !a.Accept? && Dispatching(s, d, x) && Orderly(s, x)
    ensures Orderly(DispatcherApply(c, s, d, a), x)
  {
    var s' := DispatcherApply(c, s, d, a);
    assert forall w :: Handles(s', w, x) <==> Handles(s, w, x);
    assert forall v | v != d :: Dispatching(s', v, x) <==> Dispatching(s, v, x);
    assert forall r :: Reads(s', r, x) <==> Reads(s, r, x);
  }

  lemma DispatcherElsewhere(c: Config, s: World, d: WorkerId, a: DispatcherStep, x: ItemId)
    requires DispatcherEnabled(s, d, a) && !Dispatching(s, d, x) && (a.Accept? ==> a.x != x)
    ensures Same(s, DispatcherApply(c, s, d, a), x)
  {
  }

  lemma ReaderOrderly(s: World, r: ReaderId, a: ReaderStep, x: ItemId)
    requires ReaderEnabled(s, r, a) && Calm(s, R(r, a)) && Orderly(s, x)
    requires if a.Insert? then a.x == x else !a.Cleanup? && Reads(s, r, x)
    ensures Orderly(ReaderApply(s, r, a), x)
  {
    var s' := ReaderApply(s, r, a);
    assert forall w :: Handles(s', w, x) <==> Handles(s, w, x);
    assert forall d :: Dispatching(s', d, x) <==> Dispatching(s, d, x);
    assert forall q | q != r :: Reads(s', q, x) <==> Reads(s, q, x);
  }

  lemma CleanupOrderly(s: World, r: ReaderId, xs: set<ItemId>, x: ItemId)
    requires Calm(s, R(r, Cleanup(xs))) && x in xs && Orderly(s, x)
    ensures Orderly(ReaderApply(s, r, Cleanup(xs)), x)
  {
    var s' := ReaderApply(s, r, Cleanup(xs));
    assert forall w :: Handles(s', w, x) <==> Handles(s, w, x);
    assert forall d :: Dispatching(s', d, x) <==> Dispatching(s, d, x);
    assert forall q :: Reads(s', q, x) <==> Reads(s, q, x);
  }

  lemma ReaderElsewhere(s: World, r: ReaderId, a: ReaderStep, x: ItemId)
    requires ReaderEnabled(s, r, a)
    requires if a.Insert? then a.x != x else if a.Cleanup? then x !in a.xs else !Reads(s, r, x)
    ensures Same(s, ReaderApply(s, r, a), x)
  {
  }

  lemma AdminOrderly(s: World, b: AdminId, a: AdminStep, x: ItemId)
    requires AdminEnabled(s, b, a) && Calm(s, W(b, a)) && Orderly(s, x)
    requires (a.Requeue? || a.Delete?) && a.x == x
    ensures Orderly(AdminApply(s, b, a), x)
  {
    var s' := AdminApply(s, b, a);
    assert forall w :: Handles(s', w, x) <==> Handles(s, w, x);
    assert forall d :: Dispatching(s', d, x) <==> Dispatching(s, d, x);
    assert forall r :: Reads(s', r, x) <==> Reads(s, r, x);
  }

  lemma AdminElsewhere(s: World, b: AdminId, a: AdminStep, x: ItemId)
    requires AdminEnabled(s, b, a) && (a.Requeue? || a.Delete? ==> a.x != x)
    ensures Same(s, AdminApply(s, b, a), x)
  {
  }

  lemma AnalyzerStepOrderly(c: Config, s: World, w: WorkerId, a: AnalyzerStep, x: ItemId)
    requires AnalyzerEnabled(s, w, a) && Calm(s, A(w, a)) && Orderly(s, x)
    ensures Orderly(AnalyzerApply(c, s, w, a), x)
  {
    if a.Take? && a.x == x {
      TakeOrderly(c, s, w, a.t, x);
    } else if Handles(s, w, x) {
      HandlerOrderly(c, s, w, a, x);
    } else {
      AnalyzerElsewhere(c, s, w, a, x);
      SameIsOrderly(s, AnalyzerApply(c, s, w, a), x);
    }
  }

  lemma DispatcherStepOrderly(c: Config, s: World, d: WorkerId, a: DispatcherStep, x: ItemId)
    requires DispatcherEnabled(s, d, a) && Calm(s, D(d, a)) && Orderly(s, x)
    ensures Orderly(DispatcherApply(c, s, d, a), x)
  {
    if a.Accept? && a.x == x {
      AcceptOrderly(c, s, d, a.t, x);
    } else if Dispatching(s, d, x) {
      SenderOrderly(c, s, d, a, x);
    } else {
      DispatcherElsewhere(c, s, d, a, x);
      SameIsOrderly(s, DispatcherApply(c, s, d, a), x);
    }
  }

  lemma ReaderStepOrderly(s: World, r: ReaderId, a: ReaderStep, x: ItemId)
    requires ReaderEnabled(s, r, a) && Calm(s, R(r, a)) && Orderly(s, x)
    ensures Orderly(ReaderApply(s, r, a), x)
  {
    if a.Cleanup? && x in a.xs {
      CleanupOrderly(s, r, a.xs, x);
    } else if if a.Insert? then a.x == x else !a.Cleanup? && Reads(s, r, x) {
      ReaderOrderly(s, r, a, x);
    } else {
      ReaderElsewhere(s, r, a, x);
      SameIsOrderly(s, ReaderApply(s, r, a), x);
    }
  }

  lemma AdminStepOrderly(s: World, b: AdminId, a: AdminStep, x: ItemId)
    requires AdminEnabled(s, b, a) && Calm(s, W(b, a)) && Orderly(s, x)
    ensures Orderly(AdminApply(s, b, a), x)
  {
    if (a.Requeue? || a.Delete?) && a.x == x {
      AdminOrderly(s, b, a, x);
    } else {
      AdminElsewhere(s, b, a, x);
      SameIsOrderly(s, AdminApply(s, b, a), x);
    }
  }

  lemma CalmIsBenign(s: World, e: Event)
    requires CanStep(s, e) && Calm(s, e) && (e.A? && e.w in s.analyzers ==> Orderly(s, s.analyzers[e.w].hold.item))
    ensures Benign(s, e)
  {
    if e.A? && e.w in s.analyzers {
      assert Handles(s, e.w, s.analyzers[e.w].hold.item);
    }
  }

  lemma StepOrderly(c: Config, s: World, e: Event, x: ItemId)
    requires CanStep(s, e) && Calm(s, e) && Orderly(s, x)
    ensures Orderly(Next(c, s, e), x)
  {
    match e
    case A(w, a) => AnalyzerStepOrderly(c, s, w, a, x);
    case D(d, a) => DispatcherStepOrderly(c, s, d, a, x);
    case R(r, a) => ReaderStepOrderly(s, r, a, x);
    case W(b, a) => AdminStepOrderly(s, b, a, x);
  }

  /** An orderly world admits no calm event that sets status and date at odds. */
  lemma CalmNeverDiscords(s: World, e: Event, x: ItemId)
    requires CanStep(s, e) && Calm(s, e) && Orderly(s, x)
    ensures !Discords(s, e, x)
  {
    if e.D? && e.b.Miss? && e.b.x == x {
      assert Dispatching(s, e.d, x);
    }
  }

  lemma {:induction false} CalmRunsStayOrderly(c: Config, ss: seq<World>, es: seq<Event>, x: ItemId, i: nat)
    requires IsTrace(c, ss, es) && ss[0] == START && i < |ss|
    requires forall n | 0 <= n < |es| :: Calm(ss[n], es[n])
    ensures Orderly(ss[i], x)
  {
    if i > 0 {
      CalmRunsStayOrderly(c, ss, es, x, i - 1);
      StepOrderly(c, ss[i - 1], es[i - 1], x);
    }
  }

  /** In calm runs, crashes and failed enqueues included, `dispatched_at` is set exactly for DISPATCHED items. */
  lemma CalmRunsAreOrderly(c: Config, ss: seq<World>, es: seq<Event>, x: ItemId, i: nat)
    requires IsTrace(c, ss, es) && ss[0] == START && i < |ss|
    requires forall n | 0 <= n < |es| :: Calm(ss[n], es[n])
    ensures Orderly(ss[i], x) && DatedIffDispatched(ss[i], x)
  {
    CalmRunsStayOrderly(c, ss, es, x, i);
    forall n | 0 <= n < i ensures !Discords(ss[n], es[n], x) {
      CalmRunsStayOrderly(c, ss, es, x, n);
      CalmNeverDiscords(ss[n], es[n], x);
    }
    RunAgreesIff(c, ss, es, x, i);
  }

  lemma CalmRunsKeep(c: Config, ss: seq<World>, es: seq<Event>, x: ItemId, i: nat)
    requires IsTrace(c, ss, es) && ss[0] == START && i < |ss|
    requires forall n | 0 <= n < |es| :: Calm(ss[n], es[n])
    ensures Kept(ss[i], x)
  {
    forall n | 0 <= n < |es| ensures Benign(ss[n], es[n]) {
      if es[n].A? && es[n].w in ss[n].analyzers {
        CalmRunsStayOrderly(c, ss, es, ss[n].analyzers[es[n].w].hold.item, n);
      }
      CalmIsBenign(ss[n], es[n]);
    }
    BenignRunsStrandNothing(c, ss, es, x, i);
  }

  /** While date and status agree, the anomalies lane shows exactly the pending items without a live row. */
  lemma AnomaliesAreStranded(c: Config, ss: seq<World>, es: seq<Event>, x: ItemId, i: nat)
    requires IsTrace(c, ss, es) && ss[0] == START && i < |ss| && x in ss[i].items
    requires forall n | 0 <= n < i :: !Discords(ss[n], es[n], x)
    ensures LaneOf(ss[i].items[x].status, RowOf(ss[i].aq, x), RowOf(ss[i].dq, x)) == Some(Anomalies)
            <==> Pending(ss[i], x) && !LiveRow(ss[i].aq, x) && !LiveRow(ss[i].dq, x)
  {
    RunAgreesIff(c, ss, es, x, i);
    assert DatedIffDispatched(ss[i], x);
  }

  /** With every process idle the lane is empty, if nothing was struck and nothing discorded. */
  lemma QuietLaneIsEmpty(c: Config, ss: seq<World>, es: seq<Event>, x: ItemId, i: nat)
    requires IsTrace(c, ss, es) && ss[0] == START && i < |ss| && x in ss[i].items
    requires forall n | 0 <= n < i :: !Discords(ss[n], es[n], x) && !Strikes(ss[n], es[n], x)
    requires Quiescent(ss[i])
    ensures LaneOf(ss[i].items[x].status, RowOf(ss[i].aq, x), RowOf(ss[i].dq, x)) != Some(Anomalies)
  {
    AnomaliesAreStranded(c, ss, es, x, i);
    NothingStranded(c, ss, es, x, i);
  }

  /** Calm runs are such runs. */
  lemma AnomaliesLaneIsEmpty(c: Config, ss: seq<World>, es: seq<Event>, x: ItemId, i: nat)
    requires IsTrace(c, ss, es) && ss[0] == START && i < |ss|
    requires forall n | 0 <= n < |es| :: Calm(ss[n], es[n])
    requires Quiescent(ss[i]) && x in ss[i].items
    ensures LaneOf(ss[i].items[x].status, RowOf(ss[i].aq, x), RowOf(ss[i].dq, x)) != Some(Anomalies)
  {
    forall n | 0 <= n < i ensures !Discords(ss[n], es[n], x) && !Strikes(ss[n], es[n], x) {
      CalmRunsStayOrderly(c, ss, es, x, n);
      CalmNeverDiscords(ss[n], es[n], x);
      if es[n].A? && es[n].w in ss[n].analyzers {
        CalmRunsStayOrderly(c, ss, es, ss[n].analyzers[es[n].w].hold.item, n);
      }
      CalmIsBenign(ss[n], es[n]);
      CalmRunsKeep(c, ss, es, x, n);
      BenignNeverStrikes(ss[n], es[n], x);
    }
    QuietLaneIsEmpty(c, ss, es, x, i);
  }
}
