/**
 One analyzer left alone with its queue: it empties the queue, in the order the items were enqueued, within a number
 of claims known beforehand, whatever the analyses answer.
 */
module Drain {
  import opened Options
  import opened Int64
  import opened LeaseQueue
  import opened Pipeline
  import opened Services
  import opened Views

  /** The claims a row may still cost. */
  function Load(m: nat, r: Row): nat {
    if r.state.Done? then 0
    else if r.deliveryCount < m then m - r.deliveryCount
    else 1
  }

  ghost function Work(m: nat, rows: Table): nat
    decreases |rows|
  {
    if rows == map[] then 0
    else
      var x :| x in rows;
      Load(m, rows[x]) + Work(m, rows - {x})
  }

  lemma {:induction false} WorkSplits(m: nat, rows: Table, x: ItemId)
    requires x in rows
    ensures Work(m, rows) == Load(m, rows[x]) + Work(m, rows - {x})
    decreases |rows|
  {
    var y :| y in rows && Work(m, rows) == Load(m, rows[y]) + Work(m, rows - {y});
    if y != x {
      WorkSplits(m, rows - {y}, x);
      WorkSplits(m, rows - {x}, y);
      assert rows - {y} - {x} == rows - {x} - {y};
    }
  }

  /** A row changes and no other does: the work changes by that row's load. */
  lemma WorkMoves(m: nat, rows: Table, rows': Table, x: ItemId)
    requires x in rows && x in rows' && rows - {x} == rows' - {x}
    ensures Work(m, rows') + Load(m, rows[x]) == Work(m, rows) + Load(m, rows'[x])
  {
    WorkSplits(m, rows, x);
    WorkSplits(m, rows', x);
  }

  /** No row costs more than `m` claims. */
  lemma {:induction false} WorkIsBounded(m: nat, rows: Table)
    requires m >= 1
    ensures Work(m, rows) <= m * |rows|
    decreases |rows|
  {
    if rows == map[] {
      assert Work(m, rows) == 0 <= m * |rows|;
    } else {
      var x :| x in rows;
      var rest := rows - {x};
      assert rest.Keys == rows.Keys - {x};
      assert |rest| == |rest.Keys| == |rows.Keys| - 1 == |rows| - 1;
      assert m * |rows| == m * |rest| + m;
      WorkIsBounded(m, rest);
      WorkSplits(m, rows, x);
    }
  }

  /** Nothing is leased, and every payload decodes. */
  ghost predicate Ready(rows: Table) {
    forall x | x in rows :: RowOk(rows[x]) && !rows[x].state.Leased? && rows[x].payload.decodable
  }

  ghost predicate InOrder(rows: Table, log: seq<ItemId>) {
    && (forall i | 0 <= i < |log| :: log[i] in rows)
    && forall i, j | 0 <= i < j < |log| :: rows[log[i]].enqueuedAt <= rows[log[j]].enqueuedAt
  }

  /** Only states and counts have moved. */
  ghost predicate SameOrder(rows: Table, rows': Table) {
    rows'.Keys == rows.Keys && forall x | x in rows :: rows'[x].enqueuedAt == rows[x].enqueuedAt
  }

  /** A claim and its handling close the row or leave it queued with claims to spare. */
  lemma RoundReduces(m: nat, rows: Table, rows': Table, x: ItemId, w: WorkerId, now: Time, lease: Time, closed: bool)
    requires Ready(rows) && Oldest(rows, x, now)
    requires var claimed := Claim(rows, x, w, now, lease);
             && rows' == (if closed then Finish(claimed, x, w, now) else Release(claimed, x, w))
             && (closed || claimed[x].deliveryCount < m)
    ensures Ready(rows') && SameOrder(rows, rows')
    ensures !rows[x].state.Done? && (closed <==> rows'[x].state.Done?)
    ensures forall y | y in rows && y != x :: rows'[y] == rows[y]
    ensures Load(m, rows'[x]) < Load(m, rows[x])
    ensures !closed ==> Load(m, rows[x]) == Load(m, rows'[x]) + 1
    ensures rows[x].deliveryCount + 1 >= m ==> closed && Load(m, rows[x]) == 1
    ensures Work(m, rows') < Work(m, rows)
  {
    assert RowOk(rows[x]);
    assert rows - {x} == rows' - {x};
    WorkMoves(m, rows, rows', x);
  }

  ghost predicate Follows(rows0: Table, log: seq<ItemId>, y: ItemId) {
    y in rows0 && forall i | 0 <= i < |log| :: log[i] in rows0 && rows0[log[i]].enqueuedAt <= rows0[y].enqueuedAt
  }

  /** The log is in order, and every open row belongs after it. */
  ghost predicate Ahead(rows0: Table, rows: Table, log: seq<ItemId>) {
    && InOrder(rows0, log)
    && forall y | y in rows && !rows[y].state.Done? :: Follows(rows0, log, y)
  }

  /** No row opens again. */
  ghost predicate NoneReopened(rows: Table, rows': Table) {
    forall y | y in rows' && !rows'[y].state.Done? :: y in rows && !rows[y].state.Done?
  }

  lemma StillAhead(rows0: Table, rows: Table, rows': Table, log: seq<ItemId>)
    requires Ahead(rows0, rows, log) && NoneReopened(rows, rows')
    ensures Ahead(rows0, rows', log)
  {
  }

  /** The oldest open row extends the log. */
  lemma OldestExtends(rows0: Table, rows: Table, rows': Table, log: seq<ItemId>, x: ItemId, now: Time)
    requires SameOrder(rows0, rows) && Ahead(rows0, rows, log) && Oldest(rows, x, now) && Ready(rows)
    requires NoneReopened(rows, rows')
    ensures Ahead(rows0, rows', log + [x])
  {
    var log' := log + [x];
    assert !rows[x].state.Done?;
    assert Follows(rows0, log, x);
    forall y | y in rows' && !rows'[y].state.Done? ensures Follows(rows0, log', y) {
      assert RowOk(rows[y]) && Claimable(rows[y], now) && Follows(rows0, log, y);
    }
    forall i | 0 <= i < |log'| ensures log'[i] in rows0 {
      if i < |log| { assert log'[i] == log[i]; }
    }
    forall i, j | 0 <= i < j < |log'| ensures rows0[log'[i]].enqueuedAt <= rows0[log'[j]].enqueuedAt {
      if j < |log| { assert log'[i] == log[i] && log'[j] == log[j]; }
    }
  }

  /** The rows closed so far: each of them once, and exactly those that were open before. */
  ghost predicate ClosedAre(rows0: Table, rows: Table, closed: seq<ItemId>) {
    && (forall i, j | 0 <= i < j < |closed| :: closed[i] != closed[j])
    && forall x | x in rows && x in rows0 :: x in closed <==> rows[x].state.Done? && !rows0[x].state.Done?
  }

  /** Each claim made so far is paid for by its row's load, and all together by the work. */
  ghost predicate Paid(m: nat, rows0: Table, rows: Table, log: seq<ItemId>) {
    && |log| + Work(m, rows) <= Work(m, rows0)
    && forall x | x in rows0 :: x in rows && multiset(log)[x] + Load(m, rows[x]) <= Load(m, rows0[x])
  }

  ghost predicate Progress(m: nat, rows0: Table, rows: Table, log: seq<ItemId>, closed: seq<ItemId>) {
    && Ready(rows) && SameOrder(rows0, rows) && NoneReopened(rows0, rows)
    && Paid(m, rows0, rows, log)
    && Ahead(rows0, rows, log)
    && Ahead(rows0, rows, closed)
    && ClosedAre(rows0, rows, closed)
  }

  lemma RoundIsPaid(m: nat, rows0: Table, rows: Table, rows': Table, log: seq<ItemId>, x: ItemId)
    requires Paid(m, rows0, rows, log) && rows.Keys == rows'.Keys && x in rows
    requires forall y | y in rows && y != x :: rows'[y] == rows[y]
    requires Load(m, rows'[x]) < Load(m, rows[x]) && Work(m, rows') < Work(m, rows)
    ensures Paid(m, rows0, rows', log + [x])
  {
    assert multiset(log + [x]) == multiset(log) + multiset{x};
  }

  lemma RoundCloses(rows0: Table, rows: Table, rows': Table, closed: seq<ItemId>, x: ItemId)
    requires ClosedAre(rows0, rows, closed) && rows0.Keys == rows.Keys == rows'.Keys && x in rows
    requires !rows[x].state.Done? && !rows0[x].state.Done?
    requires forall y | y in rows && y != x :: rows'[y] == rows[y]
    ensures ClosedAre(rows0, rows', if rows'[x].state.Done? then closed + [x] else closed)
  {
    assert x !in closed;
    forall y | y in rows ensures y in closed + [x] <==> y in closed || y == x { }
  }

  /** One round on row `x`. */
  ghost predicate Rounded(m: nat, rows: Table, rows': Table, x: ItemId, now: Time, done: bool) {
    && Oldest(rows, x, now) && Ready(rows') && SameOrder(rows, rows')
    && !rows[x].state.Done? && (done <==> rows'[x].state.Done?)
    && (forall y | y in rows && y != x :: rows'[y] == rows[y])
    && Load(m, rows'[x]) < Load(m, rows[x]) && Work(m, rows') < Work(m, rows)
  }

  lemma RoundProgresses(m: nat, rows0: Table, rows: Table, rows': Table, log: seq<ItemId>, closed: seq<ItemId>,
                        x: ItemId, now: Time, done: bool)
    requires Progress(m, rows0, rows, log, closed) && Rounded(m, rows, rows', x, now, done)
    ensures Progress(m, rows0, rows', log + [x], if done then closed + [x] else closed)
  {
    RoundIsPaid(m, rows0, rows, rows', log, x);
    RoundCloses(rows0, rows, rows', closed, x);
    OldestExtends(rows0, rows, rows', log, x, now);
    if done {
      OldestExtends(rows0, rows, rows', closed, x, now);
    } else {
      StillAhead(rows0, rows, rows', closed);
    }
  }

  /** From `l0` on, the claims of `l` are `log`, and it ends in `s`. */
  predicate Continues(l0: Log, l: Log, s: World, log: seq<ItemId>) {
    && |l0.ss| > 0 && |l.ss| > 0 && l.ss[0] == l0.ss[0]
    && Now(l) == s && ClaimsIn(l.es) == ClaimsIn(l0.es) + log
  }

  lemma ContinuesOn(l0: Log, l: Log, l': Log, s: World, s': World, log: seq<ItemId>, more: seq<ItemId>)
    requires Continues(l0, l, s, log) && Continues(l, l', s', more)
    ensures Continues(l0, l', s', log + more)
  {
    assert ClaimsIn(l0.es) + log + more == ClaimsIn(l0.es) + (log + more);
  }

  /** One turn of Run: a claim and its handling, or nothing to claim. */
  method DrainOne(a: Analyzer, plan: Plan, now: Time, ghost s: World, ghost l0: Log)
    returns (claimed: Option<ItemId>, done: bool, ghost l: Log)
    requires Good(a.cfg, l0) && Now(l0) == a.Idle(s)
    requires Ready(a.db.aq) && OnlyAnalysesFail(plan)
    modifies a.db
    ensures Good(a.cfg, l) && Continues(l0, l, a.Idle(s), if claimed.Some? then [claimed.value] else [])
    ensures claimed.None? ==> a.db.aq == old(a.db.aq) && forall y | y in a.db.aq :: a.db.aq[y].state.Done?
    ensures claimed.Some? ==> Rounded(a.cfg.maxDeliveries, old(a.db.aq), a.db.aq, claimed.value, now, done)
  {
    done := false;
    ghost var rows := a.db.aq;
    var hold;
    hold, l := a.ClaimNextRawJob(now, s, l0);
    match hold
    case None =>
      assert forall y | y in rows :: RowOk(rows[y]);
      return None, false, l;
    case Some(h) =>
      assert h.payload.decodable && OwnedBy(a.db.aq, h.item, a.workerId);
      ghost var taken, dq, items := a.db.aq, a.db.dq, a.db.items;
      done, l := a.HandleClaimedMessage(h, plan, now, s, l);
      if !done { PutBackMeansToSpare(a.cfg, a.workerId, taken, dq, items, h, plan, now); }
      RoundReduces(a.cfg.maxDeliveries, rows, a.db.aq, h.item, a.workerId, now, a.cfg.analyzerLease, done);
      claimed := Some(h.item);
  }

  /**
   Every row is DONE. The rows claimed, and the rows closed, came in the order they were enqueued; no row was claimed
   more often than its load allows; and each row that was open was closed once.
   */
  ghost predicate Emptied(m: nat, rows0: Table, rows: Table, log: seq<ItemId>, closed: seq<ItemId>) {
    && rows.Keys == rows0.Keys
    && (forall x | x in rows :: rows[x].state.Done?)
    && |log| <= Work(m, rows0)
    && (forall x | x in rows0 :: multiset(log)[x] <= Load(m, rows0[x]))
    && InOrder(rows0, log) && InOrder(rows0, closed)
    && (forall i, j | 0 <= i < j < |closed| :: closed[i] != closed[j])
    && (forall x | x in rows0 :: x in closed <==> !rows0[x].state.Done?)
  }

  lemma ProgressEmpties(m: nat, rows0: Table, rows: Table, log: seq<ItemId>, closed: seq<ItemId>)
    requires Progress(m, rows0, rows, log, closed) && forall y | y in rows :: rows[y].state.Done?
    ensures Emptied(m, rows0, rows, log, closed)
  {
  }

  /** An open row has cost what was left of its deliveries, or one claim; a closed one nothing; all rows `m` each. */
  lemma EmptiedWithin(m: nat, rows0: Table, rows: Table, log: seq<ItemId>, closed: seq<ItemId>, x: ItemId)
    requires Emptied(m, rows0, rows, log, closed) && m >= 1 && x in rows0
    ensures multiset(log)[x] <= if rows0[x].state.Done? then 0 else Max(1, m - rows0[x].deliveryCount)
    ensures |log| <= m * |rows0|
  {
    WorkIsBounded(m, rows0);
  }

  /** A drain in progress: since `rows0` and `l0` it has claimed `log` and closed `closed`. */
  ghost predicate Underway(a: Analyzer, rows0: Table, s: World, l0: Log, l: Log, log: seq<ItemId>, closed: seq<ItemId>)
    reads a.db
  {
    && Progress(a.cfg.maxDeliveries, rows0, a.db.aq, log, closed)
    && Good(a.cfg, l) && Continues(l0, l, a.Idle(s), log)
  }

  method Turn(a: Analyzer, plan: Plan, now: Time, log0: seq<ItemId>, closed0: seq<ItemId>,
              ghost rows0: Table, ghost s: World, ghost l0: Log, ghost l1: Log)
    returns (more: bool, log: seq<ItemId>, closed: seq<ItemId>, ghost l: Log)
    requires Underway(a, rows0, s, l0, l1, log0, closed0) && OnlyAnalysesFail(plan)
    modifies a.db
    ensures Underway(a, rows0, s, l0, l, log, closed)
    ensures more ==> Work(a.cfg.maxDeliveries, a.db.aq) < Work(a.cfg.maxDeliveries, old(a.db.aq))
    ensures !more ==> forall y | y in a.db.aq :: a.db.aq[y].state.Done?
  {
    ghost var rows, before := a.db.aq, a.Idle(s);
    var claimed, done;
    claimed, done, l := DrainOne(a, plan, now, s, l1);
    match claimed
    case None =>
      ContinuesOn(l0, l1, l, before, a.Idle(s), log0, []);
      assert log0 + [] == log0;
      more, log, closed := false, log0, closed0;
    case Some(x) =>
      ContinuesOn(l0, l1, l, before, a.Idle(s), log0, [x]);
      RoundProgresses(a.cfg.maxDeliveries, rows0, rows, a.db.aq, log0, closed0, x, now, done);
      more, log, closed := true, log0 + [x], if done then closed0 + [x] else closed0;
  }

  /**
   Run, until the queue has nothing to give. Every row ends DONE; rows are claimed, and closed, in the order they were
   enqueued; and a row is claimed no more often than its load allows, a fresh one at most MaxDeliveryAttempts times.
   The whole run is one trace of the pipeline, going on from any trace that has led here, and its claims are the log.
   */
  method DrainQueue(a: Analyzer, plans: nat -> Plan, clock: nat -> Time, ghost s: World, ghost l0: Log)
    returns (log: seq<ItemId>, closed: seq<ItemId>, ghost l: Log)
    requires Good(a.cfg, l0) && Now(l0) == a.Idle(s)
    requires Ready(a.db.aq) && a.cfg.maxDeliveries >= 1
    requires forall n :: OnlyAnalysesFail(plans(n))
    modifies a.db
    ensures Good(a.cfg, l) && Continues(l0, l, a.Idle(s), log)
    ensures Emptied(a.cfg.maxDeliveries, old(a.db.aq), a.db.aq, log, closed)
  {
    ghost var rows0 := a.db.aq;
    log, closed, l := [], [], l0;
    var more := true;
    while more
      invariant Underway(a, rows0, s, l0, l, log, closed)
      invariant !more ==> forall y | y in a.db.aq :: a.db.aq[y].state.Done?
      decreases more, Work(a.cfg.maxDeliveries, a.db.aq)
    {
      more, log, closed, l := Turn(a, plans(|log|), clock(|log|), log, closed, rows0, s, l0, l);
    }
    ProgressEmpties(a.cfg.maxDeliveries, rows0, a.db.aq, log, closed);
  }

  /**
   Theorems about runs from the start apply to the database an analyzer leaves: here, `delivery_count` is the number of
   claims in the history of the whole run.
   */
  lemma CountsAreTheHistory(a: Analyzer, s: World, l: Log, x: ItemId)
    requires Good(a.cfg, l) && l.ss[0] == START && Now(l) == a.Idle(s) && x in a.db.aq
    ensures ClaimsSince(RawEvents(l.ss, l.es), x, |l.es|) == a.db.aq[x].deliveryCount
  {
    DeliveryCountsAreClaims(a.cfg, l.ss, l.es, x, |l.es|);
  }
}
