/**
 One durable work queue with leases.

 The tables `analyzer_queue` and `dispatch_queue` have the same columns and are driven by the same
 SQL statements. This module models one such table: the rows, the statements that change them,
 and what each worker remembers of the claim it is working on. Every time stamp is an argument of its
 event, so two workers may disagree about the time unless a theorem asks for agreement.
 */
module LeaseQueue {
  import opened Options

  type ItemId = nat
  type WorkerId = nat
  type Time = int

  /** A serialised job: opaque, except for whether it decodes. */
  datatype Payload = Payload(body: nat, decodable: bool)

  datatype RowState = Queued | Leased | Done

  datatype Row = Row(
    payload: Payload,
    state: RowState,
    enqueuedAt: Time,
    leaseOwner: Option<WorkerId>,
    leaseUntil: Option<Time>,
    deliveryCount: nat,
    doneAt: Option<Time>
  )

  type Table = map<ItemId, Row>

  // ---------- The SQL statements ----------

  predicate Claimable(r: Row, now: Time) {
    r.state.Queued? || (r.state.Leased? && r.leaseUntil.Some? && r.leaseUntil.value <= now)
  }

  /** `x` is a row the claim's subquery may pick: claimable, and none claimable was enqueued earlier. */
  predicate Oldest(rows: Table, x: ItemId, now: Time) {
    && x in rows
    && Claimable(rows[x], now)
    && forall y | y in rows && Claimable(rows[y], now) :: rows[x].enqueuedAt <= rows[y].enqueuedAt
  }

  function Claim(rows: Table, x: ItemId, w: WorkerId, now: Time, lease: Time): Table
    requires x in rows
  {
    rows[x := rows[x].(state := Leased, leaseOwner := Some(w), leaseUntil := Some(now + lease),
                       deliveryCount := rows[x].deliveryCount + 1)]
  }

  predicate OwnedBy(rows: Table, x: ItemId, w: WorkerId) {
    x in rows && rows[x].leaseOwner == Some(w)
  }

  /** completeClaim and failClaim differ only in the error text they leave behind. */
  function Finish(rows: Table, x: ItemId, w: WorkerId, now: Time): Table {
    if OwnedBy(rows, x, w) then
      rows[x := rows[x].(state := Done, leaseOwner := None, leaseUntil := None,
                         doneAt := if rows[x].doneAt.Some? then rows[x].doneAt else Some(now))]
    else rows
  }

  function Release(rows: Table, x: ItemId, w: WorkerId): Table {
    if OwnedBy(rows, x, w) then
      rows[x := rows[x].(state := Queued, leaseOwner := None, leaseUntil := None)]
    else rows
  }

  /** The upsert: a present row keeps its place in the order, its delivery count and its done_at. */
  function Enqueue(rows: Table, x: ItemId, p: Payload, now: Time): Table {
    if x in rows then
      rows[x := rows[x].(payload := p, state := Queued, leaseOwner := None, leaseUntil := None)]
    else
      rows[x := Row(p, Queued, now, None, None, 0, None)]
  }

  // ---------- The queue as a transition system ----------

  /** What a worker carries from its claim: the item, the payload returned, the attempt, the deadline. */
  datatype Hold = Hold(item: ItemId, payload: Payload, attempt: nat, until: Time)

  datatype QueueState = QueueState(rows: Table, holds: map<WorkerId, Hold>)

  datatype QueueEvent =
    | Claimed(w: WorkerId, x: ItemId, t: Time)
    | Finished(w: WorkerId, t: Time)
    | Released(w: WorkerId)
    | Dropped(w: WorkerId)                        // the worker stops without touching its row
    | Enqueued(x: ItemId, p: Payload, t: Time)
    | Deleted(x: ItemId)
    | Idle                                        // something happened elsewhere

  predicate Enabled(s: QueueState, e: QueueEvent) {
    match e
    case Claimed(w, x, t) => w !in s.holds && Oldest(s.rows, x, t)
    case Finished(w, _) => w in s.holds
    case Released(w) => w in s.holds
    case Dropped(w) => w in s.holds
    case Enqueued(_, _, _) => true
    case Deleted(_) => true
    case Idle => true
  }

  function Taken(rows: Table, x: ItemId, t: Time, lease: Time): Hold
    requires x in rows
  {
    Hold(x, rows[x].payload, rows[x].deliveryCount + 1, t + lease)
  }

  function Apply(lease: Time, s: QueueState, e: QueueEvent): QueueState
    requires Enabled(s, e)
  {
    match e
    case Claimed(w, x, t) => QueueState(Claim(s.rows, x, w, t, lease), s.holds[w := Taken(s.rows, x, t, lease)])
    case Finished(w, t) => QueueState(Finish(s.rows, s.holds[w].item, w, t), s.holds - {w})
    case Released(w) => QueueState(Release(s.rows, s.holds[w].item, w), s.holds - {w})
    case Dropped(w) => s.(holds := s.holds - {w})
    case Enqueued(x, p, t) => s.(rows := Enqueue(s.rows, x, p, t))
    case Deleted(x) => s.(rows := s.rows - {x})
    case Idle => s
  }

  /** `ss[i]` is the state before `es[i]`, and `ss[i + 1]` the state after it. */
  ghost predicate IsRun(lease: Time, ss: seq<QueueState>, es: seq<QueueEvent>) {
    && |ss| == |es| + 1
    && forall i | 0 <= i < |es| :: Enabled(ss[i], es[i]) && ss[i + 1] == Apply(lease, ss[i], es[i])
  }

  const EMPTY := QueueState(map[], map[])

  // ---------- What every step keeps ----------

  predicate RowOk(r: Row) {
    && (r.state.Leased? <==> r.leaseOwner.Some?)
    && (r.state.Leased? <==> r.leaseUntil.Some?)
    && (r.state.Done? ==> r.doneAt.Some?)
  }

  /** If the row still names `w`, it is the very row `w` claimed: same payload, same attempt, same deadline. */
  predicate Fenced(s: QueueState, w: WorkerId)
    requires w in s.holds
  {
    var h := s.holds[w];
    OwnedBy(s.rows, h.item, w) ==>
      var r := s.rows[h.item];
      r.payload == h.payload && r.deliveryCount == h.attempt && r.leaseUntil == Some(h.until)
  }

  ghost predicate Inv(s: QueueState) {
    && (forall x | x in s.rows :: RowOk(s.rows[x]))
    && (forall w | w in s.holds :: Fenced(s, w))
  }

  lemma StepKeepsInv(lease: Time, s: QueueState, e: QueueEvent)
    requires Inv(s) && Enabled(s, e)
    ensures Inv(Apply(lease, s, e))
  {
    var s' := Apply(lease, s, e);
    forall x | x in s'.rows ensures RowOk(s'.rows[x]) {
      if x in s.rows { assert RowOk(s.rows[x]); }
    }
    forall w | w in s'.holds ensures Fenced(s', w) {
      if w in s.holds { assert Fenced(s, w); }
    }
  }

  /**
   In every reachable state LEASED, `lease_owner` and `lease_until` go together, and a row that names a worker is
   exactly the row that worker claimed.
   */
  lemma {:induction false} InvAlways(lease: Time, ss: seq<QueueState>, es: seq<QueueEvent>, i: nat)
    requires IsRun(lease, ss, es) && Inv(ss[0]) && i < |ss|
    ensures Inv(ss[i])
  {
    if i > 0 {
      InvAlways(lease, ss, es, i - 1);
      StepKeepsInv(lease, ss[i - 1], es[i - 1]);
    }
  }

  /** The claims of `x` in the first `i` events, counted from the last deletion of its row. */
  ghost function ClaimsSince(es: seq<QueueEvent>, x: ItemId, i: nat): nat
    requires i <= |es|
  {
    if i == 0 then 0
    else if es[i - 1] == Deleted(x) then 0
    else ClaimsSince(es, x, i - 1) + if es[i - 1].Claimed? && es[i - 1].x == x then 1 else 0
  }

  /** `delivery_count` is the number of claims since the row was inserted: enqueuing again never resets it. */
  lemma {:induction false} DeliveryCountCountsClaims(lease: Time, ss: seq<QueueState>, es: seq<QueueEvent>, x: ItemId,
                                                     i: nat)
    requires IsRun(lease, ss, es) && ss[0] == EMPTY && i < |ss|
    ensures ClaimsSince(es, x, i) == if x in ss[i].rows then ss[i].rows[x].deliveryCount else 0
  {
    if i > 0 {
      DeliveryCountCountsClaims(lease, ss, es, x, i - 1);
      assert ss[i] == Apply(lease, ss[i - 1], es[i - 1]);
    }
  }

  /** `done_at` keeps the first completion, over any number of requeues. */
  lemma {:induction false} FirstCompletionKept(lease: Time, ss: seq<QueueState>, es: seq<QueueEvent>, x: ItemId,
                                               i: nat, j: nat)
    requires IsRun(lease, ss, es) && i <= j < |ss| && x in ss[i].rows && ss[i].rows[x].doneAt.Some?
    requires forall n | i <= n < j :: es[n] != Deleted(x)
    ensures x in ss[j].rows && ss[j].rows[x].doneAt == ss[i].rows[x].doneAt
  {
    if i < j {
      FirstCompletionKept(lease, ss, es, x, i, j - 1);
      assert ss[j] == Apply(lease, ss[j - 1], es[j - 1]);
    }
  }

  /** A row keeps its place in the order from its insertion to its deletion, over claims, releases and requeues. */
  lemma {:induction false} PlaceKept(lease: Time, ss: seq<QueueState>, es: seq<QueueEvent>, x: ItemId, i: nat, j: nat)
    requires IsRun(lease, ss, es) && i <= j < |ss| && x in ss[i].rows
    requires forall n | i <= n < j :: es[n] != Deleted(x)
    ensures x in ss[j].rows && ss[j].rows[x].enqueuedAt == ss[i].rows[x].enqueuedAt
  {
    if i < j {
      PlaceKept(lease, ss, es, x, i, j - 1);
      assert ss[j] == Apply(lease, ss[j - 1], es[j - 1]);
    }
  }

  /** The enqueue at event `i` inserted the row that `x` has before event `j`. */
  ghost predicate Inserted(ss: seq<QueueState>, es: seq<QueueEvent>, x: ItemId, i: nat, j: nat)
    requires |ss| == |es| + 1
  {
    && i < j <= |es| && es[i].Enqueued? && es[i].x == x && x !in ss[i].rows
    && forall n | i < n < j :: es[n] != Deleted(x)
  }

  /** `enqueued_at` is the time of the enqueue that inserted the row. */
  lemma {:induction false} PlaceIsInsertion(lease: Time, ss: seq<QueueState>, es: seq<QueueEvent>, x: ItemId, j: nat)
    returns (i: nat)
    requires IsRun(lease, ss, es) && ss[0] == EMPTY && j < |ss| && x in ss[j].rows
    ensures Inserted(ss, es, x, i, j) && ss[j].rows[x].enqueuedAt == es[i].t
  {
    var s, e := ss[j - 1], es[j - 1];
    assert Enabled(s, e) && ss[j] == Apply(lease, s, e);
    if x in s.rows {
      i := PlaceIsInsertion(lease, ss, es, x, j - 1);
    } else {
      i := j - 1;
    }
  }

  /** First in, first out: a claim takes a row whose insertion is not later than that of any claimable row. */
  lemma ClaimsAreFifo(lease: Time, ss: seq<QueueState>, es: seq<QueueEvent>, j: nat, y: ItemId)
    returns (i: nat, k: nat)
    requires IsRun(lease, ss, es) && ss[0] == EMPTY && j < |es| && es[j].Claimed?
    requires y in ss[j].rows && Claimable(ss[j].rows[y], es[j].t)
    ensures Inserted(ss, es, es[j].x, i, j) && Inserted(ss, es, y, k, j) && es[i].t <= es[k].t
  {
    assert Enabled(ss[j], es[j]);
    i := PlaceIsInsertion(lease, ss, es, es[j].x, j);
    k := PlaceIsInsertion(lease, ss, es, y, j);
  }

  /** `done_at` is the time of the first finish by the row's owner since the row was inserted. */
  lemma {:induction false} DoneWhenFirstFinished(
      lease: Time, ss: seq<QueueState>, es: seq<QueueEvent>, x: ItemId, j: nat)
    returns (i: nat)
    requires IsRun(lease, ss, es) && ss[0] == EMPTY && j < |ss|
    requires x in ss[j].rows && ss[j].rows[x].doneAt.Some?
    ensures i < j && es[i].Finished? && es[i].w in ss[i].holds && ss[i].holds[es[i].w].item == x
    ensures OwnedBy(ss[i].rows, x, es[i].w) && ss[i].rows[x].doneAt.None? && ss[j].rows[x].doneAt == Some(es[i].t)
    ensures forall n | i < n < j :: es[n] != Deleted(x)
  {
    var s, e := ss[j - 1], es[j - 1];
    assert Enabled(s, e) && ss[j] == Apply(lease, s, e);
    if x in s.rows && s.rows[x].doneAt.Some? {
      i := DoneWhenFirstFinished(lease, ss, es, x, j - 1);
    } else {
      i := j - 1;
    }
  }

  predicate Rewrites(e: QueueEvent, x: ItemId) {
    (e.Enqueued? || e.Deleted?) && e.x == x
  }

  /** The row carries what was enqueued last, and that is what a claim hands to its worker. */
  lemma {:induction false} ClaimsGetTheLatest(lease: Time, ss: seq<QueueState>, es: seq<QueueEvent>, x: ItemId,
                                              i: nat, j: nat)
    requires IsRun(lease, ss, es) && i < j < |ss|
    requires es[i].Enqueued? && es[i].x == x && forall n | i < n < j :: !Rewrites(es[n], x)
    ensures x in ss[j].rows && ss[j].rows[x].payload == es[i].p
    ensures es[j - 1].Claimed? && es[j - 1].x == x ==> ss[j].holds[es[j - 1].w].payload == es[i].p
  {
    assert ss[j] == Apply(lease, ss[j - 1], es[j - 1]);
    if i + 1 < j {
      ClaimsGetTheLatest(lease, ss, es, x, i, j - 1);
      assert !Rewrites(es[j - 1], x);
    }
  }

  // ---------- Fencing ----------

  /** `x` left the table, came back or was handed to `w` at event `n`. */
  predicate Touches(e: QueueEvent, w: WorkerId, x: ItemId) {
    match e
    case Claimed(v, y, _) => v == w || y == x
    case Enqueued(y, _, _) => y == x
    case Deleted(y) => y == x
    case _ => false
  }

  ghost predicate Untouched(es: seq<QueueEvent>, k: nat, m: nat, w: WorkerId, x: ItemId)
    requires k <= m <= |es|
  {
    forall n | k < n < m :: !Touches(es[n], w, x)
  }

  /** Between `i` and `j` some worker claimed `x` and then finished that claim, nothing touching it between. */
  ghost predicate ClaimedAndFinished(es: seq<QueueEvent>, i: nat, j: nat, x: ItemId)
    requires j <= |es|
  {
    exists k, m | i < k < m < j ::
      && es[k].Claimed? && es[k].x == x
      && es[m].Finished? && es[m].w == es[k].w
      && Untouched(es, k, m, es[k].w, x)
  }

  /** A claim of `x` by `w` after event `i` is still the last thing that touched `x` or `w` at `j`. */
  ghost predicate ClaimStands(es: seq<QueueEvent>, i: nat, j: nat, w: WorkerId, x: ItemId)
    requires j <= |es|
  {
    exists k | i < k < j :: es[k].Claimed? && es[k].x == x && es[k].w == w && Untouched(es, k, j, w, x)
  }

  ghost predicate Explained(s: QueueState, es: seq<QueueEvent>, i: nat, j: nat, x: ItemId)
    requires j <= |es|
  {
    && (x in s.rows && s.rows[x].state.Done? ==> ClaimedAndFinished(es, i, j, x))
    && (forall w | w in s.holds && s.holds[w].item == x && OwnedBy(s.rows, x, w) :: ClaimStands(es, i, j, w, x))
  }

  lemma DoneIsExplained(lease: Time, s: QueueState, es: seq<QueueEvent>, i: nat, j: nat, x: ItemId)
    requires i < j < |es| && Enabled(s, es[j]) && Explained(s, es, i, j, x) && Inv(s)
    requires var s' := Apply(lease, s, es[j]); x in s'.rows && s'.rows[x].state.Done?
    ensures ClaimedAndFinished(es, i, j + 1, x)
  {
    var e := es[j];
    if x in s.rows && s.rows[x].state.Done? {
      var k, m :| i < k < m < j && es[k].Claimed? && es[k].x == x && es[m].Finished? && es[m].w == es[k].w
                  && Untouched(es, k, m, es[k].w, x);
    } else {
      assert e.Finished? && OwnedBy(s.rows, x, e.w);
      var k :| i < k < j && es[k].Claimed? && es[k].x == x && es[k].w == e.w && Untouched(es, k, j, e.w, x);
    }
  }

  lemma ClaimStillStands(lease: Time, s: QueueState, es: seq<QueueEvent>, i: nat, j: nat, w: WorkerId, x: ItemId)
    requires i < j < |es| && Enabled(s, es[j]) && Explained(s, es, i, j, x)
    requires var s' := Apply(lease, s, es[j]); w in s'.holds && s'.holds[w].item == x && OwnedBy(s'.rows, x, w)
    ensures ClaimStands(es, i, j + 1, w, x)
  {
    var e := es[j];
    if e.Claimed? && e.w == w && e.x == x {
      assert Untouched(es, j, j + 1, w, x);
    } else {
      assert w in s.holds && s.holds[w].item == x && OwnedBy(s.rows, x, w) && !Touches(e, w, x);
      var k :| i < k < j && es[k].Claimed? && es[k].x == x && es[k].w == w && Untouched(es, k, j, w, x);
      assert Untouched(es, k, j + 1, w, x);
    }
  }

  lemma ExplainedStep(lease: Time, s: QueueState, es: seq<QueueEvent>, i: nat, j: nat, x: ItemId)
    requires i < j < |es| && Enabled(s, es[j]) && Explained(s, es, i, j, x) && Inv(s)
    ensures Explained(Apply(lease, s, es[j]), es, i, j + 1, x)
  {
    var s' := Apply(lease, s, es[j]);
    if x in s'.rows && s'.rows[x].state.Done? {
      DoneIsExplained(lease, s, es, i, j, x);
    }
    forall w | w in s'.holds && s'.holds[w].item == x && OwnedBy(s'.rows, x, w)
      ensures ClaimStands(es, i, j + 1, w, x)
    {
      ClaimStillStands(lease, s, es, i, j, w, x);
    }
  }

  lemma {:induction false} ExplainedAlways(lease: Time, ss: seq<QueueState>, es: seq<QueueEvent>, i: nat, j: nat,
                                           x: ItemId)
    requires IsRun(lease, ss, es) && Inv(ss[0]) && i < j <= |es|
    requires es[i].Enqueued? && es[i].x == x
    ensures Explained(ss[j], es, i, j, x)
  {
    InvAlways(lease, ss, es, j - 1);
    if j == i + 1 {
      assert ss[j] == Apply(lease, ss[i], es[i]);
    } else {
      ExplainedAlways(lease, ss, es, i, j - 1, x);
      ExplainedStep(lease, ss[j - 1], es, i, j - 1, x);
    }
  }

  /**
   No enqueue is lost: whatever worker was mid-handling when `x` was enqueued, the row cannot be DONE later unless
   a claim made after the enqueue was finished by its own worker.
   */
  lemma NoLostEnqueue(lease: Time, ss: seq<QueueState>, es: seq<QueueEvent>, i: nat, j: nat, x: ItemId)
    returns (k: nat, m: nat)
    requires IsRun(lease, ss, es) && Inv(ss[0]) && i < j <= |es|
    requires es[i].Enqueued? && es[i].x == x
    requires x in ss[j].rows && ss[j].rows[x].state.Done?
    ensures i < k < m < j && es[k].Claimed? && es[k].x == x && es[m].Finished? && es[m].w == es[k].w
    ensures Untouched(es, k, m, es[k].w, x)
  {
    ExplainedAlways(lease, ss, es, i, j, x);
    k, m :| i < k < m < j && es[k].Claimed? && es[k].x == x && es[m].Finished? && es[m].w == es[k].w
            && Untouched(es, k, m, es[k].w, x);
  }

  /**
   A finish or release that changes the table was issued by the worker of the row's latest claim, on that claim's
   payload.
  */
  lemma OnlyTheLatestClaimWrites(lease: Time, s: QueueState, e: QueueEvent)
    requires Inv(s) && Enabled(s, e) && (e.Finished? || e.Released?)
    requires Apply(lease, s, e).rows != s.rows
    ensures OwnedBy(s.rows, s.holds[e.w].item, e.w)
    ensures s.rows[s.holds[e.w].item].state.Leased?
    ensures s.rows[s.holds[e.w].item].payload == s.holds[e.w].payload
    ensures s.rows[s.holds[e.w].item].deliveryCount == s.holds[e.w].attempt
  {
    assert Fenced(s, e.w);
    assert RowOk(s.rows[s.holds[e.w].item]);
  }

  // ---------- Lease exclusion ----------

  /** The event gives `x` back early: an effective release, an enqueue or a deletion. */
  predicate FreesEarly(s: QueueState, e: QueueEvent, x: ItemId) {
    match e
    case Released(w) => w in s.holds && s.holds[w].item == x && OwnedBy(s.rows, x, w)
    case Enqueued(y, _, _) => y == x
    case Deleted(y) => y == x
    case _ => false
  }

  lemma {:induction false} LeasedUntil(lease: Time, ss: seq<QueueState>, es: seq<QueueEvent>, x: ItemId, i: nat, n: nat)
    requires IsRun(lease, ss, es) && i < n <= |es|
    requires es[i].Claimed? && es[i].x == x
    requires forall k | i < k < n :: !FreesEarly(ss[k], es[k], x) && !(es[k].Claimed? && es[k].x == x)
    ensures x in ss[n].rows
    ensures ss[n].rows[x].state.Done? ||
            (ss[n].rows[x].state.Leased? && ss[n].rows[x].leaseUntil == Some(es[i].t + lease))
  {
    assert ss[n] == Apply(lease, ss[n - 1], es[n - 1]);
    if n > i + 1 {
      LeasedUntil(lease, ss, es, x, i, n - 1);
      assert !FreesEarly(ss[n - 1], es[n - 1], x);
    }
  }

  /**
   Two consecutive claims of a row are a whole lease apart, by the stamps they wrote, unless the row was released,
   enqueued again or deleted in between.
   */
  lemma LeaseExclusion(lease: Time, ss: seq<QueueState>, es: seq<QueueEvent>, x: ItemId, i: nat, j: nat)
    requires IsRun(lease, ss, es) && i < j < |es|
    requires es[i].Claimed? && es[i].x == x && es[j].Claimed? && es[j].x == x
    requires forall k | i < k < j :: !(es[k].Claimed? && es[k].x == x)
    ensures es[j].t >= es[i].t + lease || exists k | i < k < j :: FreesEarly(ss[k], es[k], x)
  {
    if forall k | i < k < j :: !FreesEarly(ss[k], es[k], x) {
      LeasedUntil(lease, ss, es, x, i, j);
      assert Enabled(ss[j], es[j]);
    }
  }

  /** Nobody has the item in hand. */
  predicate Unheld(s: QueueState, x: ItemId) {
    forall w | w in s.holds :: s.holds[w].item != x
  }

  /** At a claim every handling of the same item is within its lease; nobody enqueues or deletes an item in hand. */
  ghost predicate Timely(s: QueueState, e: QueueEvent) {
    match e
    case Claimed(_, x, t) => forall v | v in s.holds && s.holds[v].item == x :: t < s.holds[v].until
    case Enqueued(x, _, _) => Unheld(s, x)
    case Deleted(x) => Unheld(s, x)
    case _ => true
  }

  /** Whoever has an item in hand owns its row, so no item is in two hands. */
  ghost predicate Exclusive(s: QueueState) {
    && (forall w | w in s.holds :: OwnedBy(s.rows, s.holds[w].item, w))
    && (forall v, w | v in s.holds && w in s.holds && s.holds[v].item == s.holds[w].item :: v == w)
  }

  /** When handlings end before their leases and items in hand are left alone, handlings of one item never overlap. */
  lemma {:induction false} TimelyRunsAreExclusive(lease: Time, ss: seq<QueueState>, es: seq<QueueEvent>, i: nat)
    requires IsRun(lease, ss, es) && ss[0] == EMPTY && i < |ss|
    requires forall n | 0 <= n < |es| :: Timely(ss[n], es[n])
    ensures Inv(ss[i]) && Exclusive(ss[i])
    ensures forall n | 0 <= n < i :: es[n].Claimed? ==> Unheld(ss[n], es[n].x)
  {
    if i > 0 {
      TimelyRunsAreExclusive(lease, ss, es, i - 1);
      var s, e := ss[i - 1], es[i - 1];
      assert ss[i] == Apply(lease, s, e) && Timely(s, e);
      StepKeepsInv(lease, s, e);
      if e.Claimed? {
        forall v | v in s.holds ensures s.holds[v].item != e.x {
          assert Fenced(s, v) && OwnedBy(s.rows, s.holds[v].item, v) && RowOk(s.rows[s.holds[v].item]);
        }
      }
    }
  }

  /** No handling of the item is older than `bound` when another worker claims it; items in hand are left alone. */
  ghost predicate Prompt(lease: Time, bound: Time, s: QueueState, e: QueueEvent) {
    match e
    case Claimed(_, x, t) => forall v | v in s.holds && s.holds[v].item == x :: t <= s.holds[v].until - lease + bound
    case Enqueued(x, _, _) => Unheld(s, x)
    case Deleted(x) => Unheld(s, x)
    case _ => true
  }

  /** A lease longer than the longest handling keeps handlings of one item apart. */
  lemma LongLeasesExclude(lease: Time, bound: Time, ss: seq<QueueState>, es: seq<QueueEvent>, i: nat)
    requires IsRun(lease, ss, es) && ss[0] == EMPTY && i < |ss|
    requires bound < lease && forall n | 0 <= n < |es| :: Prompt(lease, bound, ss[n], es[n])
    ensures Exclusive(ss[i])
    ensures forall n | 0 <= n < i :: es[n].Claimed? ==> Unheld(ss[n], es[n].x)
  {
    forall n | 0 <= n < |es| ensures Timely(ss[n], es[n]) {
      assert Prompt(lease, bound, ss[n], es[n]);
    }
    TimelyRunsAreExclusive(lease, ss, es, i);
  }
}
