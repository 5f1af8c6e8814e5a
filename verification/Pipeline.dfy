/**
 The job pipeline: two lease queues and the item table in one database, driven by feed readers, analyzers,
 dispatchers and the web-admin.

 Each constructor of a step datatype is one SQL statement, or one visible outcome of the outside world (the language
 model answers, a message is delivered, a process dies). A process between two statements is described by its program
 counter, so every interleaving of statements is a run. An upsert into a queue and the bookkeeping update of the
 item row that follows it in the same function are taken as one step, for the reader and the web-admin;
 `Findings.SplitPublishStrands` shows what a worker can do in the gap.
 */
module Pipeline {
  import opened Options
  import opened LeaseQueue

  type ReaderId = nat
  type AdminId = nat

  datatype Status = New | Analyzed | Dispatched | Failed

  /** A row of `rss_items`: status, analyzed_payload_json, dispatched_at. */
  datatype Item = Item(status: Status, analyzed: Option<Payload>, dispatchedAt: Option<Time>)

  type Items = map<ItemId, Item>

  /** MaxDeliveryAttempts, RetryAttempts and the two LeaseDurations. */
  datatype Config = Config(maxDeliveries: nat, attempts: nat, analyzerLease: Time, dispatcherLease: Time)

  // ---------- Program counters ----------

  datatype AnalyzerPc =
    | Waiting                              // claimed, before the rate limiter and the decoding
    | Analyzing(attempt: nat)              // inside retry.Exponential
    | Deciding(nonRetryable: bool)         // before shouldQuarantineClaim
    | Poisoning                            // before marking the item FAILED for good
    | Failing                              // before failClaim
    | Marking(out: Payload)                // before marking the item ANALYZED
    | Forwarding(out: Payload)             // before enqueueDispatchJob
    | Completing                           // before completeClaim
    | Releasing                            // before releaseClaim

  datatype DispatcherPc =
    | Received                             // claimed, before the decoding and isAlreadyDispatched
    | Delivering(attempt: nat)             // inside retry.Exponential
    | Confirming                           // delivered, before marking the item DISPATCHED
    | Closing                              // before completeDispatchClaim
    | Returning                            // before releaseDispatchClaim

  datatype AnalyzerWork = AnalyzerWork(hold: Hold, pc: AnalyzerPc)
  datatype DispatcherWork = DispatcherWork(hold: Hold, pc: DispatcherPc)
  datatype ReaderWork = ReaderWork(item: ItemId, payload: Payload)
  datatype AdminWork = AdminWork(item: ItemId, stored: Option<Payload>)

  datatype World = World(
    aq: Table,
    dq: Table,
    items: Items,
    analyzers: map<WorkerId, AnalyzerWork>,
    dispatchers: map<WorkerId, DispatcherWork>,
    readers: map<ReaderId, ReaderWork>,
    admins: map<AdminId, AdminWork>
  )

  const START := World(map[], map[], map[], map[], map[], map[], map[])

  // ---------- Statements on rss_items ----------

  /** The analyzer's markItemStatus leaves DISPATCHED items alone. */
  function AnalyzerMark(items: Items, x: ItemId, status: Status, out: Option<Payload>): Items {
    if x in items && items[x].status != Dispatched then
      items[x := Item(status, if out.Some? then out else items[x].analyzed, items[x].dispatchedAt)]
    else items
  }

  /** The dispatcher's markItemStatus does not look at the old status. */
  function DispatcherMark(items: Items, x: ItemId, status: Status, at: Option<Time>): Items {
    if x in items then
      items[x := Item(status, items[x].analyzed, if at.Some? then at else items[x].dispatchedAt)]
    else items
  }

  /** The reader's markRawEnqueued and markItemStatus(FAILED). */
  function ReaderMark(items: Items, x: ItemId, status: Status): Items {
    if x in items then items[x := items[x].(status := status)] else items
  }

  /** The requeue's update: a new status and no dispatch date. */
  function Reopen(items: Items, x: ItemId, status: Status): Items {
    if x in items then items[x := items[x].(status := status, dispatchedAt := None)] else items
  }

  predicate AlreadyDispatched(items: Items, x: ItemId) {
    x in items && (items[x].status.Dispatched? || items[x].dispatchedAt.Some?)
  }

  // ---------- The analyzer ----------

  datatype AnalyzerStep =
    | Take(x: ItemId, t: Time)
    | GiveUp                                         // rate limiter or decoding failed
    | Load                                           // loadStoredAnalyzed
    | LoadFault                                      // its error is treated as "nothing stored"
    | Answer(x: ItemId, out: Payload)                // the analysis succeeds
    | Stumble(x: ItemId, cancelled: bool, nonRetryable: bool) // an attempt fails and marks the item FAILED
    | Decide(readFailed: bool)                       // shouldQuarantineClaim
    | Poison
    | Mark
    | Forward(t: Time)
    | ForwardFault
    | Return
    | Complete(t: Time)
    | Fail(t: Time)
    | Crash

  predicate AnalyzerEnabled(s: World, w: WorkerId, a: AnalyzerStep) {
    if a.Take? then w !in s.analyzers && Oldest(s.aq, a.x, a.t)
    else
      && w in s.analyzers
      && var h, pc := s.analyzers[w].hold, s.analyzers[w].pc;
         match a
         case GiveUp => pc.Waiting?
         case Load => pc.Waiting? && h.payload.decodable
         case LoadFault => pc.Waiting? && h.payload.decodable
         case Answer(x, _) => pc.Analyzing? && x == h.item
         case Stumble(x, _, _) => pc.Analyzing? && x == h.item
         case Decide(_) => pc.Deciding?
         case Poison => pc.Poisoning?
         case Mark => pc.Marking?
         case Forward(_) => pc.Forwarding?
         case ForwardFault => pc.Forwarding?
         case Return => pc.Releasing?
         case Complete(_) => pc.Completing?
         case Fail(_) => pc.Failing?
         case Crash => true
         case _ => false
  }

  /** Of the processes only analyzer `w` moved. */
  ghost predicate OnlyAnalyzer(s: World, s': World, w: WorkerId) {
    && s'.dispatchers == s.dispatchers && s'.readers == s.readers && s'.admins == s.admins
    && forall v | v != w ::
         (v in s.analyzers <==> v in s'.analyzers) && (v in s.analyzers ==> s'.analyzers[v] == s.analyzers[v])
  }

  /** shouldQuarantineClaim: the delivery count is read only through a row the worker still owns. */
  predicate Quarantines(c: Config, aq: Table, x: ItemId, w: WorkerId, nonRetryable: bool, readFailed: bool) {
    nonRetryable || (!readFailed && OwnedBy(aq, x, w) && aq[x].deliveryCount >= c.maxDeliveries)
  }

  /** What retry.Exponential does after a failed attempt. */
  function AfterStumble(c: Config, attempt: nat, cancelled: bool, nonRetryable: bool): AnalyzerPc {
    if attempt >= c.attempts then Deciding(nonRetryable)
    else if cancelled then Deciding(false)
    else Analyzing(attempt + 1)
  }

  function StoredAnalysis(items: Items, x: ItemId): Option<Payload> {
    if x in items then items[x].analyzed else None
  }

  /** The program counter after the step; none when the handling is over. */
  function AnalyzerGoes(c: Config, s: World, w: WorkerId, a: AnalyzerStep): Option<AnalyzerPc>
    requires AnalyzerEnabled(s, w, a) && !a.Take?
  {
    var x, pc := s.analyzers[w].hold.item, s.analyzers[w].pc;
    match a
    case GiveUp => Some(Releasing)
    case Load =>
      var stored := StoredAnalysis(s.items, x);
      Some(if stored.Some? then Forwarding(stored.value) else Analyzing(1))
    case LoadFault => Some(Analyzing(1))
    case Answer(_, out) => Some(Marking(out))
    case Stumble(_, cancelled, nonRetryable) => Some(AfterStumble(c, pc.attempt, cancelled, nonRetryable))
    case Decide(readFailed) =>
      Some(if Quarantines(c, s.aq, x, w, pc.nonRetryable, readFailed) then Poisoning else Releasing)
    case Poison => Some(Failing)
    case Mark => Some(Forwarding(pc.out))
    case Forward(_) => Some(Completing)
    case ForwardFault => Some(Releasing)
    case _ => None
  }

  function AnalyzerMoves(c: Config, s: World, w: WorkerId, a: AnalyzerStep): map<WorkerId, AnalyzerWork>
    requires AnalyzerEnabled(s, w, a)
  {
    if a.Take? then s.analyzers[w := AnalyzerWork(Taken(s.aq, a.x, a.t, c.analyzerLease), Waiting)]
    else
      var pc := AnalyzerGoes(c, s, w, a);
      if pc.Some? then s.analyzers[w := AnalyzerWork(s.analyzers[w].hold, pc.value)] else s.analyzers - {w}
  }

  function AnalyzerOnRaw(c: Config, s: World, w: WorkerId, a: AnalyzerStep): Table
    requires AnalyzerEnabled(s, w, a)
  {
    match a
    case Take(x, t) => Claim(s.aq, x, w, t, c.analyzerLease)
    case Return => Release(s.aq, s.analyzers[w].hold.item, w)
    case Complete(t) => Finish(s.aq, s.analyzers[w].hold.item, w, t)
    case Fail(t) => Finish(s.aq, s.analyzers[w].hold.item, w, t)
    case _ => s.aq
  }

  function AnalyzerOnDispatch(s: World, w: WorkerId, a: AnalyzerStep): Table
    requires AnalyzerEnabled(s, w, a)
  {
    if a.Forward? then Enqueue(s.dq, s.analyzers[w].hold.item, s.analyzers[w].pc.out, a.t) else s.dq
  }

  function AnalyzerOnItems(s: World, w: WorkerId, a: AnalyzerStep): Items
    requires AnalyzerEnabled(s, w, a)
  {
    match a
    case Stumble(x, _, _) => AnalyzerMark(s.items, x, Failed, None)
    case Poison => AnalyzerMark(s.items, s.analyzers[w].hold.item, Failed, None)
    case Mark => AnalyzerMark(s.items, s.analyzers[w].hold.item, Analyzed, Some(s.analyzers[w].pc.out))
    case _ => s.items
  }

  function AnalyzerApply(c: Config, s: World, w: WorkerId, a: AnalyzerStep): (s': World)
    requires AnalyzerEnabled(s, w, a)
    ensures OnlyAnalyzer(s, s', w)
  {
    s.(aq := AnalyzerOnRaw(c, s, w, a), dq := AnalyzerOnDispatch(s, w, a), items := AnalyzerOnItems(s, w, a),
       analyzers := AnalyzerMoves(c, s, w, a))
  }

  // ---------- The dispatcher ----------

  datatype DispatcherStep =
    | Accept(x: ItemId, t: Time)
    | Decline                                        // rate limiter, decoding or template failed
    | Check                                          // isAlreadyDispatched
    | CheckFault                                     // its error leaves the row leased
    | Deliver(x: ItemId)
    | Miss(x: ItemId, cancelled: bool)               // a delivery fails and marks the item FAILED
    | Confirm(t: Time)
    | Close(t: Time)
    | GiveBack
    | Die

  predicate DispatcherEnabled(s: World, d: WorkerId, a: DispatcherStep) {
    if a.Accept? then d !in s.dispatchers && Oldest(s.dq, a.x, a.t)
    else
      && d in s.dispatchers
      && var h, pc := s.dispatchers[d].hold, s.dispatchers[d].pc;
         match a
         case Decline => pc.Received? || pc == Delivering(1)
         case Check => pc.Received? && h.payload.decodable
         case CheckFault => pc.Received? && h.payload.decodable
         case Deliver(x) => pc.Delivering? && x == h.item
         case Miss(x, _) => pc.Delivering? && x == h.item
         case Confirm(_) => pc.Confirming?
         case Close(_) => pc.Closing?
         case GiveBack => pc.Returning?
         case Die => true
         case _ => false
  }

  /** Of the processes only dispatcher `d` moved. */
  ghost predicate OnlyDispatcher(s: World, s': World, d: WorkerId) {
    && s'.analyzers == s.analyzers && s'.readers == s.readers && s'.admins == s.admins
    && forall v | v != d ::
         (v in s.dispatchers <==> v in s'.dispatchers) && (v in s.dispatchers ==> s'.dispatchers[v] == s.dispatchers[v])
  }

  /** What retry.Exponential does after a failed delivery. */
  function AfterMiss(c: Config, attempt: nat, cancelled: bool): DispatcherPc {
    if attempt >= c.attempts || cancelled then Returning else Delivering(attempt + 1)
  }

  function DispatcherGoes(c: Config, s: World, d: WorkerId, a: DispatcherStep): Option<DispatcherPc>
    requires DispatcherEnabled(s, d, a) && !a.Accept?
  {
    var x, pc := s.dispatchers[d].hold.item, s.dispatchers[d].pc;
    match a
    case Decline => Some(Returning)
    case Check => Some(if AlreadyDispatched(s.items, x) then Closing else Delivering(1))
    case Deliver(_) => Some(Confirming)
    case Miss(_, cancelled) => Some(AfterMiss(c, pc.attempt, cancelled))
    case Confirm(_) => Some(Closing)
    case _ => None
  }

  function DispatcherMoves(c: Config, s: World, d: WorkerId, a: DispatcherStep): map<WorkerId, DispatcherWork>
    requires DispatcherEnabled(s, d, a)
  {
    if a.Accept? then s.dispatchers[d := DispatcherWork(Taken(s.dq, a.x, a.t, c.dispatcherLease), Received)]
    else
      var pc := DispatcherGoes(c, s, d, a);
      if pc.Some? then s.dispatchers[d := DispatcherWork(s.dispatchers[d].hold, pc.value)] else s.dispatchers - {d}
  }

  function DispatcherOnDispatch(c: Config, s: World, d: WorkerId, a: DispatcherStep): Table
    requires DispatcherEnabled(s, d, a)
  {
    match a
    case Accept(x, t) => Claim(s.dq, x, d, t, c.dispatcherLease)
    case Close(t) => Finish(s.dq, s.dispatchers[d].hold.item, d, t)
    case GiveBack => Release(s.dq, s.dispatchers[d].hold.item, d)
    case _ => s.dq
  }

  function DispatcherOnItems(s: World, d: WorkerId, a: DispatcherStep): Items
    requires DispatcherEnabled(s, d, a)
  {
    match a
    case Miss(x, _) => DispatcherMark(s.items, x, Failed, None)
    case Confirm(t) => DispatcherMark(s.items, s.dispatchers[d].hold.item, Dispatched, Some(t))
    case _ => s.items
  }

  function DispatcherApply(c: Config, s: World, d: WorkerId, a: DispatcherStep): (s': World)
    requires DispatcherEnabled(s, d, a)
    ensures OnlyDispatcher(s, s', d)
  {
    s.(dq := DispatcherOnDispatch(c, s, d, a), items := DispatcherOnItems(s, d, a),
       dispatchers := DispatcherMoves(c, s, d, a))
  }

  // ---------- The reader and the web-admin ----------

  datatype ReaderStep =
    | Insert(x: ItemId, p: Payload)                  // insertItemIfNew stored a new row
    | Publish(t: Time)                               // enqueueAnalyzerJob
    | PublishFault                                   // it failed: the item is marked FAILED
    | Vanish                                         // the process dies in between
    | Cleanup(xs: set<ItemId>)                       // old item rows go, their queue rows stay

  predicate ReaderEnabled(s: World, r: ReaderId, a: ReaderStep) {
    match a
    case Insert(x, _) => r !in s.readers && x !in s.items
    case Cleanup(_) => true
    case _ => r in s.readers
  }

  /** Of the processes only reader `r` moved. */
  ghost predicate OnlyReader(s: World, s': World, r: ReaderId) {
    && s'.analyzers == s.analyzers && s'.dispatchers == s.dispatchers && s'.admins == s.admins
    && forall v | v != r ::
         (v in s.readers <==> v in s'.readers) && (v in s.readers ==> s'.readers[v] == s.readers[v])
  }

  function ReaderMoves(s: World, r: ReaderId, a: ReaderStep): map<ReaderId, ReaderWork>
    requires ReaderEnabled(s, r, a)
  {
    match a
    case Insert(x, p) => s.readers[r := ReaderWork(x, p)]
    case Cleanup(_) => s.readers
    case _ => s.readers - {r}
  }

  function ReaderOnRaw(s: World, r: ReaderId, a: ReaderStep): Table
    requires ReaderEnabled(s, r, a)
  {
    if a.Publish? then Enqueue(s.aq, s.readers[r].item, s.readers[r].payload, a.t) else s.aq
  }

  function ReaderOnItems(s: World, r: ReaderId, a: ReaderStep): Items
    requires ReaderEnabled(s, r, a)
  {
    match a
    case Insert(x, _) => s.items[x := Item(New, None, None)]
    case Publish(_) => ReaderMark(s.items, s.readers[r].item, New)
    case PublishFault => ReaderMark(s.items, s.readers[r].item, Failed)
    case Vanish => s.items
    case Cleanup(xs) => s.items - xs
  }

  function ReaderApply(s: World, r: ReaderId, a: ReaderStep): (s': World)
    requires ReaderEnabled(s, r, a)
    ensures OnlyReader(s, s', r)
  {
    s.(aq := ReaderOnRaw(s, r, a), items := ReaderOnItems(s, r, a), readers := ReaderMoves(s, r, a))
  }

  datatype AdminStep =
    | Ask(x: ItemId)                                 // the requeue's SELECT
    | Requeue(x: ItemId, raw: Payload, t: Time)      // its upsert and update
    | Abandon
    | Delete(x: ItemId)

  predicate AdminEnabled(s: World, b: AdminId, a: AdminStep) {
    match a
    case Ask(x) => b !in s.admins && x in s.items
    case Requeue(x, _, _) => b in s.admins && x == s.admins[b].item
    case Abandon => b in s.admins
    case Delete(x) => x in s.items
  }

  /** Of the processes only the web-admin request `b` moved. */
  ghost predicate OnlyAdmin(s: World, s': World, b: AdminId) {
    && s'.analyzers == s.analyzers && s'.dispatchers == s.dispatchers && s'.readers == s.readers
    && forall v | v != b ::
         (v in s.admins <==> v in s'.admins) && (v in s.admins ==> s'.admins[v] == s.admins[v])
  }

  /** The requeue goes back to the analyzer when its SELECT found no stored analysis. */
  predicate RequeuesRaw(s: World, b: AdminId, a: AdminStep)
    requires AdminEnabled(s, b, a)
  {
    a.Requeue? && s.admins[b].stored.None?
  }

  function AdminMoves(s: World, b: AdminId, a: AdminStep): map<AdminId, AdminWork>
    requires AdminEnabled(s, b, a)
  {
    match a
    case Ask(x) => s.admins[b := AdminWork(x, s.items[x].analyzed)]
    case Delete(_) => s.admins
    case _ => s.admins - {b}
  }

  function AdminOnRaw(s: World, b: AdminId, a: AdminStep): Table
    requires AdminEnabled(s, b, a)
  {
    match a
    case Requeue(x, raw, t) => if RequeuesRaw(s, b, a) then Enqueue(s.aq, x, raw, t) else s.aq
    case Delete(x) => s.aq - {x}
    case _ => s.aq
  }

  function AdminOnDispatch(s: World, b: AdminId, a: AdminStep): Table
    requires AdminEnabled(s, b, a)
  {
    match a
    case Requeue(x, _, t) => if RequeuesRaw(s, b, a) then s.dq else Enqueue(s.dq, x, s.admins[b].stored.value, t)
    case Delete(x) => s.dq - {x}
    case _ => s.dq
  }

  function AdminOnItems(s: World, b: AdminId, a: AdminStep): Items
    requires AdminEnabled(s, b, a)
  {
    match a
    case Requeue(x, _, _) => Reopen(s.items, x, if RequeuesRaw(s, b, a) then New else Analyzed)
    case Delete(x) => s.items - {x}
    case _ => s.items
  }

  function AdminApply(s: World, b: AdminId, a: AdminStep): (s': World)
    requires AdminEnabled(s, b, a)
    ensures OnlyAdmin(s, s', b)
  {
    s.(aq := AdminOnRaw(s, b, a), dq := AdminOnDispatch(s, b, a), items := AdminOnItems(s, b, a),
       admins := AdminMoves(s, b, a))
  }

  // ---------- Runs ----------

  datatype Event =
    | A(w: WorkerId, a: AnalyzerStep)
    | D(d: WorkerId, b: DispatcherStep)
    | R(r: ReaderId, c: ReaderStep)
    | W(u: AdminId, e: AdminStep)

  /** An analyzer claims `x`. */
  predicate IsTake(e: Event, x: ItemId) { e.A? && e.a.Take? && e.a.x == x }

  /** A dispatcher claims `x`. */
  predicate IsAccept(e: Event, x: ItemId) { e.D? && e.b.Accept? && e.b.x == x }

  predicate CanStep(s: World, e: Event) {
    match e
    case A(w, a) => AnalyzerEnabled(s, w, a)
    case D(d, a) => DispatcherEnabled(s, d, a)
    case R(r, a) => ReaderEnabled(s, r, a)
    case W(b, a) => AdminEnabled(s, b, a)
  }

  function Next(c: Config, s: World, e: Event): World
    requires CanStep(s, e)
  {
    match e
    case A(w, a) => AnalyzerApply(c, s, w, a)
    case D(d, a) => DispatcherApply(c, s, d, a)
    case R(r, a) => ReaderApply(s, r, a)
    case W(b, a) => AdminApply(s, b, a)
  }

  /** `ss[i]` is the world before `es[i]`, and `ss[i + 1]` the world after it. */
  ghost predicate IsTrace(c: Config, ss: seq<World>, es: seq<Event>) {
    && |ss| == |es| + 1
    && forall i | 0 <= i < |es| :: CanStep(ss[i], es[i]) && ss[i + 1] == Next(c, ss[i], es[i])
  }

  /** A trace under construction. */
  datatype Log = Log(ss: seq<World>, es: seq<Event>)

  ghost predicate Good(c: Config, l: Log) {
    IsTrace(c, l.ss, l.es)
  }

  function Now(l: Log): World
    requires |l.ss| > 0
  {
    l.ss[|l.ss| - 1]
  }

  ghost function Then(c: Config, l: Log, e: Event): (l': Log)
    requires Good(c, l) && CanStep(Now(l), e)
    ensures Good(c, l') && Now(l') == Next(c, Now(l), e) && l'.ss[0] == l.ss[0]
    ensures l'.es == l.es + [e]
  {
    Log(l.ss + [Next(c, Now(l), e)], l.es + [e])
  }

  /** No process is between two statements. */
  predicate Quiescent(s: World) {
    s.analyzers == map[] && s.dispatchers == map[] && s.readers == map[] && s.admins == map[]
  }
}
