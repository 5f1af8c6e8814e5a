/**
 The quarantine bounds the work spent on one item, with any number of analyzers: every raw requeue buys one claim more
 than the MaxDeliveryAttempts of an item enqueued once, and a claim costs at most max(1, RetryAttempts) analyses.
 */
module Budget {
  import opened Int64
  import opened Options
  import opened LeaseQueue
  import opened Pipeline
  import opened Deliveries
  import opened StoredAnalysisAgrees
  import opened Views

  /** retry.Exponential makes one attempt even when configured for none. */
  function Tries(c: Config): nat {
    if c.attempts < 1 then 1 else c.attempts
  }

  predicate IsAnalysis(e: Event, x: ItemId) { e.A? && (e.a.Answer? || e.a.Stumble?) && e.a.x == x }

  function TakesOf(es: seq<Event>, x: ItemId, i: nat): nat
    requires i <= |es|
  {
    Count(es, (e: Event) => IsTake(e, x), i)
  }

  function AnalysesOf(es: seq<Event>, x: ItemId, i: nat): nat
    requires i <= |es|
  {
    Count(es, (e: Event) => IsAnalysis(e, x), i)
  }

  /** A raw enqueue of `x` that finds its row: a raw requeue, or a publication that comes after one. */
  predicate Reenqueues(s: World, e: Event, x: ItemId) {
    CanStep(s, e) && x in s.aq && OnRaw(s, e).Enqueued? && OnRaw(s, e).x == x
  }

  function ReenqueuesOf(ss: seq<World>, es: seq<Event>, x: ItemId, i: nat): nat
    requires i <= |es| <= |ss|
  {
    if i == 0 then 0
    else ReenqueuesOf(ss, es, x, i - 1) + if Reenqueues(ss[i - 1], es[i - 1], x) then 1 else 0
  }

  /** An admin request sends `x` back to the analyzers. */
  predicate IsRawRequeue(s: World, e: Event, x: ItemId) {
    CanStep(s, e) && IsRequeue(e, x) && RequeuesRaw(s, e.u, e.e)
  }

  function RawRequeuesOf(ss: seq<World>, es: seq<Event>, x: ItemId, i: nat): nat
    requires i <= |es| <= |ss|
  {
    if i == 0 then 0
    else RawRequeuesOf(ss, es, x, i - 1) + if IsRawRequeue(ss[i - 1], es[i - 1], x) then 1 else 0
  }

  /**
   Nothing but the analysis itself goes wrong with `x`: its handlings do not overlap, its payload decodes, no worker
   dies on it, its queue reads and dispatch enqueues succeed; and its item row stays. It may be requeued at any time.
   */
  ghost predicate Undisturbed(s: World, e: Event, x: ItemId) {
    && SoloTake(s, e)
    && !Forgets(e, x)
    && (e.A? && Handles(s, e.w, x) ==>
          !e.a.GiveUp? && !e.a.Crash? && !e.a.ForwardFault? && (e.a.Decide? ==> !e.a.readFailed))
  }

  /** What the worker on `x` has left to spend in this claim, its row being its own or requeued. */
  predicate WithinClaim(c: Config, r: Row, w: WorkerId, pc: AnalyzerPc, analyses: nat) {
    && r.deliveryCount >= 1
    && (r.leaseOwner.None? || r.leaseOwner == Some(w))
    && (pc.Waiting? ==> analyses <= (r.deliveryCount - 1) * Tries(c))
    && (pc.Analyzing? ==> 1 <= pc.attempt <= Tries(c) && analyses <= (r.deliveryCount - 1) * Tries(c) + pc.attempt - 1)
    && (pc.Releasing? && r.leaseOwner == Some(w) ==> r.deliveryCount < c.maxDeliveries)
  }

  /** After `again` enqueues that found the row, `takes` claims and `analyses` analyses. */
  ghost predicate WithinBudget(c: Config, s: World, x: ItemId, takes: nat, analyses: nat, again: nat) {
    && Known(s, x)
    && (forall v, w | Handles(s, v, x) && Handles(s, w, x) :: v == w)
    && (forall w | Handles(s, w, x) :: x in s.aq && WithinClaim(c, s.aq[x], w, s.analyzers[w].pc, analyses))
    && takes == (if x in s.aq then s.aq[x].deliveryCount else 0)
    && takes <= c.maxDeliveries + again
    && analyses <= takes * Tries(c)
    && (x in s.aq ==>
          && RowOk(s.aq[x])
          && (s.aq[x].state.Queued? ==> takes < c.maxDeliveries + again)
          && (s.aq[x].state.Leased? ==> Handles(s, s.aq[x].leaseOwner.value, x)))
  }

  lemma TakeWithin(c: Config, s: World, w: WorkerId, t: Time, x: ItemId, n: nat, k: nat, q: nat)
    requires AnalyzerEnabled(s, w, Take(x, t)) && Undisturbed(s, A(w, Take(x, t)), x) && WithinBudget(c, s, x, n, k, q)
    ensures WithinBudget(c, AnalyzerApply(c, s, w, Take(x, t)), x, n + 1, k, q)
  {
    var s' := AnalyzerApply(c, s, w, Take(x, t));
    KnownStep(c, s, A(w, Take(x, t)), x);
    assert s.aq[x].state.Queued?;
    assert forall v | v != w :: Handles(s', v, x) <==> Handles(s, v, x);
    assert s'.aq[x].deliveryCount == n + 1;
    OneMore(n, Tries(c));
  }

  lemma HandlerWithin(c: Config, s: World, w: WorkerId, a: AnalyzerStep, x: ItemId, n: nat, k: nat, q: nat)
    requires AnalyzerEnabled(s, w, a) && !a.Take? && Handles(s, w, x)
    requires Undisturbed(s, A(w, a), x) && WithinBudget(c, s, x, n, k, q)
    ensures WithinBudget(c, AnalyzerApply(c, s, w, a), x, n, if IsAnalysis(A(w, a), x) then k + 1 else k, q)
  {
    var s' := AnalyzerApply(c, s, w, a);
    KnownStep(c, s, A(w, a), x);
    assert x in s.aq && WithinClaim(c, s.aq[x], w, s.analyzers[w].pc, k);
    OneMore(n - 1, Tries(c));
    assert forall v | v != w :: Handles(s', v, x) <==> Handles(s, v, x);
  }

  lemma OtherAnalyzersWithin(c: Config, s: World, w: WorkerId, a: AnalyzerStep, x: ItemId, n: nat, k: nat, q: nat)
    requires AnalyzerEnabled(s, w, a) && !Handles(s, w, x) && WithinBudget(c, s, x, n, k, q)
    requires !(a.Take? && a.x == x)
    ensures WithinBudget(c, AnalyzerApply(c, s, w, a), x, n, k, q)
  {
    var s' := AnalyzerApply(c, s, w, a);
    KnownStep(c, s, A(w, a), x);
    assert forall v :: Handles(s', v, x) <==> Handles(s, v, x);
  }

  lemma DispatchersWithin(c: Config, s: World, e: Event, x: ItemId, n: nat, k: nat, q: nat)
    requires CanStep(s, e) && e.D? && WithinBudget(c, s, x, n, k, q)
    ensures WithinBudget(c, Next(c, s, e), x, n, k, q)
  {
    var s' := Next(c, s, e);
    KnownStep(c, s, e, x);
    assert s'.aq == s.aq;
    assert forall v :: Handles(s', v, x) <==> Handles(s, v, x);
  }

  lemma EnqueuersWithin(c: Config, s: World, e: Event, x: ItemId, n: nat, k: nat, q: nat)
    requires CanStep(s, e) && (e.R? || e.W?) && !Forgets(e, x) && WithinBudget(c, s, x, n, k, q) && c.maxDeliveries >= 1
    ensures WithinBudget(c, Next(c, s, e), x, n, k, if Reenqueues(s, e, x) then q + 1 else q)
  {
    var s' := Next(c, s, e);
    KnownStep(c, s, e, x);
    assert forall v :: Handles(s', v, x) <==> Handles(s, v, x);
    RawStep(c, s, e);
    assert RawView(s').rows == Apply(c.analyzerLease, RawView(s), OnRaw(s, e)).rows;
  }

  lemma StepWithin(c: Config, s: World, e: Event, x: ItemId, n: nat, k: nat, q: nat)
    requires CanStep(s, e) && Undisturbed(s, e, x) && WithinBudget(c, s, x, n, k, q) && c.maxDeliveries >= 1
    ensures WithinBudget(c, Next(c, s, e), x,
                         n + (if IsTake(e, x) then 1 else 0), k + (if IsAnalysis(e, x) then 1 else 0),
                         q + (if Reenqueues(s, e, x) then 1 else 0))
  {
    if e.R? || e.W? {
      EnqueuersWithin(c, s, e, x, n, k, q);
    } else if e.D? {
      DispatchersWithin(c, s, e, x, n, k, q);
    } else if IsTake(e, x) {
      TakeWithin(c, s, e.w, e.a.t, x, n, k, q);
    } else if Handles(s, e.w, x) && !e.a.Take? {
      HandlerWithin(c, s, e.w, e.a, x, n, k, q);
    } else {
      OtherAnalyzersWithin(c, s, e.w, e.a, x, n, k, q);
    }
  }

  lemma {:induction false} BudgetAlways(c: Config, ss: seq<World>, es: seq<Event>, x: ItemId, i: nat)
    requires IsTrace(c, ss, es) && ss[0] == START && i < |ss| && c.maxDeliveries >= 1
    requires forall n | 0 <= n < |es| :: Undisturbed(ss[n], es[n], x)
    ensures WithinBudget(c, ss[i], x, TakesOf(es, x, i), AnalysesOf(es, x, i), ReenqueuesOf(ss, es, x, i))
  {
    if i > 0 {
      BudgetAlways(c, ss, es, x, i - 1);
      assert CanStep(ss[i - 1], es[i - 1]) && ss[i] == Next(c, ss[i - 1], es[i - 1]);
      StepWithin(c, ss[i - 1], es[i - 1], x, TakesOf(es, x, i - 1), AnalysesOf(es, x, i - 1),
                 ReenqueuesOf(ss, es, x, i - 1));
    }
  }

  /** The row is there, and a reader is still going to publish the item. */
  ghost predicate PublishDue(s: World, x: ItemId) {
    x in s.aq && exists r :: Reads(s, r, x)
  }

  /** One reader at most, and every enqueue that found the row, or is going to, has a raw requeue of its own. */
  ghost predicate Charged(s: World, x: ItemId, again: nat, requeues: nat) {
    && Known(s, x)
    && (forall q, r | Reads(s, q, x) && Reads(s, r, x) :: q == r)
    && again + (if PublishDue(s, x) then 1 else 0) <= requeues
  }

  lemma WorkersAreFree(c: Config, s: World, e: Event, x: ItemId, n: nat, q: nat)
    requires CanStep(s, e) && (e.A? || e.D?) && Charged(s, x, n, q)
    ensures Charged(Next(c, s, e), x, n, q)
  {
    var s' := Next(c, s, e);
    KnownStep(c, s, e, x);
    assert forall r :: Reads(s', r, x) <==> Reads(s, r, x);
    assert x in s'.aq <==> x in s.aq;
  }

  lemma ReadersAreCharged(c: Config, s: World, r: ReaderId, a: ReaderStep, x: ItemId, n: nat, q: nat)
    requires ReaderEnabled(s, r, a) && !Forgets(R(r, a), x) && Charged(s, x, n, q)
    ensures Charged(ReaderApply(s, r, a), x, if Reenqueues(s, R(r, a), x) then n + 1 else n, q)
  {
    var s' := ReaderApply(s, r, a);
    KnownStep(c, s, R(r, a), x);
    assert forall p | p != r :: Reads(s', p, x) <==> Reads(s, p, x);
    if Reads(s, r, x) && !a.Cleanup? && !a.Insert? {
      assert forall p :: !Reads(s', p, x);
    } else if !(a.Insert? && a.x == x) {
      assert forall p :: Reads(s', p, x) <==> Reads(s, p, x);
    }
  }

  lemma AdminsAreCharged(c: Config, s: World, b: AdminId, a: AdminStep, x: ItemId, n: nat, q: nat)
    requires AdminEnabled(s, b, a) && !Forgets(W(b, a), x) && Charged(s, x, n, q)
    ensures Charged(AdminApply(s, b, a), x, if Reenqueues(s, W(b, a), x) then n + 1 else n,
                    if IsRawRequeue(s, W(b, a), x) then q + 1 else q)
  {
    var s' := AdminApply(s, b, a);
    KnownStep(c, s, W(b, a), x);
    assert forall p :: Reads(s', p, x) <==> Reads(s, p, x);
  }

  /** No more enqueues find the row than there are raw requeues. */
  lemma {:induction false} ReenqueuesAreRequeues(c: Config, ss: seq<World>, es: seq<Event>, x: ItemId, i: nat)
    requires IsTrace(c, ss, es) && ss[0] == START && i < |ss| && forall n | 0 <= n < |es| :: !Forgets(es[n], x)
    ensures Charged(ss[i], x, ReenqueuesOf(ss, es, x, i), RawRequeuesOf(ss, es, x, i))
    ensures ReenqueuesOf(ss, es, x, i) <= RawRequeuesOf(ss, es, x, i)
  {
    if i > 0 {
      ReenqueuesAreRequeues(c, ss, es, x, i - 1);
      var s, e, n, q := ss[i - 1], es[i - 1], ReenqueuesOf(ss, es, x, i - 1), RawRequeuesOf(ss, es, x, i - 1);
      assert CanStep(s, e) && ss[i] == Next(c, s, e);
      match e
      case R(r, a) => ReadersAreCharged(c, s, r, a, x, n, q);
      case W(b, a) => AdminsAreCharged(c, s, b, a, x, n, q);
      case A(_, _) => WorkersAreFree(c, s, e, x, n, q);
      case D(_, _) => WorkersAreFree(c, s, e, x, n, q);
    }
  }

  /**
   Poison is quarantined: however often the analysis fails, the item is claimed at most MaxDeliveryAttempts times plus
   once per raw requeue, and analysed at most max(1, RetryAttempts) times per claim.
   */
  lemma ClaimsAndAnalysesBounded(c: Config, ss: seq<World>, es: seq<Event>, x: ItemId, i: nat)
    requires IsTrace(c, ss, es) && ss[0] == START && i < |ss| && c.maxDeliveries >= 1
    requires forall n | 0 <= n < |es| :: Undisturbed(ss[n], es[n], x)
    ensures TakesOf(es, x, i) <= c.maxDeliveries + RawRequeuesOf(ss, es, x, i)
    ensures AnalysesOf(es, x, i) <= (c.maxDeliveries + RawRequeuesOf(ss, es, x, i)) * Tries(c)
  {
    var takes, most := TakesOf(es, x, i), c.maxDeliveries + RawRequeuesOf(ss, es, x, i);
    assert takes <= c.maxDeliveries + ReenqueuesOf(ss, es, x, i) && AnalysesOf(es, x, i) <= takes * Tries(c) by {
      BudgetAlways(c, ss, es, x, i);
    }
    assert ReenqueuesOf(ss, es, x, i) <= RawRequeuesOf(ss, es, x, i) by { ReenqueuesAreRequeues(c, ss, es, x, i); }
    MulGrows(takes, most, Tries(c));
  }

  // ---------- What is quarantined, and when ----------

  /** Closed rows decode, and whoever holds a payload that does not is about to start or to put it back. */
  ghost predicate ClosedDecode(s: World) {
    && Inv(RawView(s))
    && (forall x | x in s.aq && s.aq[x].state.Done? :: s.aq[x].payload.decodable)
    && (forall w | w in s.analyzers && !s.analyzers[w].hold.payload.decodable ::
          s.analyzers[w].pc.Waiting? || s.analyzers[w].pc.Releasing?)
  }

  lemma CloserDecodes(s: World, w: WorkerId)
    requires ClosedDecode(s) && w in s.analyzers && (s.analyzers[w].pc.Completing? || s.analyzers[w].pc.Failing?)
    requires OwnedBy(s.aq, s.analyzers[w].hold.item, w)
    ensures s.aq[s.analyzers[w].hold.item].payload.decodable
  {
    assert w in RawView(s).holds && Fenced(RawView(s), w);
  }

  lemma RowsStillDecode(c: Config, s: World, e: Event, x: ItemId)
    requires CanStep(s, e) && ClosedDecode(s)
    requires x in Next(c, s, e).aq && Next(c, s, e).aq[x].state.Done?
    ensures Next(c, s, e).aq[x].payload.decodable
  {
    if e.A? && (e.a.Complete? || e.a.Fail?) && OwnedBy(s.aq, s.analyzers[e.w].hold.item, e.w) {
      CloserDecodes(s, e.w);
    }
  }

  lemma HoldersStillWait(c: Config, s: World, e: Event, w: WorkerId)
    requires CanStep(s, e) && ClosedDecode(s)
    requires w in Next(c, s, e).analyzers && !Next(c, s, e).analyzers[w].hold.payload.decodable
    ensures Next(c, s, e).analyzers[w].pc.Waiting? || Next(c, s, e).analyzers[w].pc.Releasing?
  {
    if e.A? && e.w != w { assert OnlyAnalyzer(s, AnalyzerApply(c, s, e.w, e.a), e.w); }
  }

  /** A payload that does not decode is never closed, by completion or by quarantine, whoever handles it. */
  lemma {:induction false} OnlyDecodablesAreClosed(c: Config, ss: seq<World>, es: seq<Event>, i: nat)
    requires IsTrace(c, ss, es) && ss[0] == START && i < |ss|
    ensures ClosedDecode(ss[i])
    ensures forall x | x in ss[i].aq && ss[i].aq[x].state.Done? :: ss[i].aq[x].payload.decodable
  {
    RowsAreFenced(c, ss, es, i);
    if i > 0 {
      OnlyDecodablesAreClosed(c, ss, es, i - 1);
      var s, e := ss[i - 1], es[i - 1];
      assert CanStep(s, e) && ss[i] == Next(c, s, e);
      forall x | x in ss[i].aq && ss[i].aq[x].state.Done? ensures ss[i].aq[x].payload.decodable {
        RowsStillDecode(c, s, e, x);
      }
      forall w | w in ss[i].analyzers && !ss[i].analyzers[w].hold.payload.decodable
        ensures ss[i].analyzers[w].pc.Waiting? || ss[i].analyzers[w].pc.Releasing?
      {
        HoldersStillWait(c, s, e, w);
      }
    }
  }

  /** Worker `w` claims something else. */
  predicate TakesAgain(e: Event, w: WorkerId) { e.A? && e.w == w && e.a.Take? }

  lemma {:induction false} HoldIsTheClaim(c: Config, ss: seq<World>, es: seq<Event>, i: nat, j: nat, w: WorkerId)
    requires IsTrace(c, ss, es) && i < j < |ss| && TakesAgain(es[i], w)
    requires forall n | i < n < j :: !TakesAgain(es[n], w)
    requires w in ss[j].analyzers
    ensures CanStep(ss[i], es[i]) && ss[j].analyzers[w].hold == Taken(ss[i].aq, es[i].a.x, es[i].a.t, c.analyzerLease)
  {
    var s, e := ss[j - 1], es[j - 1];
    assert CanStep(s, e) && ss[j] == Next(c, s, e);
    if i + 1 < j {
      if e.A? { assert OnlyAnalyzer(s, AnalyzerApply(c, s, e.w, e.a), e.w); }
      assert w in s.analyzers && ss[j].analyzers[w].hold == s.analyzers[w].hold;
      HoldIsTheClaim(c, ss, es, i, j - 1, w);
    }
  }

  /**
   A claim whose analyses failed in a way that could be retried is quarantined exactly when the row is still the
   worker's and had at least MaxDeliveryAttempts - 1 claims behind it: requeued or not, one failure may be enough.
   */
  lemma RetryableFailureQuarantinesIff(c: Config, ss: seq<World>, es: seq<Event>, i: nat, j: nat, w: WorkerId)
    requires IsTrace(c, ss, es) && ss[0] == START && i < j < |es|
    requires TakesAgain(es[i], w) && forall n | i < n < j :: !TakesAgain(es[n], w)
    requires es[j] == A(w, Decide(false)) && ss[j].analyzers[w].pc == Deciding(false)
    ensures CanStep(ss[i], es[i])
    ensures ss[j + 1].analyzers[w].pc.Poisoning? <==>
              OwnedBy(ss[j].aq, es[i].a.x, w) && ss[i].aq[es[i].a.x].deliveryCount >= c.maxDeliveries - 1
  {
    HoldIsTheClaim(c, ss, es, i, j, w);
    RowsAreFenced(c, ss, es, j);
    assert w in RawView(ss[j]).holds && Fenced(RawView(ss[j]), w);
    assert CanStep(ss[j], es[j]) && ss[j + 1] == Next(c, ss[j], es[j]);
  }
}
