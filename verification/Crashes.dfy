/**
 Worker crashes at any point, with requeues, deletions and clean-ups at any time: nothing is stranded as long as
 analyses of one item do not overlap.
 */
module Crashes {
  import opened Options
  import opened LeaseQueue
  import opened Pipeline
  import opened Deliveries
  import opened Stranding
  import opened StoredAnalysisAgrees
  import opened Timing
  import opened Views

  /** Readers live to enqueue what they stored, and an enqueue of theirs fails only while no analyzer has the item. */
  ghost predicate ReadersDeliver(s: World, e: Event) {
    match e
    case R(_, Vanish) => false
    case R(r, PublishFault) => r in s.readers ==> forall w :: !Handles(s, w, s.readers[r].item)
    case _ => true
  }

  /** What rescues `x` should the analyzer that has it in hand die: a live row that is nobody else's, or a reader. */
  ghost predicate Backed(s: World, w: WorkerId, x: ItemId) {
    if x in s.aq then
      !s.aq[x].state.Done? && (s.aq[x].leaseOwner.None? || s.aq[x].leaseOwner == Some(w))
    else x in s.items ==> exists r :: Reads(s, r, x)
  }

  ghost predicate AllBacked(s: World, x: ItemId) {
    && (forall v, w | Handles(s, v, x) && Handles(s, w, x) :: v == w)
    && (forall w | Handles(s, w, x) :: Backed(s, w, x))
  }

  lemma BackedNeverStrikes(s: World, e: Event, x: ItemId)
    requires CanStep(s, e) && Kept(s, x) && AllBacked(s, x) && ReadersDeliver(s, e)
    ensures !Strikes(s, e, x)
  {
    if e.A? && RemovesCarrier(s, e, x) {
      assert Handles(s, e.w, x) && Backed(s, e.w, x);
      if x !in s.aq && x in s.items {
        var r :| Reads(s, r, x);
        assert r in s.readers && s.readers[r].item == x;
      }
    }
  }

  lemma AnalyzerStaysBacked(c: Config, s: World, w: WorkerId, a: AnalyzerStep, x: ItemId)
    requires AnalyzerEnabled(s, w, a) && SoloTake(s, A(w, a)) && Kept(s, x) && AllBacked(s, x)
    ensures AllBacked(AnalyzerApply(c, s, w, a), x)
  {
    var s' := AnalyzerApply(c, s, w, a);
    assert forall v | v != w :: Handles(s', v, x) <==> Handles(s, v, x);
    assert forall r :: Reads(s', r, x) <==> Reads(s, r, x);
    assert a.Take? || (Handles(s', w, x) ==> Handles(s, w, x));
  }

  lemma OthersStayBacked(c: Config, s: World, e: Event, x: ItemId)
    requires CanStep(s, e) && (e.D? || e.W?) && AllBacked(s, x)
    ensures AllBacked(Next(c, s, e), x)
  {
    var s' := Next(c, s, e);
    assert forall v :: Handles(s', v, x) <==> Handles(s, v, x);
    assert forall r :: Reads(s', r, x) <==> Reads(s, r, x);
  }

  lemma ReaderStaysBacked(s: World, r: ReaderId, a: ReaderStep, x: ItemId)
    requires ReaderEnabled(s, r, a) && ReadersDeliver(s, R(r, a)) && AllBacked(s, x)
    ensures AllBacked(ReaderApply(s, r, a), x)
  {
    var s' := ReaderApply(s, r, a);
    assert forall v :: Handles(s', v, x) <==> Handles(s, v, x);
    assert forall q | q != r :: Reads(s', q, x) <==> Reads(s, q, x);
    assert a.Insert? && a.x == x ==> Reads(s', r, x);
    assert a.Cleanup? ==> (Reads(s', r, x) <==> Reads(s, r, x));
  }

  lemma StepStaysBacked(c: Config, s: World, e: Event, x: ItemId)
    requires CanStep(s, e) && SoloTake(s, e) && ReadersDeliver(s, e) && Kept(s, x) && AllBacked(s, x)
    ensures AllBacked(Next(c, s, e), x)
  {
    match e
    case A(w, a) => AnalyzerStaysBacked(c, s, w, a, x);
    case R(r, a) => ReaderStaysBacked(s, r, a, x);
    case D(_, _) => OthersStayBacked(c, s, e, x);
    case W(_, _) => OthersStayBacked(c, s, e, x);
  }

  /** No stranded work under crashes: all it takes is that analyses of one item do not overlap. */
  lemma {:induction false} CrashesStrandNothing(c: Config, ss: seq<World>, es: seq<Event>, x: ItemId, i: nat)
    requires IsTrace(c, ss, es) && ss[0] == START && i < |ss|
    requires forall n | 0 <= n < i :: SoloTake(ss[n], es[n]) && ReadersDeliver(ss[n], es[n])
    ensures AllBacked(ss[i], x) && Kept(ss[i], x)
    ensures Pending(ss[i], x) ==> LiveRow(ss[i].aq, x) || LiveRow(ss[i].dq, x) || AboutToEnqueue(ss[i], x)
  {
    if i > 0 {
      CrashesStrandNothing(c, ss, es, x, i - 1);
      var s, e := ss[i - 1], es[i - 1];
      assert CanStep(s, e) && ss[i] == Next(c, s, e);
      BackedNeverStrikes(s, e, x);
      StepKeepsIff(c, s, e, x);
      StepStaysBacked(c, s, e, x);
    }
  }

  /** With leases longer than the longest handling nothing is stranded, whichever workers crash. */
  lemma LongLeasesStrandNothing(c: Config, ac: AnalyzerConfig, wait: nat, slack: nat, ss: seq<World>, es: seq<Event>,
                                x: ItemId, i: nat)
    requires IsTrace(c, ss, es) && ss[0] == START && i < |ss|
    requires Fits(ac.llm) && 0 <= ac.retryBaseDelay && HandlingBound(ac, wait, slack) < c.analyzerLease
    requires forall n | 0 <= n < |es| ::
               AnalyzersKeepTime(c, ac, wait, slack, ss[n], es[n]) && ReadersDeliver(ss[n], es[n])
    ensures Pending(ss[i], x) ==> LiveRow(ss[i].aq, x) || LiveRow(ss[i].dq, x) || AboutToEnqueue(ss[i], x)
  {
    forall n | 0 <= n < i ensures SoloTake(ss[n], es[n]) {
      LongLeasesPreventOverlap(c, ac, wait, slack, ss, es, n);
    }
    CrashesStrandNothing(c, ss, es, x, i);
  }

  /**
   An item in hand is claimed only by way of its lease running out, and then the handling has lasted no longer than a
   handling can. Requeues and deletions of it are free; whoever would claim what they put back waits.
   */
  ghost predicate ClaimsByExpiry(c: Config, ac: AnalyzerConfig, wait: nat, slack: nat, s: World, e: Event)
    requires Fits(ac.llm)
  {
    e.A? && e.a.Take? ==>
      forall v | Handles(s, v, e.a.x) ::
        OwnedBy(s.aq, e.a.x, v)
        && CanLast(ac, wait, slack, e.a.t - (s.analyzers[v].hold.until - c.analyzerLease))
  }

  lemma ExpiryNeverOverlaps(c: Config, ac: AnalyzerConfig, wait: nat, slack: nat, ss: seq<World>, es: seq<Event>,
                            n: nat)
    requires IsTrace(c, ss, es) && ss[0] == START && n < |es|
    requires Fits(ac.llm) && 0 <= ac.retryBaseDelay && HandlingBound(ac, wait, slack) < c.analyzerLease
    requires ClaimsByExpiry(c, ac, wait, slack, ss[n], es[n])
    ensures SoloTake(ss[n], es[n])
  {
    var s, e := ss[n], es[n];
    assert CanStep(s, e);
    RowsAreFenced(c, ss, es, n);
    if e.A? && e.a.Take? {
      forall v ensures !Handles(s, v, e.a.x) {
        if Handles(s, v, e.a.x) {
          var h := s.analyzers[v].hold;
          assert v in RawView(s).holds && Fenced(RawView(s), v) && RowOk(s.aq[e.a.x]);
          var o: Outcome :| Within(o, wait, slack) && SwiftStatements(o, slack)
                            && e.a.t - (h.until - c.analyzerLease) <= HandlingTime(ac, o);
          HandlingTimeBounded(ac, o, wait, slack);
          assert false;
        }
      }
    }
  }

  /** The same with requeues and deletions of items in hand allowed. */
  lemma WaitingClaimsStrandNothing(c: Config, ac: AnalyzerConfig, wait: nat, slack: nat, ss: seq<World>, es: seq<Event>,
                                   x: ItemId, i: nat)
    requires IsTrace(c, ss, es) && ss[0] == START && i < |ss|
    requires Fits(ac.llm) && 0 <= ac.retryBaseDelay && HandlingBound(ac, wait, slack) < c.analyzerLease
    requires forall n | 0 <= n < i ::
               ClaimsByExpiry(c, ac, wait, slack, ss[n], es[n]) && ReadersDeliver(ss[n], es[n])
    ensures Pending(ss[i], x) ==> LiveRow(ss[i].aq, x) || LiveRow(ss[i].dq, x) || AboutToEnqueue(ss[i], x)
  {
    forall n | 0 <= n < i ensures SoloTake(ss[n], es[n]) {
      ExpiryNeverOverlaps(c, ac, wait, slack, ss, es, n);
    }
    CrashesStrandNothing(c, ss, es, x, i);
  }
}
