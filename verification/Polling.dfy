/**
 The feed reader: which items a poll stores and enqueues under its cap, and how a failing feed is left alone.
 */
module Polling {
  import opened Int64
  import opened Options
  import opened Retry

  /** The item hash of guid, URL and normalised title, taken as the item itself. */
  type Key = nat

  /** What the reader's two statements report for one feed item. */
  datatype Fault = NoFault | InsertFails | EnqueueFails

  /** rss_items and the order of enqueues; items whose enqueue failed are stored as FAILED. */
  datatype Shelf = Shelf(stored: set<Key>, enqueued: seq<Key>, failed: set<Key>)

  /** One feed item: insertItemIfNew, then enqueueAnalyzerJob. Only an enqueued item counts toward the cap. */
  function StoreOne(s: Shelf, k: Key, f: Fault): Shelf {
    if f.InsertFails? || k in s.stored then s
    else if f.EnqueueFails? then s.(stored := s.stored + {k}, failed := s.failed + {k})
    else s.(stored := s.stored + {k}, enqueued := s.enqueued + [k])
  }

  predicate Full(cap: int, count: nat) {
    cap > 0 && count >= cap
  }

  /** The item loop of one poll, from feed position `i` on, `count` items having been enqueued already. */
  function PollFrom(s: Shelf, feed: seq<Key>, cap: int, fault: nat -> Fault, i: nat, count: nat): Shelf
    requires i <= |feed|
    decreases |feed| - i
  {
    if i == |feed| || Full(cap, count) then s
    else
      var s1 := StoreOne(s, feed[i], fault(i));
      PollFrom(s1, feed, cap, fault, i + 1, count + |s1.enqueued| - |s.enqueued|)
  }

  class Reader {
    var shelf: Shelf

    constructor ()
      ensures shelf == Shelf({}, [], {})
    {
      shelf := Shelf({}, [], {});
    }

    /** insertItemIfNew: the unique index on the hash decides. */
    method InsertItemIfNew(k: Key) returns (inserted: bool)
      modifies this
      ensures inserted == (k !in old(shelf).stored)
      ensures shelf == if inserted then old(shelf).(stored := old(shelf).stored + {k}) else old(shelf)
    {
      inserted := k !in shelf.stored;
      if inserted { shelf := shelf.(stored := shelf.stored + {k}); }
    }

    /** The body of pollOneWithMode once the feed is parsed. */
    method StoreFeed(feed: seq<Key>, cap: int, fault: nat -> Fault)
      modifies this
      ensures shelf == PollFrom(old(shelf), feed, cap, fault, 0, 0)
    {
      var count := 0;
      for i := 0 to |feed|
        invariant PollFrom(shelf, feed, cap, fault, i, count) == PollFrom(old(shelf), feed, cap, fault, 0, 0)
      {
        if cap > 0 && count >= cap {
          return;
        }
        if fault(i).InsertFails? {
          continue;
        }
        var inserted := InsertItemIfNew(feed[i]);
        if !inserted {
          continue;
        }
        if fault(i).EnqueueFails? {
          shelf := shelf.(failed := shelf.failed + {feed[i]});
          continue;
        }
        shelf := shelf.(enqueued := shelf.enqueued + [feed[i]]);
        count := count + 1;
      }
    }
  }

  // ---------- Error-free polls ----------

  /** The distinct items of the feed from position `i` on that are not stored, in feed order. */
  function Unseen(stored: set<Key>, feed: seq<Key>, i: nat): seq<Key>
    requires i <= |feed|
    decreases |feed| - i
  {
    if i == |feed| then []
    else if feed[i] in stored then Unseen(stored, feed, i + 1)
    else [feed[i]] + Unseen(stored + {feed[i]}, feed, i + 1)
  }

  function Elements(s: seq<Key>): set<Key> {
    set k | k in s
  }

  function Taken(s: seq<Key>, cap: int, count: nat): seq<Key> {
    if cap > 0 then s[..if cap - count < 0 then 0 else if cap - count < |s| then cap - count else |s|] else s
  }

  const FAULT_FREE := (i: nat) => NoFault

  function Receive(s: Shelf, keys: seq<Key>): Shelf {
    s.(stored := s.stored + Elements(keys), enqueued := s.enqueued + keys)
  }

  lemma ReceiveMore(s: Shelf, a: seq<Key>, b: seq<Key>)
    ensures Receive(Receive(s, a), b) == Receive(s, a + b)
  {
    assert Elements(a + b) == Elements(a) + Elements(b);
    assert s.stored + Elements(a) + Elements(b) == s.stored + Elements(a + b);
    assert s.enqueued + a + b == s.enqueued + (a + b);
  }

  /** One error-free poll receives the first unseen items, up to the cap. */
  lemma {:induction false} PollReceives(s: Shelf, feed: seq<Key>, cap: int, i: nat, count: nat)
    requires i <= |feed|
    ensures PollFrom(s, feed, cap, FAULT_FREE, i, count) == Receive(s, Taken(Unseen(s.stored, feed, i), cap, count))
    decreases |feed| - i
  {
    if i == |feed| || Full(cap, count) {
      assert Taken(Unseen(s.stored, feed, i), cap, count) == [];
    } else if feed[i] in s.stored {
      PollReceives(s, feed, cap, i + 1, count);
    } else {
      var k, s1 := feed[i], StoreOne(s, feed[i], NoFault);
      assert s1 == Receive(s, [k]);
      PollReceives(s1, feed, cap, i + 1, count + 1);
      var rest := Unseen(s1.stored, feed, i + 1);
      assert Taken([k] + rest, cap, count) == [k] + Taken(rest, cap, count + 1);
      ReceiveMore(s, [k], Taken(rest, cap, count + 1));
    }
  }

  /** After the first `n` unseen items are stored, the others are what is left to see. */
  lemma {:induction false} UnseenShrinks(stored: set<Key>, feed: seq<Key>, i: nat, n: nat)
    requires i <= |feed| && n <= |Unseen(stored, feed, i)|
    ensures Unseen(stored + Elements(Unseen(stored, feed, i)[..n]), feed, i) == Unseen(stored, feed, i)[n..]
    decreases |feed| - i
  {
    var u := Unseen(stored, feed, i);
    if n == 0 {
      assert stored + Elements(u[..0]) == stored;
    } else if i < |feed| && feed[i] in stored {
      UnseenShrinks(stored, feed, i + 1, n);
    } else if i < |feed| {
      var stored1 := stored + {feed[i]};
      var u1 := Unseen(stored1, feed, i + 1);
      UnseenShrinks(stored1, feed, i + 1, n - 1);
      assert u[..n] == [feed[i]] + u1[..n - 1];
      assert stored + Elements(u[..n]) == stored1 + Elements(u1[..n - 1]);
    }
  }

  lemma {:induction false} UnseenIsNew(stored: set<Key>, feed: seq<Key>, i: nat)
    requires i <= |feed|
    ensures forall j | 0 <= j < |Unseen(stored, feed, i)| :: Unseen(stored, feed, i)[j] !in stored
    ensures forall j, k | 0 <= j < k < |Unseen(stored, feed, i)| ::
              Unseen(stored, feed, i)[j] != Unseen(stored, feed, i)[k]
    ensures forall j | i <= j < |feed| :: feed[j] in stored || feed[j] in Unseen(stored, feed, i)
    decreases |feed| - i
  {
    if i < |feed| {
      UnseenIsNew(if feed[i] in stored then stored else stored + {feed[i]}, feed, i + 1);
    }
  }

  function Polls(s: Shelf, feed: seq<Key>, cap: int, k: nat): Shelf {
    if k == 0 then s else PollFrom(Polls(s, feed, cap, k - 1), feed, cap, FAULT_FREE, 0, 0)
  }

  function AtMost(a: nat, b: nat): nat { if a <= b then a else b }

  /**
   `k` error-free polls of an unchanged feed store and enqueue, each once and in feed order, exactly the first
   min(k * cap, remaining) distinct unseen items: duplicates never use up the cap.
   */
  lemma {:induction false} CappedPollingIsComplete(s: Shelf, feed: seq<Key>, cap: nat, k: nat)
    requires cap > 0
    ensures Polls(s, feed, cap, k)
            == Receive(s, Unseen(s.stored, feed, 0)[..AtMost(k * cap, |Unseen(s.stored, feed, 0)|)])
  {
    var u := Unseen(s.stored, feed, 0);
    if k == 0 {
      assert Receive(s, u[..0]) == s by { assert s.stored + Elements([]) == s.stored; }
    } else {
      CappedPollingIsComplete(s, feed, cap, k - 1);
      var m := AtMost((k - 1) * cap, |u|);
      assert k * cap == (k - 1) * cap + cap;
      var s1 := Polls(s, feed, cap, k - 1);
      PollReceives(s1, feed, cap, 0, 0);
      UnseenShrinks(s.stored, feed, 0, m);
      var n := AtMost(k * cap, |u|);
      assert Taken(u[m..], cap, 0) == u[m..][..n - m];
      assert u[..n] == u[..m] + u[m..][..n - m];
      ReceiveMore(s, u[..m], u[m..][..n - m]);
    }
  }

  /** Without a cap one poll takes everything that is new. */
  lemma UncappedPollTakesAll(s: Shelf, feed: seq<Key>, cap: int)
    requires cap <= 0
    ensures Polls(s, feed, cap, 1) == Receive(s, Unseen(s.stored, feed, 0))
  {
    PollReceives(s, feed, cap, 0, 0);
    assert Polls(s, feed, cap, 0) == s;
  }

  /** Whatever fails, no item is ever enqueued that was stored before, and none twice. */
  ghost predicate EnqueuedOnce(s: Shelf) {
    && (forall j | 0 <= j < |s.enqueued| :: s.enqueued[j] in s.stored && s.enqueued[j] !in s.failed)
    && (forall j, k | 0 <= j < k < |s.enqueued| :: s.enqueued[j] != s.enqueued[k])
    && s.failed <= s.stored
  }

  lemma {:induction false} FaultyPollsEnqueueOnce(s: Shelf, feed: seq<Key>, cap: int, fault: nat -> Fault, i: nat,
                                                  count: nat)
    requires i <= |feed| && EnqueuedOnce(s)
    ensures var s' := PollFrom(s, feed, cap, fault, i, count);
            && EnqueuedOnce(s') && s.stored <= s'.stored && s.enqueued <= s'.enqueued
            && (Full(cap, 1) && count <= cap ==> |s'.enqueued| - |s.enqueued| <= cap - count)
    decreases |feed| - i
  {
    if i < |feed| && !Full(cap, count) {
      var s1 := StoreOne(s, feed[i], fault(i));
      FaultyPollsEnqueueOnce(s1, feed, cap, fault, i + 1, count + |s1.enqueued| - |s.enqueued|);
    }
  }

  /** The poll ended because the cap was reached. */
  predicate CapReached(s: Shelf, s': Shelf, cap: int, count: nat) {
    cap > 0 && count + |s'.enqueued| - |s.enqueued| >= cap
  }

  /**
   Faults and all: an item new to the shelf is decided by the first of its occurrences whose insert succeeds. It is
   stored then, and enqueued, or stored as FAILED when its enqueue fails; unless the cap was reached before.
   */
  lemma {:induction false} FirstInsertDecides(
      s: Shelf, feed: seq<Key>, cap: int, fault: nat -> Fault, i: nat, count: nat, j: nat)
    requires i <= j < |feed| && feed[j] !in s.stored && !fault(j).InsertFails?
    requires feed[j] !in s.failed && feed[j] !in s.enqueued && s.failed <= s.stored
    requires forall m | i <= m < j :: feed[m] == feed[j] ==> fault(m).InsertFails?
    ensures var s' := PollFrom(s, feed, cap, fault, i, count);
            || CapReached(s, s', cap, count)
            || (&& feed[j] in s'.stored
                && (feed[j] in s'.enqueued <==> fault(j).NoFault?)
                && (feed[j] in s'.failed <==> fault(j).EnqueueFails?))
    decreases |feed| - i
  {
    if !Full(cap, count) {
      var s1 := StoreOne(s, feed[i], fault(i));
      var count1 := count + |s1.enqueued| - |s.enqueued|;
      if i < j {
        FirstInsertDecides(s1, feed, cap, fault, i + 1, count1, j);
      } else {
        StoredStays(s1, feed, cap, fault, i + 1, count1, feed[j]);
      }
    }
  }

  /** What is stored stays as it is. */
  lemma {:induction false} StoredStays(
      s: Shelf, feed: seq<Key>, cap: int, fault: nat -> Fault, i: nat, count: nat, k: Key)
    requires i <= |feed| && k in s.stored
    ensures var s' := PollFrom(s, feed, cap, fault, i, count);
            k in s'.stored && (k in s'.enqueued <==> k in s.enqueued) && (k in s'.failed <==> k in s.failed)
    decreases |feed| - i
  {
    if i < |feed| && !Full(cap, count) {
      var s1 := StoreOne(s, feed[i], fault(i));
      StoredStays(s1, feed, cap, fault, i + 1, count + |s1.enqueued| - |s.enqueued|, k);
    }
  }

  // ---------- Cooldown ----------

  type Time = int

  /** How the reader retries a fetch, and how long it leaves a failing feed alone. */
  datatype FeedConfig = FeedConfig(attempts: int, baseDelay: int, cooldown: Time)

  /**
   One turn for the feed: when it comes, whether an operator forced it, what each fetch would bring, when the round
   would end, and whether the statements on feed_state fail.
   */
  datatype Visit = Visit(start: Time, forced: bool, fetch: nat -> Attempt, end: Time, readFails: bool, markFails: bool)

  /** feed_state.down_until of one feed. */
  class FeedState {
    var downUntil: Option<Time>

    constructor ()
      ensures downUntil == None
    {
      downUntil := None;
    }

    method CanPoll(now: Time) returns (ready: bool)
      ensures ready == Ready(downUntil, now)
    {
      if downUntil.Some? && now < downUntil.value { return false; }
      return true;
    }

    method MarkDown(now: Time, cooldown: Time, fails: bool)
      modifies this
      ensures downUntil == if fails then old(downUntil) else Some(now + cooldown)
    {
      if !fails { downUntil := Some(now + cooldown); }
    }

    method MarkUp(fails: bool)
      modifies this
      ensures downUntil == if fails then old(downUntil) else None
    {
      if !fails { downUntil := None; }
    }

    /**
     pollOneWithMode: skip a feed that is cooling down unless forced, or when its state cannot be read; otherwise
     fetch it with retries and mark it. The number of fetches is what the retry loop makes of them.
     */
    method Poll(v: Visit, c: FeedConfig) returns (polled: bool, fetches: nat)
      modifies this
      ensures polled == Goes(old(downUntil), v)
      ensures downUntil == After(old(downUntil), v, c)
      ensures fetches == if polled then RetryCalls(c.attempts, v.fetch) else 0
      ensures polled <==> !v.readFails && (v.forced || old(downUntil).None? || old(downUntil).value <= v.start)
      ensures polled && !v.markFails && v.fetch(fetches).ok ==> downUntil == None
      ensures polled && !v.markFails && !v.fetch(fetches).ok ==> downUntil == Some(v.end + c.cooldown)
      ensures !polled || v.markFails ==> downUntil == old(downUntil)
    {
      if v.readFails { return false, 0; }
      var ready := CanPoll(v.start);
      if !ready && !v.forced { return false, 0; }
      var ok, cancelled, calls, elapsed := Exponential(c.attempts, c.baseDelay, v.fetch);
      if ok { MarkUp(v.markFails); } else { MarkDown(v.end, c.cooldown, v.markFails); }
      return true, calls;
    }
  }

  predicate Ready(downUntil: Option<Time>, now: Time) {
    downUntil.None? || downUntil.value <= now
  }

  predicate Goes(downUntil: Option<Time>, v: Visit) {
    !v.readFails && (Ready(downUntil, v.start) || v.forced)
  }

  predicate Gets(v: Visit, c: FeedConfig) { Succeeds(c.attempts, v.fetch) }

  function After(downUntil: Option<Time>, v: Visit, c: FeedConfig): Option<Time> {
    if !Goes(downUntil, v) || v.markFails then downUntil
    else if Gets(v, c) then None
    else Some(v.end + c.cooldown)
  }

  /** A failed round starts a cooldown, and it ends: the feed is ready again exactly when the cooldown is over. */
  lemma CooldownEnds(downUntil: Option<Time>, v: Visit, c: FeedConfig, now: Time)
    requires Goes(downUntil, v) && !Gets(v, c) && !v.markFails
    ensures Ready(After(downUntil, v, c), now) <==> v.end + c.cooldown <= now
  {
  }

  /** A successful round clears it. */
  lemma SuccessClears(downUntil: Option<Time>, v: Visit, c: FeedConfig, now: Time)
    requires Goes(downUntil, v) && Gets(v, c) && !v.markFails
    ensures Ready(After(downUntil, v, c), now)
  {
  }

  /** The rounds that really fetched, out of the turns `vs`. */
  function Rounds(downUntil: Option<Time>, vs: seq<Visit>, c: FeedConfig): seq<Visit>
    decreases |vs|
  {
    if vs == [] then []
    else
      (if Goes(downUntil, vs[0]) then [vs[0]] else [])
      + Rounds(After(downUntil, vs[0], c), vs[1..], c)
  }

  /** The reader visits a feed one turn at a time, and time does not run backwards. */
  ghost predicate Sequential(vs: seq<Visit>) {
    && (forall i | 0 <= i < |vs| :: vs[i].start <= vs[i].end)
    && (forall i, j | 0 <= i < j < |vs| :: vs[i].end <= vs[j].start)
  }

  predicate Unforced(vs: seq<Visit>) {
    forall i | 0 <= i < |vs| :: !vs[i].forced
  }

  /** The start of a cooldown is always recorded. */
  predicate CooldownsRecorded(vs: seq<Visit>, c: FeedConfig) {
    forall i | 0 <= i < |vs| :: !Gets(vs[i], c) ==> !vs[i].markFails
  }

  lemma {:induction false} RoundsComeLater(downUntil: Option<Time>, vs: seq<Visit>, c: FeedConfig, t: Time)
    requires Sequential(vs) && (forall i | 0 <= i < |vs| :: t <= vs[i].start)
    requires downUntil.Some? && 0 <= c.cooldown && Unforced(vs)
    ensures forall j | 0 <= j < |Rounds(downUntil, vs, c)| :: Rounds(downUntil, vs, c)[j].start >= downUntil.value
    decreases |vs|
  {
    if vs != [] {
      var rest := vs[1..];
      if Goes(downUntil, vs[0]) {
        RoundsAreVisits(After(downUntil, vs[0], c), rest, c);
        assert forall i | 0 <= i < |rest| :: rest[i] == vs[i + 1];
      } else {
        RoundsComeLater(downUntil, rest, c, t);
      }
    }
  }

  lemma {:induction false} RoundsAreVisits(downUntil: Option<Time>, vs: seq<Visit>, c: FeedConfig)
    ensures forall j | 0 <= j < |Rounds(downUntil, vs, c)| :: Rounds(downUntil, vs, c)[j] in vs
    decreases |vs|
  {
    if vs != [] {
      RoundsAreVisits(After(downUntil, vs[0], c), vs[1..], c);
    }
  }

  /** No fetch starts within the cooldown of a failed round. */
  ghost predicate Spaced(rs: seq<Visit>, c: FeedConfig) {
    && (forall i | 0 <= i < |rs| :: rs[i].start <= rs[i].end)
    && forall i, j | 0 <= i < j < |rs| ::
         rs[i].end <= rs[j].start && (!Gets(rs[i], c) ==> rs[i].end + c.cooldown <= rs[j].start)
  }

  lemma SpacedCons(v: Visit, rest: seq<Visit>, c: FeedConfig)
    requires Spaced(rest, c) && v.start <= v.end
    requires forall j | 0 <= j < |rest| ::
               v.end <= rest[j].start && (!Gets(v, c) ==> v.end + c.cooldown <= rest[j].start)
    ensures Spaced([v] + rest, c)
  {
    var rs := [v] + rest;
    forall i, j | 0 <= i < j < |rs|
      ensures rs[i].end <= rs[j].start && (!Gets(rs[i], c) ==> rs[i].end + c.cooldown <= rs[j].start)
    {
      assert rs[j] == rest[j - 1];
      if i > 0 { assert rs[i] == rest[i - 1]; }
    }
  }

  lemma {:induction false} CooldownSpacesRounds(downUntil: Option<Time>, vs: seq<Visit>, c: FeedConfig)
    requires Sequential(vs) && 0 <= c.cooldown && Unforced(vs) && CooldownsRecorded(vs, c)
    ensures Spaced(Rounds(downUntil, vs, c), c)
    decreases |vs|
  {
    if vs != [] {
      var v, rest := vs[0], vs[1..];
      var after := After(downUntil, v, c);
      assert forall i | 0 <= i < |rest| :: rest[i] == vs[i + 1];
      CooldownSpacesRounds(after, rest, c);
      if Goes(downUntil, v) {
        var rounds := Rounds(after, rest, c);
        RoundsAreVisits(after, rest, c);
        forall j | 0 <= j < |rounds| ensures v.end <= rounds[j].start {
          assert rounds[j] in rest;
        }
        if !Gets(v, c) { RoundsComeLater(after, rest, c, v.end); }
        SpacedCons(v, rounds, c);
      } else {
        assert Rounds(downUntil, vs, c) == Rounds(after, rest, c);
      }
    }
  }

  function Fetches(rs: seq<Visit>, c: FeedConfig): nat {
    if rs == [] then 0 else RetryCalls(c.attempts, rs[0].fetch) + Fetches(rs[1..], c)
  }

  lemma {:induction false} FetchesBounded(rs: seq<Visit>, c: FeedConfig)
    ensures Fetches(rs, c) <= |rs| * Limit(c.attempts)
  {
    if rs != [] {
      FetchesBounded(rs[1..], c);
      OneMore(|rs| - 1, Limit(c.attempts));
    }
  }

  ghost predicate AlwaysFails(rs: seq<Visit>, c: FeedConfig) {
    forall n | 0 <= n < |rs| :: !Gets(rs[n], c)
  }

  lemma {:induction false} SpacedEnds(rs: seq<Visit>, c: FeedConfig, i: nat, j: nat)
    requires Spaced(rs, c) && 0 <= c.cooldown && i <= j < |rs| && AlwaysFails(rs, c)
    ensures rs[j].end >= rs[i].end + (j - i) * c.cooldown
  {
    if i < j {
      SpacedEnds(rs, c, i, j - 1);
      assert rs[j - 1].end + c.cooldown <= rs[j].start <= rs[j].end;
      OneMore(j - 1 - i, c.cooldown);
    }
  }

  lemma QuotientBound(n: nat, length: nat, cooldown: nat)
    requires cooldown > 0 && n * cooldown <= length
    ensures n <= length / cooldown
  {
    if length / cooldown + 1 <= n {
      MulGrows(length / cooldown + 1, n, cooldown);
      assert false;
    }
  }

  lemma {:induction false} RoundsOfAFailingFeed(downUntil: Option<Time>, vs: seq<Visit>, c: FeedConfig)
    requires AlwaysFails(vs, c)
    ensures AlwaysFails(Rounds(downUntil, vs, c), c)
  {
    RoundsAreVisits(downUntil, vs, c);
  }

  /**
   Of a feed that always fails, rounds that end in a window of the given length fetch at most
   max(1, attempts) * (length / cooldown + 1) times.
   */
  lemma FailingFeedIsSpared(downUntil: Option<Time>, vs: seq<Visit>, c: FeedConfig, i: nat, j: nat, from: Time,
                            length: nat)
    requires Sequential(vs) && Unforced(vs) && CooldownsRecorded(vs, c) && AlwaysFails(vs, c) && c.cooldown > 0
    requires i < j <= |Rounds(downUntil, vs, c)|
    requires forall n | i <= n < j :: from <= Rounds(downUntil, vs, c)[n].end <= from + length
    ensures Fetches(Rounds(downUntil, vs, c)[i..j], c) <= (length / c.cooldown + 1) * Max(1, c.attempts)
  {
    var rs := Rounds(downUntil, vs, c);
    CooldownSpacesRounds(downUntil, vs, c);
    RoundsOfAFailingFeed(downUntil, vs, c);
    SpacedEnds(rs, c, i, j - 1);
    QuotientBound(j - 1 - i, length, c.cooldown);
    FetchesBounded(rs[i..j], c);
    MulGrows(j - i, length / c.cooldown + 1, Limit(c.attempts));
  }
}
