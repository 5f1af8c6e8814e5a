/**
 How long one handling can take: the deadline of a model call, an analysis, a delivery, and the lease that is long
 enough. Durations are 64-bit counts of nanoseconds, as time.Duration is.
 */
module Timing {
  import opened Int64
  import opened Retry
  import opened LeaseQueue
  import opened Pipeline
  import opened Deliveries
  import opened Views
  import opened StoredAnalysisAgrees

  const SECOND := 1_000_000_000
  const MINUTE := 60 * SECOND

  // ---------- computeLLMTimeout ----------

  datatype LlmConfig = LlmConfig(timeout: int, timeoutMax: int, per1K: int, per256: int)

  predicate Fits(c: LlmConfig) {
    Is64(c.timeout) && Is64(c.timeoutMax) && Is64(c.per1K) && Is64(c.per256)
  }

  function Base(c: LlmConfig): int { if c.timeout <= 0 then 20 * SECOND else c.timeout }
  function Cap(c: LlmConfig): int { Max(if c.timeoutMax <= 0 then 10 * MINUTE else c.timeoutMax, Base(c)) }
  function Per1K(c: LlmConfig): int { if c.per1K <= 0 then 25 * SECOND else c.per1K }
  function Per256(c: LlmConfig): int { if c.per256 <= 0 then 20 * SECOND else c.per256 }

  /** The started units in `n`, rounded up the way the code does it. */
  function Steps(n: int, unit: int): int
    requires unit > 0
  {
    TruncDiv(Wrap(n + unit - 1), unit)
  }

  /** The allowance the code means to add up, in exact arithmetic. */
  function Allowance(c: LlmConfig, chars: nat, maxTokens: int): int {
    Base(c) + (chars + 999) / 1000 * Per1K(c) + (if maxTokens > 0 then (maxTokens + 255) / 256 * Per256(c) else 0)
  }

  /** The two roundings do not overflow. */
  predicate RoundingFits(chars: nat, maxTokens: int) {
    chars + 999 < TWO63 && maxTokens + 255 < TWO63
  }

  /** Nor does any other sum of the exact computation. */
  predicate NoOverflow(c: LlmConfig, chars: nat, maxTokens: int) {
    RoundingFits(chars, maxTokens) && Allowance(c, chars, maxTokens) < TWO63
  }

  /** What 64-bit arithmetic makes of it. */
  function Wrapped(c: LlmConfig, chars: nat, maxTokens: int): int {
    var t1 := if chars > 0 then Wrap(Base(c) + Wrap(Steps(chars, 1000) * Per1K(c))) else Base(c);
    if maxTokens > 0 then Wrap(t1 + Wrap(Steps(maxTokens, 256) * Per256(c))) else t1
  }

  function Clamp(c: LlmConfig, t: int): int {
    var t1 := if t > Cap(c) then Cap(c) else t;
    if t1 < Base(c) then Base(c) else t1
  }

  function Deadline(c: LlmConfig, chars: nat, maxTokens: int): int {
    Clamp(c, Wrapped(c, chars, maxTokens))
  }

  /** `chars` is the length of the trimmed prompt. The deadline always lies between the two configured bounds. */
  method ComputeLLMTimeout(c: LlmConfig, chars: nat, maxTokens: int) returns (timeout: int)
    requires Fits(c) && Is64(chars) && Is64(maxTokens)
    ensures timeout == Deadline(c, chars, maxTokens)
    ensures 0 < Base(c) <= timeout <= Cap(c)
    ensures NoOverflow(c, chars, maxTokens) ==> timeout == Min(Allowance(c, chars, maxTokens), Cap(c))
  {
    var base := Base(c);
    timeout := base;
    if chars > 0 {
      var steps := TruncDiv(Wrap(chars + 999), 1000);
      timeout := Wrap(timeout + Wrap(steps * Per1K(c)));
    }
    if maxTokens > 0 {
      var steps := TruncDiv(Wrap(maxTokens + 255), 256);
      timeout := Wrap(timeout + Wrap(steps * Per256(c)));
    }
    if NoOverflow(c, chars, maxTokens) { NothingWraps(c, chars, maxTokens); }
    if timeout > Cap(c) {
      timeout := Cap(c);
    }
    if timeout < base {
      return base;
    }
  }

  lemma AllowanceAtLeastBase(c: LlmConfig, chars: nat, maxTokens: int)
    ensures Base(c) <= Allowance(c, chars, maxTokens)
  {
    MulGrows(0, (chars + 999) / 1000, Per1K(c));
    if maxTokens > 0 {
      MulGrows(0, (maxTokens + 255) / 256, Per256(c));
    }
  }

  /** The sum after the prompt's part. */
  lemma PromptPart(c: LlmConfig, chars: nat)
    requires Fits(c) && chars + 999 < TWO63
    ensures (if chars > 0 then Wrap(Base(c) + Wrap(Steps(chars, 1000) * Per1K(c))) else Base(c))
            == Wrap(Base(c) + (chars + 999) / 1000 * Per1K(c))
  {
    if chars > 0 {
      WrapSum(Base(c), (chars + 999) / 1000 * Per1K(c));
    } else {
      assert (chars + 999) / 1000 == 0;
      assert (chars + 999) / 1000 * Per1K(c) == 0;
    }
  }

  /** Wrapping every sum on the way comes to wrapping the allowance once. */
  lemma WrappedIsAllowance(c: LlmConfig, chars: nat, maxTokens: int)
    requires Fits(c) && RoundingFits(chars, maxTokens)
    ensures Wrapped(c, chars, maxTokens) == Wrap(Allowance(c, chars, maxTokens))
  {
    PromptPart(c, chars);
    if maxTokens > 0 {
      WrapBoth(Base(c) + (chars + 999) / 1000 * Per1K(c), (maxTokens + 255) / 256 * Per256(c));
      assert Steps(maxTokens, 256) == (maxTokens + 255) / 256;
    }
  }

  lemma NothingWraps(c: LlmConfig, chars: nat, maxTokens: int)
    requires Fits(c) && NoOverflow(c, chars, maxTokens)
    ensures Wrapped(c, chars, maxTokens) == Allowance(c, chars, maxTokens) >= Base(c)
  {
    WrappedIsAllowance(c, chars, maxTokens);
    AllowanceAtLeastBase(c, chars, maxTokens);
  }

  /**
   The deadline is the allowance meant, up to the cap, exactly when the allowance fits 64 bits, or wraps to the cap or
   beyond, or there is only one deadline to give.
   */
  lemma DeadlineIsRightIff(c: LlmConfig, chars: nat, maxTokens: int)
    requires Fits(c) && RoundingFits(chars, maxTokens)
    ensures var allowance := Allowance(c, chars, maxTokens);
            Deadline(c, chars, maxTokens) == Min(allowance, Cap(c)) <==>
              allowance < TWO63 || Cap(c) <= Wrap(allowance) || Base(c) == Cap(c)
  {
    WrappedIsAllowance(c, chars, maxTokens);
    AllowanceAtLeastBase(c, chars, maxTokens);
  }

  /** The same for all 64-bit arguments, roundings that overflow included. */
  lemma AnyDeadlineIsRightIff(c: LlmConfig, chars: nat, maxTokens: int)
    requires Fits(c) && Is64(chars) && Is64(maxTokens)
    ensures var allowance, wrapped := Allowance(c, chars, maxTokens), Wrapped(c, chars, maxTokens);
            Deadline(c, chars, maxTokens) == Min(allowance, Cap(c)) <==>
              wrapped == allowance || Cap(c) <= Min(allowance, wrapped) || Base(c) == Cap(c)
              || (allowance == Base(c) && wrapped <= Base(c))
  {
    AllowanceAtLeastBase(c, chars, maxTokens);
  }

  /** A longer prompt and more tokens get no shorter deadline exactly when one of these holds. */
  lemma LongerPromptsWaitLongerIff(c: LlmConfig, chars: nat, chars': nat, tokens: int, tokens': int)
    requires Fits(c) && chars <= chars' && tokens <= tokens' && RoundingFits(chars', tokens')
    ensures var w, w' := Wrap(Allowance(c, chars, tokens)), Wrap(Allowance(c, chars', tokens'));
            Deadline(c, chars, tokens) <= Deadline(c, chars', tokens') <==>
              w <= Base(c) || Cap(c) <= w' || w <= w' || Base(c) == Cap(c)
  {
    WrappedIsAllowance(c, chars, tokens);
    WrappedIsAllowance(c, chars', tokens');
  }

  /** Defaults, and that configured values count; a cap below the minimum is raised to it. */
  lemma ConfiguredValues()
    ensures var c := LlmConfig(0, 0, 0, 0);
            Base(c) == 20 * SECOND && Cap(c) == 600 * SECOND && Per1K(c) == 25 * SECOND && Per256(c) == 20 * SECOND
    ensures var c := LlmConfig(1, 2, 3, 4); Base(c) == 1 && Cap(c) == 2 && Per1K(c) == 3 && Per256(c) == 4
    ensures Cap(LlmConfig(5, 2, 3, 4)) == 5
  {
  }

  lemma DeadlineIsTheAllowance(c: LlmConfig, chars: nat, maxTokens: int)
    requires Fits(c) && NoOverflow(c, chars, maxTokens)
    ensures Deadline(c, chars, maxTokens) == Min(Allowance(c, chars, maxTokens), Cap(c))
  {
    NothingWraps(c, chars, maxTokens);
  }

  /** The default deadline: 20 s, and 25 s per started kilobyte, and 20 s per started 256 tokens, but at most 10 min. */
  lemma DefaultDeadline(chars: nat, maxTokens: nat)
    requires chars <= 1_000_000 && maxTokens <= 1_000_000
    ensures Deadline(LlmConfig(0, 0, 0, 0), chars, maxTokens)
            == Min(20 + 25 * ((chars + 999) / 1000) + 20 * ((maxTokens + 255) / 256), 600) * SECOND
  {
    var c, a, b := LlmConfig(0, 0, 0, 0), (chars + 999) / 1000, (maxTokens + 255) / 256;
    assert a <= 1000 && b <= 3907;
    assert maxTokens == 0 ==> b == 0;
    assert Allowance(c, chars, maxTokens) == (20 + 25 * a + 20 * b) * SECOND;
    DeadlineIsTheAllowance(c, chars, maxTokens);
  }

  /** A longer prompt or more tokens are meant to get more time. */
  lemma AllowanceGrows(c: LlmConfig, chars: nat, chars': nat, tokens: int, tokens': int)
    requires chars <= chars' && tokens <= tokens'
    ensures Allowance(c, chars, tokens) <= Allowance(c, chars', tokens')
  {
    MulGrows((chars + 999) / 1000, (chars' + 999) / 1000, Per1K(c));
    if tokens > 0 {
      MulGrows((tokens + 255) / 256, (tokens' + 255) / 256, Per256(c));
    } else if tokens' > 0 {
      MulGrows(0, (tokens' + 255) / 256, Per256(c));
    }
  }

  /** In particular they never get less as long as nothing overflows. */
  lemma LongerPromptsWaitLonger(c: LlmConfig, chars: nat, chars': nat, tokens: int, tokens': int)
    requires Fits(c) && chars <= chars' && tokens <= tokens' && NoOverflow(c, chars', tokens')
    ensures Deadline(c, chars, tokens) <= Deadline(c, chars', tokens')
  {
    AllowanceGrows(c, chars, chars', tokens, tokens');
    AllowanceAtLeastBase(c, chars, tokens);
    LongerPromptsWaitLongerIff(c, chars, chars', tokens, tokens');
  }

  /** Beyond 64 bits it can: one more kilobyte takes this deadline from the cap back to the minimum. */
  lemma OverflowShortensTheDeadline()
    ensures var c := LlmConfig(SECOND, TWO63 - 1, 0x4000_0000_0000_0000, SECOND);
            Fits(c) && Deadline(c, 1001, 0) == Base(c) < Deadline(c, 1, 0)
  {
    var c := LlmConfig(SECOND, TWO63 - 1, 0x4000_0000_0000_0000, SECOND);
    assert Steps(1, 1000) == 1 && Steps(1001, 1000) == 2;
    assert Wrap(2 * 0x4000_0000_0000_0000) == -TWO63;
  }

  // ---------- analyze, and one whole handling ----------

  datatype Extractor = Off | Basic | Scrapling | Hybrid

  datatype AnalyzerConfig = AnalyzerConfig(llm: LlmConfig, llmMaxTokens: int, extractor: Extractor,
                                           scraplingTimeout: int, retryAttempts: int, retryBaseDelay: int)

  datatype Reply = NoReply | Parsed | Truncated | Unusable

  /** What one analysis meets outside: how long each request would take by itself, and what the model answers. */
  datatype Visit = Visit(basicTime: nat, basicEnough: bool, scraplingTime: nat, promptChars: nat, replyTime: nat,
                         reply: Reply, compactChars: nat, compactTime: nat, compactReply: Reply)

  function ScraplingDeadline(c: AnalyzerConfig): int {
    if c.scraplingTimeout <= 0 then 8 * SECOND else c.scraplingTimeout
  }

  /** fetchSourcePageExcerpt: every request runs under its own deadline. */
  function ScrapeTime(c: AnalyzerConfig, v: Visit): nat {
    match c.extractor
    case Off => 0
    case Basic => Min(v.basicTime, 8 * SECOND)
    case Scrapling => Min(v.scraplingTime, ScraplingDeadline(c))
    case Hybrid =>
      Min(v.basicTime, 8 * SECOND) + if v.basicEnough then 0 else Min(v.scraplingTime, ScraplingDeadline(c))
  }

  function FallbackTokens(c: AnalyzerConfig): int {
    Min(Max(Wrap(c.llmMaxTokens * 2), 512), 1024)
  }

  /** analyze: the page, one model call, and a second one when the first answer was cut off. */
  function AnalyzeTime(c: AnalyzerConfig, v: Visit): (t: nat)
    requires Fits(c.llm)
    ensures t <= 8 * SECOND + ScraplingDeadline(c) + 2 * Cap(c.llm)
  {
    ScrapeTime(c, v)
    + Min(v.replyTime, Deadline(c.llm, v.promptChars, c.llmMaxTokens))
    + if v.reply.Truncated? then Min(v.compactTime, Deadline(c.llm, v.compactChars, FallbackTokens(c))) else 0
  }

  /** A visit on which everything takes longer than its deadline lasts as long as its deadlines, by extractor. */
  lemma SlowVisit(c: AnalyzerConfig, v: Visit)
    requires Fits(c.llm)
    requires v.basicTime >= 8 * SECOND && !v.basicEnough && v.scraplingTime >= ScraplingDeadline(c)
    requires v.replyTime >= Cap(c.llm) && v.compactTime >= Cap(c.llm)
    ensures var page := match c.extractor
                        case Off => 0
                        case Basic => 8 * SECOND
                        case Scrapling => ScraplingDeadline(c)
                        case Hybrid => 8 * SECOND + ScraplingDeadline(c);
            var first := Deadline(c.llm, v.promptChars, c.llmMaxTokens);
            AnalyzeTime(c, v) == page + first
              + if v.reply.Truncated? then Deadline(c.llm, v.compactChars, FallbackTokens(c)) else 0
  {
  }

  /** A visit on which nothing is late lasts as long as its requests. */
  lemma QuickVisit(c: AnalyzerConfig, v: Visit)
    requires Fits(c.llm)
    requires v.basicTime <= 8 * SECOND && v.scraplingTime <= ScraplingDeadline(c)
    requires v.replyTime <= Base(c.llm) && v.compactTime <= Base(c.llm)
    ensures AnalyzeTime(c, v)
            == (match c.extractor
                case Off => 0
                case Basic => v.basicTime
                case Scrapling => v.scraplingTime
                case Hybrid => v.basicTime + if v.basicEnough then 0 else v.scraplingTime)
               + v.replyTime + if v.reply.Truncated? then v.compactTime else 0
  {
  }

  /** Deadlines and token counts by example. */
  lemma ExtractorDefaults(c: AnalyzerConfig)
    ensures c.scraplingTimeout <= 0 ==> ScraplingDeadline(c) == 8 * SECOND
    ensures c.scraplingTimeout > 0 ==> ScraplingDeadline(c) == c.scraplingTimeout
    ensures c.llmMaxTokens == 0 ==> FallbackTokens(c) == 512
    ensures c.llmMaxTokens == 400 ==> FallbackTokens(c) == 800
    ensures c.llmMaxTokens == 600 ==> FallbackTokens(c) == 1024
  {
  }

  predicate AnalyzeSucceeds(v: Visit) {
    v.reply.Parsed? || (v.reply.Truncated? && v.compactReply.Parsed?)
  }

  /** The last answer decides: the compact one when the first was cut off, and the first one otherwise. */
  lemma LastAnswerDecides(v: Visit)
    ensures v.reply.Truncated? ==> (AnalyzeSucceeds(v) <==> v.compactReply.Parsed?)
    ensures v.reply.Parsed? ==> AnalyzeSucceeds(v)
    ensures v.reply.NoReply? || v.reply.Unusable? ==> !AnalyzeSucceeds(v)
  {
  }

  function WorstAnalysis(c: AnalyzerConfig): nat {
    8 * SECOND + ScraplingDeadline(c) + 2 * Cap(c.llm)
  }

  /** What one handling meets outside; `statements` and `ends` are the times its database statements take. */
  datatype Outcome = Outcome(limiterWait: nat, anew: bool, visits: nat -> Visit, statements: nat -> nat, ends: nat,
                             cancelled: nat -> bool, cut: nat -> nat)

  predicate Within(o: Outcome, wait: nat, slack: nat) {
    o.limiterWait <= wait && o.ends <= slack
  }

  ghost predicate SwiftStatements(o: Outcome, slack: nat) {
    forall i :: o.statements(i) <= slack
  }

  function AnalysisAttempts(c: AnalyzerConfig, o: Outcome): nat -> Attempt
    requires Fits(c.llm)
  {
    (i: nat) => Attempt(AnalyzeSucceeds(o.visits(i)), AnalyzeTime(c, o.visits(i)) + o.statements(i),
                        o.cancelled(i), o.cut(i))
  }

  /** The time from a claim to the last statement of its handling; only a fresh analysis runs the retry loop. */
  function HandlingTime(c: AnalyzerConfig, o: Outcome): nat
    requires Fits(c.llm)
  {
    o.limiterWait + o.ends
    + if o.anew then RetryTime(c.retryAttempts, c.retryBaseDelay, AnalysisAttempts(c, o)) else 0
  }

  /** The longest a handling can last after its claim. */
  function HandlingBound(c: AnalyzerConfig, wait: nat, slack: nat): int {
    wait + slack + Max(1, c.retryAttempts) * (WorstAnalysis(c) + slack)
    + c.retryBaseDelay * (Pow2(Max(1, c.retryAttempts) - 1) - 1)
  }

  lemma AnalysisAttemptsCost(c: AnalyzerConfig, o: Outcome, slack: nat, i: nat)
    requires Fits(c.llm) && SwiftStatements(o, slack)
    ensures AnalysisAttempts(c, o)(i).cost <= WorstAnalysis(c) + slack
  {
    assert o.statements(i) <= slack;
  }

  lemma HandlingTimeBounded(c: AnalyzerConfig, o: Outcome, wait: nat, slack: nat)
    requires Fits(c.llm) && 0 <= c.retryBaseDelay && Within(o, wait, slack) && SwiftStatements(o, slack)
    ensures HandlingTime(c, o) <= HandlingBound(c, wait, slack)
  {
    var fn, worst, most := AnalysisAttempts(c, o), WorstAnalysis(c) + slack, Max(1, c.retryAttempts);
    forall i ensures fn(i).cost <= worst { AnalysisAttemptsCost(c, o, slack, i); }
    RetryTimeBounded(c.retryAttempts, c.retryBaseDelay, fn, worst);
    MulGrows(RetryCalls(c.retryAttempts, fn), most, worst);
    NonNegative(c.retryBaseDelay, Pow2(most - 1) - 1);
    NonNegative(most, worst);
  }

  lemma NonNegative(a: nat, b: nat)
    ensures 0 <= a * b
  {
  }

  /** Attempt `i` takes as long as it can, and fails. */
  predicate SlowAndVain(c: AnalyzerConfig, o: Outcome, slack: nat, i: nat)
    requires Fits(c.llm)
  {
    && AnalyzeTime(c, o.visits(i)) == WorstAnalysis(c) && o.statements(i) == slack
    && !AnalyzeSucceeds(o.visits(i)) && !o.cancelled(i)
  }

  lemma SlowAttempts(c: AnalyzerConfig, o: Outcome, slack: nat)
    requires Fits(c.llm) && 0 <= c.retryBaseDelay && c.retryBaseDelay * Pow2(Limit(c.retryAttempts) - 1) < TWO63
    requires forall i :: SlowAndVain(c, o, slack, i)
    ensures RetryTime(c.retryAttempts, c.retryBaseDelay, AnalysisAttempts(c, o))
            == Limit(c.retryAttempts) * (WorstAnalysis(c) + slack)
               + c.retryBaseDelay * (Pow2(Limit(c.retryAttempts) - 1) - 1)
  {
    var fn, cost := AnalysisAttempts(c, o), WorstAnalysis(c) + slack;
    forall i ensures fn(i).cost == cost && !fn(i).ok && !fn(i).cancelled {
      assert SlowAndVain(c, o, slack, i);
    }
    InVain(c.retryAttempts, c.retryBaseDelay, fn, cost);
  }

  /** The bound is reached: a handling whose every attempt takes as long as it can, in vain, lasts exactly that long. */
  lemma HandlingBoundIsReached(c: AnalyzerConfig, o: Outcome, wait: nat, slack: nat)
    requires Fits(c.llm) && 0 <= c.retryBaseDelay && c.retryBaseDelay * Pow2(Limit(c.retryAttempts) - 1) < TWO63
    requires o.anew && o.limiterWait == wait && o.ends == slack && forall i :: SlowAndVain(c, o, slack, i)
    ensures HandlingTime(c, o) == HandlingBound(c, wait, slack)
  {
    SlowAttempts(c, o, slack);
  }

  /** One handling, run on the retry loop. */
  method TimeHandling(c: AnalyzerConfig, o: Outcome) returns (elapsed: nat)
    requires Fits(c.llm)
    ensures elapsed == HandlingTime(c, o)
  {
    elapsed := o.limiterWait + o.ends;
    if o.anew {
      var ok, stopped, calls, spent := Exponential(c.retryAttempts, c.retryBaseDelay, AnalysisAttempts(c, o));
      elapsed := elapsed + spent;
    }
  }

  /** Some handling, with the given waits, lasts as long as that. */
  ghost predicate CanLast(c: AnalyzerConfig, wait: nat, slack: nat, age: Time)
    requires Fits(c.llm)
  {
    exists o: Outcome :: Within(o, wait, slack) && SwiftStatements(o, slack) && age <= HandlingTime(c, o)
  }

  /**
   When an item is claimed, whoever still has it in hand has had it no longer than a handling can last; an item being
   analysed is neither re-enqueued nor deleted.
   */
  ghost predicate AnalyzersKeepTime(c: Config, ac: AnalyzerConfig, wait: nat, slack: nat, s: World, e: Event)
    requires CanStep(s, e) && Fits(ac.llm)
  {
    match OnRaw(s, e)
    case Claimed(_, x, t) =>
      forall v | Handles(s, v, x) :: CanLast(ac, wait, slack, t - (s.analyzers[v].hold.until - c.analyzerLease))
    case Enqueued(x, _, _) => forall v :: !Handles(s, v, x)
    case Deleted(x) => forall v :: !Handles(s, v, x)
    case _ => true
  }

  lemma KeepingTimeIsPrompt(c: Config, ac: AnalyzerConfig, wait: nat, slack: nat, s: World, e: Event)
    requires CanStep(s, e) && Fits(ac.llm) && 0 <= ac.retryBaseDelay
    requires AnalyzersKeepTime(c, ac, wait, slack, s, e)
    ensures Prompt(c.analyzerLease, HandlingBound(ac, wait, slack), RawView(s), OnRaw(s, e))
  {
    var q := OnRaw(s, e);
    if q.Claimed? {
      forall v | v in RawView(s).holds && RawView(s).holds[v].item == q.x
        ensures q.t <= RawView(s).holds[v].until - c.analyzerLease + HandlingBound(ac, wait, slack)
      {
        assert Handles(s, v, q.x);
        var o: Outcome :| Within(o, wait, slack) && SwiftStatements(o, slack)
                          && q.t - (s.analyzers[v].hold.until - c.analyzerLease) <= HandlingTime(ac, o);
        HandlingTimeBounded(ac, o, wait, slack);
      }
    } else if q.Enqueued? || q.Deleted? {
      forall v | v in RawView(s).holds ensures RawView(s).holds[v].item != q.x {
        assert !Handles(s, v, q.x);
      }
    }
  }

  /** A lease longer than the computed bound keeps the analyses of one item from overlapping. */
  lemma LongLeasesPreventOverlap(c: Config, ac: AnalyzerConfig, wait: nat, slack: nat, ss: seq<World>, es: seq<Event>,
                                 n: nat)
    requires IsTrace(c, ss, es) && ss[0] == START && n < |es|
    requires Fits(ac.llm) && 0 <= ac.retryBaseDelay && HandlingBound(ac, wait, slack) < c.analyzerLease
    requires forall i | 0 <= i < |es| :: AnalyzersKeepTime(c, ac, wait, slack, ss[i], es[i])
    ensures SoloTake(ss[n], es[n])
  {
    var qs, qe := RawViews(ss), RawEvents(ss, es);
    StartViews();
    RawRun(c, ss, es);
    forall i | 0 <= i < |qe| ensures Prompt(c.analyzerLease, HandlingBound(ac, wait, slack), qs[i], qe[i]) {
      KeepingTimeIsPrompt(c, ac, wait, slack, ss[i], es[i]);
    }
    LongLeasesExclude(c.analyzerLease, HandlingBound(ac, wait, slack), qs, qe, n + 1);
    if es[n].A? && es[n].a.Take? {
      assert Unheld(qs[n], es[n].a.x);
      forall w ensures !Handles(ss[n], w, es[n].a.x) {
        if w in ss[n].analyzers { assert w in qs[n].holds; }
      }
    }
  }

  // ---------- One dispatch ----------

  datatype DispatcherConfig = DispatcherConfig(retryAttempts: int, retryBaseDelay: int)

  /** One delivery by Telegram: each request by itself, and whether the first failed on its formatting. */
  datatype Post = Post(firstTime: nat, firstOk: bool, badFormat: bool, secondTime: nat, secondOk: bool)

  const CLIENT_TIMEOUT := 20 * SECOND

  /** deliverTelegram: one request, and one more without formatting, both under the client's timeout. */
  function DeliverTime(p: Post): (t: nat)
    ensures t <= 2 * CLIENT_TIMEOUT
  {
    Min(p.firstTime, CLIENT_TIMEOUT) + if !p.firstOk && p.badFormat then Min(p.secondTime, CLIENT_TIMEOUT) else 0
  }

  predicate DeliverSucceeds(p: Post) {
    p.firstOk || (p.badFormat && p.secondOk)
  }

  /** A second request is made exactly when the first one failed on its formatting, and the last request decides. */
  lemma LastRequestDecides(p: Post)
    ensures p.firstOk || !p.badFormat ==>
              DeliverTime(p) == Min(p.firstTime, 20 * SECOND) && (DeliverSucceeds(p) <==> p.firstOk)
    ensures !p.firstOk && p.badFormat ==>
              && DeliverTime(p) == Min(p.firstTime, 20 * SECOND) + Min(p.secondTime, 20 * SECOND)
              && (DeliverSucceeds(p) <==> p.secondOk)
  {
  }

  datatype Errand = Errand(limiterWait: nat, sends: bool, posts: nat -> Post, statements: nat -> nat, ends: nat,
                           cancelled: nat -> bool, cut: nat -> nat)

  function DeliveryAttempts(o: Errand): nat -> Attempt {
    (i: nat) => Attempt(DeliverSucceeds(o.posts(i)), DeliverTime(o.posts(i)) + o.statements(i),
                        o.cancelled(i), o.cut(i))
  }

  function DispatchTime(c: DispatcherConfig, o: Errand): nat {
    o.limiterWait + o.ends + if o.sends then RetryTime(c.retryAttempts, c.retryBaseDelay, DeliveryAttempts(o)) else 0
  }

  /** The longest a dispatch can last after its claim. */
  function DispatchBound(c: DispatcherConfig, wait: nat, slack: nat): int {
    wait + slack + Max(1, c.retryAttempts) * (2 * CLIENT_TIMEOUT + slack)
    + c.retryBaseDelay * (Pow2(Max(1, c.retryAttempts) - 1) - 1)
  }

  ghost predicate SwiftErrand(o: Errand, wait: nat, slack: nat) {
    o.limiterWait <= wait && o.ends <= slack && forall i :: o.statements(i) <= slack
  }

  lemma DispatchTimeBounded(c: DispatcherConfig, o: Errand, wait: nat, slack: nat)
    requires 0 <= c.retryBaseDelay && SwiftErrand(o, wait, slack)
    ensures DispatchTime(c, o) <= DispatchBound(c, wait, slack)
  {
    var fn, worst := DeliveryAttempts(o), 2 * CLIENT_TIMEOUT + slack;
    assert forall i :: fn(i).cost <= worst by {
      forall i ensures fn(i).cost <= worst { assert o.statements(i) <= slack; }
    }
    RetryTimeBounded(c.retryAttempts, c.retryBaseDelay, fn, worst);
    MulGrows(RetryCalls(c.retryAttempts, fn), Max(1, c.retryAttempts), worst);
    NonNegative(c.retryBaseDelay, Pow2(Max(1, c.retryAttempts) - 1) - 1);
    NonNegative(Max(1, c.retryAttempts), worst);
  }

  /** The bound is reached. */
  lemma DispatchBoundIsReached(c: DispatcherConfig, o: Errand, wait: nat, slack: nat)
    requires 0 <= c.retryBaseDelay && c.retryBaseDelay * Pow2(Max(1, c.retryAttempts) - 1) < TWO63
    requires o.sends && o.limiterWait == wait && o.ends == slack && forall i :: o.statements(i) == slack
    requires forall i :: o.posts(i).firstTime >= CLIENT_TIMEOUT && o.posts(i).secondTime >= CLIENT_TIMEOUT
    requires forall i :: !o.posts(i).firstOk && o.posts(i).badFormat && !o.posts(i).secondOk && !o.cancelled(i)
    ensures DispatchTime(c, o) == DispatchBound(c, wait, slack) && CLIENT_TIMEOUT == 20 * SECOND
  {
    var fn := DeliveryAttempts(o);
    forall i ensures fn(i).cost == 2 * CLIENT_TIMEOUT + slack && !fn(i).ok && !fn(i).cancelled {
      assert o.posts(i).firstTime >= CLIENT_TIMEOUT;
    }
    InVain(c.retryAttempts, c.retryBaseDelay, fn, 2 * CLIENT_TIMEOUT + slack);
  }

  ghost predicate CanDispatchLast(c: DispatcherConfig, wait: nat, slack: nat, age: Time) {
    exists o: Errand :: SwiftErrand(o, wait, slack) && age <= DispatchTime(c, o)
  }

  ghost predicate DispatchersKeepTime(c: Config, dc: DispatcherConfig, wait: nat, slack: nat, s: World, e: Event)
    requires CanStep(s, e)
  {
    match OnDispatch(s, e)
    case Claimed(_, x, t) =>
      forall v | Dispatching(s, v, x) ::
        CanDispatchLast(dc, wait, slack, t - (s.dispatchers[v].hold.until - c.dispatcherLease))
    case Enqueued(x, _, _) => forall v :: !Dispatching(s, v, x)
    case Deleted(x) => forall v :: !Dispatching(s, v, x)
    case _ => true
  }

  lemma DispatchersArePrompt(c: Config, dc: DispatcherConfig, wait: nat, slack: nat, s: World, e: Event)
    requires CanStep(s, e) && 0 <= dc.retryBaseDelay && DispatchersKeepTime(c, dc, wait, slack, s, e)
    ensures Prompt(c.dispatcherLease, DispatchBound(dc, wait, slack), DispatchView(s), OnDispatch(s, e))
  {
    var q := OnDispatch(s, e);
    if q.Claimed? {
      forall v | v in DispatchView(s).holds && DispatchView(s).holds[v].item == q.x
        ensures q.t <= DispatchView(s).holds[v].until - c.dispatcherLease + DispatchBound(dc, wait, slack)
      {
        assert Dispatching(s, v, q.x);
        var o: Errand :| SwiftErrand(o, wait, slack)
                         && q.t - (s.dispatchers[v].hold.until - c.dispatcherLease) <= DispatchTime(dc, o);
        DispatchTimeBounded(dc, o, wait, slack);
      }
    } else if q.Enqueued? || q.Deleted? {
      forall v | v in DispatchView(s).holds ensures DispatchView(s).holds[v].item != q.x {
        assert !Dispatching(s, v, q.x);
      }
    }
  }

  /** A dispatcher lease longer than its bound keeps the dispatches of one item from overlapping. */
  lemma LongLeasesPreventDoubleDispatch(c: Config, dc: DispatcherConfig, wait: nat, slack: nat,
                                        ss: seq<World>, es: seq<Event>, n: nat)
    requires IsTrace(c, ss, es) && ss[0] == START && n < |es|
    requires 0 <= dc.retryBaseDelay && DispatchBound(dc, wait, slack) < c.dispatcherLease
    requires forall i | 0 <= i < |es| :: DispatchersKeepTime(c, dc, wait, slack, ss[i], es[i])
    ensures SoloAccept(ss[n], es[n])
  {
    var qs, qe := DispatchViews(ss), DispatchEvents(ss, es);
    StartViews();
    DispatchRun(c, ss, es);
    forall i | 0 <= i < |qe| ensures Prompt(c.dispatcherLease, DispatchBound(dc, wait, slack), qs[i], qe[i]) {
      DispatchersArePrompt(c, dc, wait, slack, ss[i], es[i]);
    }
    LongLeasesExclude(c.dispatcherLease, DispatchBound(dc, wait, slack), qs, qe, n + 1);
    if es[n].D? && es[n].b.Accept? {
      assert Unheld(qs[n], es[n].b.x);
      forall d ensures !Dispatching(ss[n], d, es[n].b.x) {
        if d in ss[n].dispatchers { assert d in qs[n].holds; }
      }
    }
  }
}
