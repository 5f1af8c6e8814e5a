/**
 The test feed site: the slots it publishes, the links it prints for them, and the page handler that rebuilds a link
 from its number before it serves the page.
 */
module TestFeed {
  import opened Int64
  import opened Options
  import opened Slug
  import opened Text

  const SECOND := 1_000_000_000

  /** Nanoseconds between the year 1, where time.Truncate counts from, and the Unix epoch. */
  const EPOCH := 62135596800 * SECOND

  datatype Slot = Slot(index: int, time: int)

  function Truncate(now: int, interval: int): int
    requires interval > 0
  {
    now - (now + EPOCH) % interval
  }

  /** The current slot is the last point of the grid that has come; the grid starts at the beginning of the year 1. */
  lemma CurrentSlot(now: int, interval: int)
    requires interval > 0
    ensures Truncate(now, interval) <= now < Truncate(now, interval) + interval
    ensures (Truncate(now, interval) + EPOCH) % interval == 0
    ensures EPOCH == 719162 * 24 * 3600 * SECOND
  {
    var x, r := now + EPOCH, (now + EPOCH) % interval;
    assert x - r == x / interval * interval;
    Remainder(x - r, interval);
    MultipleLeavesNothing(x / interval, interval);
  }

  lemma MultipleLeavesNothing(q: int, d: int)
    requires d > 0
    ensures q * d % d == 0
  {
    QuotientIs(q * d, d, q);
  }

  /** Slots from the current one backwards, one interval apart, each numbered by its own time. */
  method GenerateSlots(now: int, interval: int, maxItems: nat) returns (out: seq<Slot>)
    requires interval >= SECOND
    ensures |out| == maxItems
    ensures forall i | 0 <= i < maxItems :: out[i].time == Truncate(now, interval) - i * interval
    ensures forall i | 0 <= i < maxItems :: out[i].index == TruncDiv(out[i].time, interval)
  {
    var current := Truncate(now, interval);
    out := [];
    for i := 0 to maxItems
      invariant |out| == i
      invariant forall j | 0 <= j < i :: out[j].time == current - j * interval
      invariant forall j | 0 <= j < i :: out[j].index == TruncDiv(out[j].time, interval)
    {
      var t := current - i * interval;
      out := out + [Slot(TruncDiv(t, interval), t)];
    }
  }

  lemma Apart(a: int, b: int, d: int)
    requires d > 0 && a < b
    ensures a * d + d <= b * d
    decreases b - a
  {
    if a + 1 < b {
      Apart(a, b - 1, d);
    }
    assert b * d == (b - 1) * d + d;
  }

  lemma QuotientIs(t: int, d: int, q: int)
    requires d > 0 && q * d <= t < q * d + d
    ensures t / d == q
  {
    var p := t / d;
    if p < q { Apart(p, q, d); }
    if q < p { Apart(q, p, d); }
  }

  lemma QuotientShifts(t: int, d: int, i: int)
    requires d > 0
    ensures (t - i * d) / d == t / d - i
  {
    var q := t / d;
    assert (q - i) * d == q * d - i * d;
    QuotientIs(t - i * d, d, q - i);
  }

  lemma NegatedMultiple(c: int, d: int)
    requires d > 0 && c % d == 0
    ensures (-c) / d == -(c / d)
  {
    assert (-(c / d)) * d == -(c / d * d);
    QuotientIs(-c, d, -(c / d));
  }

  /** On one side of the epoch, or on a grid through it, the numbers go down one by one. */
  lemma SlotsAreConsecutive(c: int, d: int, n: int, i: int)
    requires d > 0 && 0 <= i < n && (c % d == 0 || c <= 0 || (n - 1) * d <= c)
    ensures TruncDiv(c - i * d, d) == TruncDiv(c, d) - i
  {
    QuotientShifts(c, d, i);
    QuotientShifts(-c, d, -i);
    assert -(c - i * d) == -c - (-i) * d;
    if 0 < i { Apart(0, i, d); }
    if i < n - 1 { Apart(i, n - 1, d); }
    if c % d == 0 { NegatedMultiple(c, d); }
  }

  /** And only then: the slot just before the epoch repeats number zero. */
  lemma SlotsRepeatAtTheEpoch(c: int, d: int, n: nat) returns (i: nat)
    requires d > 0 && c % d != 0 && 0 < c < (n - 1) * d
    ensures i + 1 < n && TruncDiv(c - i * d, d) == TruncDiv(c - (i + 1) * d, d) == 0
  {
    i := c / d;
    Remainder(c, d);
    if n - 1 < i { Apart(n - 1, i, d); }
    var later, earlier := c - i * d, c - (i + 1) * d;
    QuotientIs(later, d, 0);
    QuotientIs(-earlier, d, 0);
  }

  lemma Remainder(c: int, d: int)
    requires d > 0
    ensures c - c / d * d == c % d && c - (c / d + 1) * d == c % d - d
  {
    assert (c / d + 1) * d == c / d * d + d;
  }

  // ---------- Links and pages ----------

  /** A name whose only white space is the blank. */
  ghost predicate Tidy(s: string) {
    forall i | 0 <= i < |s| :: IsSpace(s[i]) ==> s[i] == ' '
  }

  /** The site's companies and roles; a job's are chosen by its index. */
  datatype Site = Site(companies: seq<string>, roles: seq<string>)

  ghost predicate WellNamed(site: Site) {
    && |site.companies| > 0 && |site.roles| > 0
    && (forall i | 0 <= i < |site.companies| :: Tidy(site.companies[i]) && Survives(site.companies[i]))
    && (forall i | 0 <= i < |site.roles| :: Tidy(site.roles[i]))
  }

  /** buildJob's slug; a negative index is a run-time panic there. */
  function JobSlug(site: Site, index: nat): string
    requires |site.companies| > 0 && |site.roles| > 0
  {
    SlugOf(JobText(site.companies[index % |site.companies|], site.roles[index % |site.roles|], index))
  }

  function TrimSlashes(s: string): string
    decreases |s|
  {
    if s != "" && s[0] == '/' then TrimSlashes(s[1..])
    else if s != "" && s[|s| - 1] == '/' then TrimSlashes(s[..|s| - 1])
    else s
  }

  /** serveJobPage: the job whose page is served under the path, if any. */
  function ServedPage(site: Site, path: string): Option<nat>
    requires |site.companies| > 0 && |site.roles| > 0
  {
    var slug := TrimSlashes(TrimSpace(path));
    var index := ParseSlotIndex(slug);
    if slug == "" || index.None? || JobSlug(site, index.value) != slug then None else index
  }

  ghost predicate Clean(s: string) {
    forall i | 0 <= i < |s| :: !IsSpace(s[i]) && s[i] != '/'
  }

  lemma {:induction false} ReplacedIsClean(p: string)
    requires Tidy(p)
    ensures Clean(ReplaceChars(LowerAll(p)))
  {
    if p != "" {
      assert LowerAll(p)[1..] == LowerAll(p[1..]);
      ReplacedIsClean(p[1..]);
    }
  }

  lemma {:induction false} CollapsedIsClean(s: string)
    requires Clean(s)
    ensures Clean(Collapse(s))
  {
    if s != "" { CollapsedIsClean(s[1..]); }
  }

  lemma {:induction false} TrimmedIsClean(s: string)
    requires Clean(s)
    ensures Clean(TrimDashesLeft(s))
  {
    if s != "" && s[0] == '-' { TrimmedIsClean(s[1..]); }
  }

  lemma {:induction false} TrimLeftIsTidy(s: string)
    requires Tidy(s)
    ensures Tidy(TrimLeft(s)) && (Survives(s) ==> Survives(TrimLeft(s)))
  {
    if s != "" && IsSpace(s[0]) {
      TrimLeftIsTidy(s[1..]);
      if Survives(s) {
        var i :| 0 <= i < |s| && Replaced(Lower(s[i])) != "" && Replaced(Lower(s[i])) != "-";
        assert s[1..][i - 1] == s[i];
      }
    }
  }

  lemma LabelIsTidy(company: string, role: string)
    requires Tidy(company) && Survives(company) && Tidy(role)
    ensures Tidy(Label(company, role)) && Survives(Label(company, role))
  {
    var l := Label(company, role);
    var i :| 0 <= i < |company| && Replaced(Lower(company[i])) != "" && Replaced(Lower(company[i])) != "-";
    assert l[i] == company[i];
    forall k | 0 <= k < |l| && IsSpace(l[k]) ensures l[k] == ' ' {
      if k < |company| { assert l[k] == company[k]; }
      else if |company| < k <= |company| + |role| { assert l[k] == role[k - |company| - 1]; }
    }
  }

  lemma NumberedIsClean(t: string, d: string)
    requires Clean(t) && d != "" && AllDigits(d)
    ensures Clean(t + d) && IsDigit((t + d)[|t + d| - 1])
  {
    var s := t + d;
    forall i | 0 <= i < |s| ensures !IsSpace(s[i]) && s[i] != '/' {
      if i < |t| { assert s[i] == t[i]; } else { assert s[i] == d[i - |t|] && IsDigit(d[i - |t|]); }
    }
  }

  /** The slug of a job is its label and its number, with no white space and no slash anywhere. */
  lemma SlugIsClean(company: string, role: string, n: nat)
    requires Tidy(company) && Survives(company) && Tidy(role)
    ensures var slug := SlugOf(JobText(company, role, n));
            Clean(slug) && slug != "" && IsDigit(slug[|slug| - 1])
  {
    var l, d := Label(company, role), Itoa(n);
    LabelIsTidy(company, role);
    TrimLeftIsTidy(l);
    ItoaIsRead(n);
    assert JobText(company, role, n) == l + d;
    SlugOfNumbered(l, d);
    ReplacedIsClean(TrimLeft(l));
    var r := ReplaceChars(LowerAll(TrimLeft(l)));
    CollapsedIsClean(r);
    TrimmedIsClean(Collapse(r));
    NumberedIsClean(TrimDashesLeft(Collapse(r)), d);
  }

  /** Every published link is served: its number is read back and the rebuilt slug is the same. */
  lemma PublishedLinksAreServed(site: Site, index: nat)
    requires WellNamed(site) && index <= MAX_INT
    ensures ServedPage(site, JobSlug(site, index)) == Some(index)
  {
    var company, role := site.companies[index % |site.companies|], site.roles[index % |site.roles|];
    var slug := JobSlug(site, index);
    SlugIsClean(company, role, index);
    LabelIsTidy(company, role);
    TrimLeftIsTidy(Label(company, role));
    SlugRoundTrip(company, role, index);
    TrimRightStops(slug);
    assert TrimSpace(slug) == slug && TrimSlashes(slug) == slug;
  }

  datatype JobPost = JobPost(index: int, slug: string)

  /** buildJob panics on a negative number, so the oldest slot must not lie a whole interval before the epoch. */
  predicate Publishable(now: int, interval: int, maxItems: nat)
    requires interval > 0
  {
    maxItems > 0 ==> Truncate(now, interval) - (maxItems - 1) * interval > -interval
  }

  lemma SlotIsNumbered(now: int, interval: int, maxItems: nat, i: nat)
    requires interval >= SECOND && Is64(now) && Publishable(now, interval, maxItems) && i < maxItems
    ensures 0 <= TruncDiv(Truncate(now, interval) - i * interval, interval) <= MAX_INT
  {
    MulGrows(i, maxItems - 1, interval);
    var t := Truncate(now, interval) - i * interval;
    assert -interval < t <= now by { MulGrows(0, i, interval); }
    if t >= 0 { QuotientAtMost(t, interval); } else { QuotientIs(-t, interval, 0); }
  }

  lemma QuotientAtMost(t: nat, d: nat)
    requires d > 0
    ensures 0 <= t / d <= t
  {
    var q := t / d;
    if q > t {
      MulGrows(t + 1, q, d);
      MulGrows(1, d, t + 1);
      assert false;
    }
  }

  method BuildJobs(site: Site, slots: seq<Slot>) returns (out: seq<JobPost>)
    requires WellNamed(site) && forall i | 0 <= i < |slots| :: 0 <= slots[i].index <= MAX_INT
    ensures |out| == |slots|
    ensures forall i | 0 <= i < |slots| :: out[i].index == slots[i].index
    ensures forall i | 0 <= i < |slots| :: ServedPage(site, out[i].slug) == Some(slots[i].index)
  {
    out := [];
    for k := 0 to |slots|
      invariant |out| == k
      invariant forall i | 0 <= i < k :: out[i].index == slots[i].index
      invariant forall i | 0 <= i < k :: ServedPage(site, out[i].slug) == Some(slots[i].index)
    {
      PublishedLinksAreServed(site, slots[k].index);
      out := out + [JobPost(slots[k].index, JobSlug(site, slots[k].index))];
    }
  }

  /** generateLatestJobs: every link it prints is served, and shows its own job. */
  method GenerateLatestJobs(site: Site, now: int, interval: int, maxItems: nat) returns (out: seq<JobPost>)
    requires WellNamed(site) && interval >= SECOND && Is64(now) && Publishable(now, interval, maxItems)
    ensures |out| == maxItems
    ensures forall i | 0 <= i < maxItems :: out[i].index == TruncDiv(Truncate(now, interval) - i * interval, interval)
    ensures forall i | 0 <= i < maxItems :: out[i].index >= 0 && ServedPage(site, out[i].slug) == Some(out[i].index)
  {
    var slots := GenerateSlots(now, interval, maxItems);
    forall i | 0 <= i < maxItems ensures 0 <= slots[i].index <= MAX_INT {
      SlotIsNumbered(now, interval, maxItems, i);
    }
    out := BuildJobs(site, slots);
  }

  /** On a grid through the epoch, or after it, no two jobs of a page share a link. */
  lemma LinksAreDistinct(site: Site, c: int, d: int, n: nat, i: nat, j: nat)
    requires WellNamed(site) && d > 0 && i < j < n && (c % d == 0 || (n - 1) * d <= c)
    requires 0 <= TruncDiv(c - j * d, d) && TruncDiv(c - i * d, d) <= MAX_INT
    ensures 0 <= TruncDiv(c - i * d, d)
    ensures JobSlug(site, TruncDiv(c - i * d, d)) != JobSlug(site, TruncDiv(c - j * d, d))
  {
    SlotsAreConsecutive(c, d, n, i);
    SlotsAreConsecutive(c, d, n, j);
    PublishedLinksAreServed(site, TruncDiv(c - i * d, d));
    PublishedLinksAreServed(site, TruncDiv(c - j * d, d));
  }

  lemma CleanIsTrimmed(slug: string)
    requires Clean(slug) && slug != ""
    ensures TrimSpace(slug) == slug && TrimSlashes(slug) == slug
  {
    assert StartsBare(slug) && EndsBare(slug);
    TrimRightStops(slug);
  }

  lemma SlashesGo(slug: string)
    requires Clean(slug) && slug != ""
    ensures TrimSlashes("/" + slug + "/") == slug
  {
    var path, rest := "/" + slug + "/", slug + "/";
    assert path[0] == '/' && path[1..] == rest;
    assert rest[0] == slug[0] && rest[|rest| - 1] == '/' && rest[..|rest| - 1] == slug;
    CleanIsTrimmed(slug);
  }

  lemma SlashesAreBare(slug: string)
    ensures TrimSpace("/" + slug + "/") == "/" + slug + "/"
  {
    var path := "/" + slug + "/";
    assert path[0] == '/' && path[|path| - 1] == '/';
    assert StartsBare(path) && EndsBare(path);
    TrimRightStops(path);
  }

  lemma SamePage(site: Site, p: string, q: string)
    requires |site.companies| > 0 && |site.roles| > 0 && TrimSlashes(TrimSpace(p)) == TrimSlashes(TrimSpace(q))
    ensures ServedPage(site, p) == ServedPage(site, q)
  {
  }

  /** So is the link with slashes around it; and whatever is served is a published link, up to slashes and blanks. */
  lemma SlashesDoNotMatter(site: Site, index: nat)
    requires WellNamed(site) && index <= MAX_INT
    ensures ServedPage(site, "/" + JobSlug(site, index) + "/") == Some(index)
  {
    var slug := JobSlug(site, index);
    SlugIsClean(site.companies[index % |site.companies|], site.roles[index % |site.roles|], index);
    SlashesAreBare(slug);
    SlashesGo(slug);
    CleanIsTrimmed(slug);
    SamePage(site, "/" + slug + "/", slug);
    PublishedLinksAreServed(site, index);
  }

  lemma OnlyPublishedLinksAreServed(site: Site, path: string)
    requires |site.companies| > 0 && |site.roles| > 0 && ServedPage(site, path).Some?
    ensures TrimSlashes(TrimSpace(path)) == JobSlug(site, ServedPage(site, path).value)
  {
  }

  /** Which company and role a number gets: they take turns, each list at its own pace. */
  lemma JobsTakeTurns(site: Site, index: nat, c: nat, r: nat)
    requires c < |site.companies| && r < |site.roles|
    requires (index - c) % |site.companies| == 0 && (index - r) % |site.roles| == 0
    ensures JobSlug(site, index) == SlugOf(site.companies[c] + " " + site.roles[r] + " " + Itoa(index))
  {
    TurnOf(index, |site.companies|, c);
    TurnOf(index, |site.roles|, r);
  }

  lemma TurnOf(n: nat, d: nat, c: nat)
    requires c < d && (n - c) % d == 0
    ensures n % d == c
  {
    var q := (n - c) / d;
    assert n == q * d + c;
    QuotientIs(n, d, q);
  }

  const OUR_COMPANIES := ["Acme Cloud", "Nimbus Labs", "Northstar Data", "Pixel Orbit", "Atlas Metrics"]
  const OUR_ROLES := ["Senior Go Backend Engineer", "Staff Platform Engineer", "DevOps Engineer (Kubernetes)",
                     "Full-Stack Engineer (Go/React)", "Site Reliability Engineer"]

  lemma CapitalSurvives(s: string)
    requires s != "" && 'A' <= s[0] <= 'Z'
    ensures Survives(s)
  {
    assert Replaced(Lower(s[0])) != "" && Replaced(Lower(s[0])) != "-";
  }

  lemma OurCompaniesAreTidy(i: nat)
    requires i < |OUR_COMPANIES|
    ensures Tidy(OUR_COMPANIES[i]) && Survives(OUR_COMPANIES[i])
  {
    assert Tidy("Acme Cloud") && Tidy("Nimbus Labs") && Tidy("Northstar Data");
    assert Tidy("Pixel Orbit") && Tidy("Atlas Metrics");
    CapitalSurvives(OUR_COMPANIES[i]);
  }

  lemma OurRolesAreTidy(i: nat)
    requires i < |OUR_ROLES|
    ensures Tidy(OUR_ROLES[i])
  {
    assert Tidy("Senior Go Backend Engineer") && Tidy("Staff Platform Engineer");
    assert Tidy("DevOps Engineer (Kubernetes)") && Tidy("Full-Stack Engineer (Go/React)");
    assert Tidy("Site Reliability Engineer");
  }

  /** The site's own names qualify, so all of its links work. */
  lemma OurLinksAreServed(index: nat)
    requires index <= MAX_INT
    ensures WellNamed(Site(OUR_COMPANIES, OUR_ROLES))
    ensures ServedPage(Site(OUR_COMPANIES, OUR_ROLES), JobSlug(Site(OUR_COMPANIES, OUR_ROLES), index)) == Some(index)
  {
    forall i | 0 <= i < |OUR_COMPANIES| ensures Tidy(OUR_COMPANIES[i]) && Survives(OUR_COMPANIES[i]) {
      OurCompaniesAreTidy(i);
    }
    forall i | 0 <= i < |OUR_ROLES| ensures Tidy(OUR_ROLES[i]) { OurRolesAreTidy(i); }
    PublishedLinksAreServed(Site(OUR_COMPANIES, OUR_ROLES), index);
  }
}
