/**
 The normalisation of an analysed job: what is cleaned, what is dropped, and the quality score. Text is ASCII, apart
 from the currency signs the salary check looks for.
 */
module Normalise {
  import opened Options
  import opened Text

  // ---------- Lists without blanks and repetitions ----------

  /**
   The loop shared by uniqueURLs, sanitizeTechStack and sanitizeTags: clean each value, drop the empty ones and those
   whose key was seen.
   */
  function Distil(clean: string -> string, key: string -> string, values: seq<string>, seen: set<string>): seq<string> {
    if values == [] then []
    else
      var c := clean(values[0]);
      if c == "" || key(c) in seen then Distil(clean, key, values[1..], seen)
      else [c] + Distil(clean, key, values[1..], seen + {key(c)})
  }

  /** Clean values with distinct, unseen keys. */
  ghost predicate Distilled(clean: string -> string, key: string -> string, out: seq<string>, seen: set<string>) {
    && (forall i | 0 <= i < |out| :: out[i] != "" && clean(out[i]) == out[i] && key(out[i]) !in seen)
    && (forall i, j | 0 <= i < j < |out| :: key(out[i]) != key(out[j]))
  }

  lemma {:induction false} DistilIsDistilled(clean: string -> string, key: string -> string, values: seq<string>,
                                             seen: set<string>)
    requires forall v :: clean(clean(v)) == clean(v)
    ensures Distilled(clean, key, Distil(clean, key, values, seen), seen)
    ensures |Distil(clean, key, values, seen)| <= |values|
  {
    if values != [] {
      var c := clean(values[0]);
      if c == "" || key(c) in seen {
        DistilIsDistilled(clean, key, values[1..], seen);
      } else {
        DistilIsDistilled(clean, key, values[1..], seen + {key(c)});
        var rest := Distil(clean, key, values[1..], seen + {key(c)});
        assert forall j | 0 <= j < |rest| :: key(rest[j]) !in seen + {key(c)};
      }
    }
  }

  lemma {:induction false} DistilledIsFixed(clean: string -> string, key: string -> string, out: seq<string>,
                                            seen: set<string>)
    requires Distilled(clean, key, out, seen)
    ensures Distil(clean, key, out, seen) == out
  {
    if out != [] {
      var rest := out[1..];
      assert key(out[0]) !in seen;
      forall i | 0 <= i < |rest| ensures rest[i] == out[i + 1] && key(rest[i]) != key(out[0]) { }
      DistilledIsFixed(clean, key, rest, seen + {key(out[0])});
    }
  }

  /** `out` is `values` with some left out. */
  predicate IsSubsequence(out: seq<string>, values: seq<string>) {
    if out == [] then true
    else if values == [] then false
    else if out[0] == values[0] && IsSubsequence(out[1..], values[1..]) then true
    else IsSubsequence(out, values[1..])
  }

  function CleanAll(clean: string -> string, values: seq<string>): seq<string> {
    if values == [] then [] else [clean(values[0])] + CleanAll(clean, values[1..])
  }

  /** The output keeps the order of the cleaned input, and leaves out only blanks and repetitions. */
  lemma {:induction false} DistilSelects(clean: string -> string, key: string -> string, values: seq<string>,
                                         seen: set<string>)
    ensures IsSubsequence(Distil(clean, key, values, seen), CleanAll(clean, values))
    ensures forall v | v in values && clean(v) != "" && key(clean(v)) !in seen ::
              exists o :: o in Distil(clean, key, values, seen) && key(o) == key(clean(v))
  {
    if values != [] {
      var c, rest := clean(values[0]), values[1..];
      var seen' := if c == "" || key(c) in seen then seen else seen + {key(c)};
      DistilSelects(clean, key, rest, seen');
      var out := Distil(clean, key, values, seen);
      var tail := Distil(clean, key, rest, seen');
      assert CleanAll(clean, values)[1..] == CleanAll(clean, rest);
      forall v | v in values && clean(v) != "" && key(clean(v)) !in seen
        ensures exists o :: o in out && key(o) == key(clean(v))
      {
        if seen' != seen && key(clean(v)) == key(c) {
          assert out[0] == c && c in out;
        } else {
          assert v in rest;
          var o :| o in tail && key(o) == key(clean(v));
          assert o in out;
        }
      }
    }
  }

  // ---------- Cleaning one value ----------

  const PLACEHOLDERS := {
    "unknown", "n/a", "na", "none", "null", "-", "--",
    "not specified", "not available", "unspecified", "tbd",
    "non specificato", "non disponibile", "non indicato", "da definire", "nessuno"
  }

  function SanitizeUnknown(v: string): string {
    var t := TrimSpace(v);
    if t == "" || LowerAll(t) in PLACEHOLDERS then "" else t
  }

  lemma SanitizeUnknownTwice(v: string)
    ensures SanitizeUnknown(SanitizeUnknown(v)) == SanitizeUnknown(v)
  {
    TrimSpaceTwice(v);
  }

  /** Text that says something, trimmed already. */
  predicate Informative(v: string) {
    StartsBare(v) && EndsBare(v) && LowerAll(v) !in PLACEHOLDERS
  }

  /** Such text stays, and anything else becomes such text or nothing. */
  lemma InformationStays(v: string)
    ensures Informative(v) ==> SanitizeUnknown(v) == v
    ensures SanitizeUnknown(v) == "" || (Informative(SanitizeUnknown(v)) && SanitizeUnknown(v) == TrimSpace(v))
  {
    TrimLeftStartsBare(v);
    TrimRightEndsBare(TrimLeft(v));
    if Informative(v) { TrimRightStops(v); }
  }

  /** The placeholders, in any case. */
  lemma PlaceholdersVanish(v: string)
    requires LowerAll(v) in {"unknown", "n/a", "na", "none", "null", "-", "--",
                             "not specified", "not available", "unspecified", "tbd",
                             "non specificato", "non disponibile", "non indicato", "da definire", "nessuno"}
    requires StartsBare(v) && EndsBare(v)
    ensures SanitizeUnknown(v) == ""
  {
    BareStays(v);
  }

  lemma BareStays(v: string)
    requires StartsBare(v) && EndsBare(v)
    ensures TrimSpace(v) == v
  {
    TrimLeftStartsBare(v);
    TrimRightStops(v);
  }

  predicate IsTagChar(c: char) {
    IsDigit(c) || 'a' <= c <= 'z' || 'A' <= c <= 'Z'
  }

  /** strings.Map of normalizeTag: letters and digits in lower case, nothing else. */
  function KeepTagChars(v: string): string {
    if v == "" then "" else (if IsTagChar(v[0]) then [Lower(v[0])] else "") + KeepTagChars(v[1..])
  }

  function NormalizeTag(v: string): string {
    KeepTagChars(TrimSpace(if v != "" && v[0] == '#' then v[1..] else v))
  }

  /** A tag as sanitizeTags keeps it: at most 24 characters. */
  function CleanTag(v: string): string {
    var tag := NormalizeTag(v);
    if |tag| > 24 then tag[..24] else tag
  }

  /** A letter or digit is kept in lower case, any other ASCII character is not; and texts are kept piece by piece. */
  lemma TagChars(c: char)
    ensures '0' <= c <= '9' || 'a' <= c <= 'z' ==> KeepTagChars([c]) == [c]
    ensures 'A' <= c <= 'Z' ==> KeepTagChars([c]) == [c - 'A' + 'a']
    ensures c < '0' || '9' < c < 'A' || 'Z' < c < 'a' || 'z' < c ==> KeepTagChars([c]) == ""
  {
    assert [c][1..] == "";
  }

  lemma {:induction false} TagsJoin(a: string, b: string)
    ensures KeepTagChars(a + b) == KeepTagChars(a) + KeepTagChars(b)
  {
    if a == "" {
      assert a + b == b;
    } else {
      var head := if IsTagChar(a[0]) then [Lower(a[0])] else "";
      assert (a + b)[0] == a[0] && (a + b)[1..] == a[1..] + b;
      TagsJoin(a[1..], b);
      assert head + (KeepTagChars(a[1..]) + KeepTagChars(b)) == (head + KeepTagChars(a[1..])) + KeepTagChars(b);
    }
  }

  lemma {:induction false} SpacesAreNotTags(v: string)
    ensures KeepTagChars(TrimLeft(v)) == KeepTagChars(v) && KeepTagChars(TrimRight(v)) == KeepTagChars(v)
  {
    if v != "" {
      SpacesAreNotTags(v[1..]);
      var front, last := v[..|v| - 1], v[|v| - 1];
      SpacesAreNotTags(front);
      assert v == front + [last];
      TagsJoin(front, [last]);
      TagChars(last);
    }
  }

  lemma SpaceAround(v: string)
    ensures KeepTagChars(TrimSpace(v)) == KeepTagChars(v)
  {
    SpacesAreNotTags(v);
    SpacesAreNotTags(TrimLeft(v));
  }

  /** Neither the leading '#' nor the white space makes a difference to a tag. */
  lemma TagIsItsLetters(v: string)
    ensures NormalizeTag(v) == KeepTagChars(v)
  {
    if v != "" && v[0] == '#' {
      SpaceAround(v[1..]);
      assert !IsTagChar(v[0]) && KeepTagChars(v) == KeepTagChars(v[1..]);
    } else {
      SpaceAround(v);
    }
  }

  /** A tag is cut to its first 24 characters. */
  lemma TagIsCut(v: string)
    ensures CleanTag(v) <= NormalizeTag(v)
    ensures |CleanTag(v)| == if |NormalizeTag(v)| < 24 then |NormalizeTag(v)| else 24
  {
  }

  predicate IsTag(s: string) {
    forall i | 0 <= i < |s| :: IsDigit(s[i]) || 'a' <= s[i] <= 'z'
  }

  lemma {:induction false} KeptCharsAreTag(v: string)
    ensures IsTag(KeepTagChars(v))
  {
    if v != "" { KeptCharsAreTag(v[1..]); }
  }

  lemma {:induction false} TagsAreKept(t: string)
    requires IsTag(t)
    ensures KeepTagChars(t) == t
  {
    if t != "" {
      assert forall i | 0 <= i < |t[1..]| :: t[1..][i] == t[i + 1];
      TagsAreKept(t[1..]);
    }
  }

  lemma CleanTagTwice(v: string)
    ensures CleanTag(CleanTag(v)) == CleanTag(v) && IsTag(CleanTag(v)) && |CleanTag(v)| <= 24
  {
    KeptCharsAreTag(TrimSpace(if v != "" && v[0] == '#' then v[1..] else v));
    var t := CleanTag(v);
    assert IsTag(t);
    if t != "" {
      assert IsDigit(t[0]) || 'a' <= t[0] <= 'z';
      assert IsDigit(t[|t| - 1]) || 'a' <= t[|t| - 1] <= 'z';
      TrimLeftStartsBare(t);
      TrimRightStops(t);
    }
    TagsAreKept(t);
  }

  const SAME := (s: string) => s
  const TECH := (s: string) => SanitizeUnknown(s)
  const TAG := (s: string) => CleanTag(s)
  const URL := (s: string) => TrimSpace(s)
  const LOWER := (s: string) => LowerAll(s)

  // ---------- The loops ----------

  /** One value more: dropped, or put at the end of what was kept. */
  lemma DistilOne(clean: string -> string, key: string -> string, values: seq<string>, i: nat, seen: set<string>,
                  out: seq<string>)
    requires i < |values|
    ensures var c, rest := clean(values[i]), values[i + 1..];
            out + Distil(clean, key, values[i..], seen)
            == if c == "" || key(c) in seen then out + Distil(clean, key, rest, seen)
               else (out + [c]) + Distil(clean, key, rest, seen + {key(c)})
  {
    var c := clean(values[i]);
    assert values[i..][0] == values[i] && values[i..][1..] == values[i + 1..];
    assert out + ([c] + Distil(clean, key, values[i + 1..], seen + {key(c)}))
           == (out + [c]) + Distil(clean, key, values[i + 1..], seen + {key(c)});
  }

  method SanitizeTechStack(values: seq<string>) returns (out: seq<string>)
    ensures out == Distil(TECH, LOWER, values, {})
  {
    out := [];
    var seen: set<string> := {};
    for i := 0 to |values|
      invariant out + Distil(TECH, LOWER, values[i..], seen) == Distil(TECH, LOWER, values, {})
    {
      DistilOne(TECH, LOWER, values, i, seen, out);
      var clean := SanitizeUnknown(values[i]);
      if clean == "" { continue; }
      var key := LowerAll(clean);
      if key in seen { continue; }
      seen := seen + {key};
      out := out + [clean];
    }
  }

  method SanitizeTags(values: seq<string>) returns (out: seq<string>)
    ensures out == Distil(TAG, SAME, values, {})
  {
    out := [];
    var seen: set<string> := {};
    for i := 0 to |values|
      invariant out + Distil(TAG, SAME, values[i..], seen) == Distil(TAG, SAME, values, {})
    {
      DistilOne(TAG, SAME, values, i, seen, out);
      var tag := NormalizeTag(values[i]);
      if tag == "" { continue; }
      if |tag| > 24 {
        tag := tag[..24];
      }
      assert tag == TAG(values[i]);
      if tag in seen { continue; }
      seen := seen + {tag};
      out := out + [tag];
    }
  }

  function Flatten(lists: seq<seq<string>>): seq<string> {
    if lists == [] then [] else lists[0] + Flatten(lists[1..])
  }

  method UniqueURLs(lists: seq<seq<string>>) returns (out: seq<string>)
    ensures out == Distil(URL, SAME, Flatten(lists), {})
  {
    out := [];
    var seen: set<string> := {};
    for n := 0 to |lists|
      invariant out + Distil(URL, SAME, Flatten(lists[n..]), seen) == Distil(URL, SAME, Flatten(lists), {})
    {
      var list := lists[n];
      ghost var later := Flatten(lists[n + 1..]);
      ghost var both := list + later;
      assert lists[n..][0] == list && lists[n..][1..] == lists[n + 1..];
      assert both[0..] == both == Flatten(lists[n..]);
      for i := 0 to |list|
        invariant out + Distil(URL, SAME, both[i..], seen) == Distil(URL, SAME, Flatten(lists), {})
      {
        DistilOne(URL, SAME, both, i, seen, out);
        var v := TrimSpace(list[i]);
        if v == "" || v in seen { continue; }
        seen := seen + {v};
        out := out + [v];
      }
      assert both[|list|..] == later;
    }
  }

  // ---------- The category ----------

  const ALLOWED := [
    "Programmazione", "Devops & Sysadmin", "Customer Support", "Marketing", "Design", "Business", "Copywriting", "Jobs",
    "Altri ruoli"
  ]

  const OTHER := "Altri ruoli"

  /** Spellings of a category, in lower case. */
  const SPELLINGS := map[
    "programmazione" := "Programmazione", "devops & sysadmin" := "Devops & Sysadmin",
    "devops and sysadmin" := "Devops & Sysadmin", "devops/sysadmin" := "Devops & Sysadmin",
    "customer support" := "Customer Support", "marketing" := "Marketing", "design" := "Design",
    "business" := "Business", "copywriting" := "Copywriting", "jobs" := "Jobs", "altri ruoli" := "Altri ruoli",
    "altri ruoli." := "Altri ruoli", "other roles" := "Altri ruoli"
  ]

  /** The first allowed category, from position `i` on, that is `k` up to case. */
  function FirstAllowed(k: string, i: nat): (r: string)
    requires i <= |ALLOWED|
    ensures r in ALLOWED
    decreases |ALLOWED| - i
  {
    if i == |ALLOWED| then assert ALLOWED[8] == OTHER; OTHER
    else if LowerAll(TrimSpace(ALLOWED[i])) == k then ALLOWED[i]
    else FirstAllowed(k, i + 1)
  }

  lemma SpellingsAreAllowed(k: string)
    requires k in SPELLINGS
    ensures SPELLINGS[k] in ALLOWED
  {
    assert ALLOWED[0] in ALLOWED && ALLOWED[1] in ALLOWED && ALLOWED[2] in ALLOWED && ALLOWED[3] in ALLOWED;
    assert ALLOWED[4] in ALLOWED && ALLOWED[5] in ALLOWED && ALLOWED[6] in ALLOWED && ALLOWED[7] in ALLOWED;
    assert ALLOWED[8] in ALLOWED;
  }

  function NormalizeJobCategory(v: string): (r: string)
    ensures r in ALLOWED
  {
    var k := LowerAll(TrimSpace(v));
    if k == "" then assert ALLOWED[8] == OTHER; OTHER
    else if k in SPELLINGS then SpellingsAreAllowed(k); SPELLINGS[k]
    else FirstAllowed(k, 0)
  }

  lemma LongNamesInLowerCase()
    ensures LowerAll("Programmazione") == "programmazione"
    ensures LowerAll("Devops & Sysadmin") == "devops & sysadmin"
    ensures LowerAll("Customer Support") == "customer support"
  {
  }

  lemma ShortNamesInLowerCase()
    ensures LowerAll("Marketing") == "marketing" && LowerAll("Design") == "design" && LowerAll("Business") == "business"
    ensures LowerAll("Copywriting") == "copywriting" && LowerAll("Jobs") == "jobs"
              && LowerAll("Altri ruoli") == "altri ruoli"
  {
  }

  lemma AllowedInLowerCase(i: nat)
    requires i < |ALLOWED|
    ensures LowerAll(ALLOWED[i]) in SPELLINGS && SPELLINGS[LowerAll(ALLOWED[i])] == ALLOWED[i]
  {
    LongNamesInLowerCase();
    ShortNamesInLowerCase();
  }

  lemma AllowedSpellsItself(i: nat)
    requires i < |ALLOWED|
    ensures LowerAll(TrimSpace(ALLOWED[i])) in SPELLINGS && SPELLINGS[LowerAll(TrimSpace(ALLOWED[i]))] == ALLOWED[i]
  {
    assert StartsBare(ALLOWED[i]) && EndsBare(ALLOWED[i]);
    TrimLeftStartsBare(ALLOWED[i]);
    TrimRightStops(ALLOWED[i]);
    AllowedInLowerCase(i);
  }

  /** A spelling in lower case is enough. */
  lemma SpellingCounts(v: string)
    requires StartsBare(v) && EndsBare(v) && LowerAll(v) in SPELLINGS
    ensures NormalizeJobCategory(v) == SPELLINGS[LowerAll(v)]
  {
    BareStays(v);
    assert LowerAll(v) != "" by { assert |LowerAll(v)| == |v|; }
  }

  /** Spellings by example. */
  lemma SpellingsByExample()
    ensures NormalizeJobCategory("devops/sysadmin") == "Devops & Sysadmin"
    ensures NormalizeJobCategory("other roles") == "Altri ruoli"
  {
    assert LowerAll("devops/sysadmin") == "devops/sysadmin" && LowerAll("other roles") == "other roles";
    SpellingCounts("devops/sysadmin");
    SpellingCounts("other roles");
  }

  lemma {:induction false} NothingElseIsAllowed(k: string, i: nat)
    requires i <= |ALLOWED| && k !in SPELLINGS
    ensures FirstAllowed(k, i) == OTHER
    decreases |ALLOWED| - i
  {
    if i < |ALLOWED| {
      AllowedSpellsItself(i);
      NothingElseIsAllowed(k, i + 1);
    }
  }

  lemma UnknownCategoryIsOther(v: string)
    requires LowerAll(TrimSpace(v)) !in SPELLINGS
    ensures NormalizeJobCategory(v) == "Altri ruoli"
  {
    if LowerAll(TrimSpace(v)) != "" { NothingElseIsAllowed(LowerAll(TrimSpace(v)), 0); }
  }

  lemma AllowedIsItself(i: nat)
    requires i < |ALLOWED|
    ensures NormalizeJobCategory(ALLOWED[i]) == ALLOWED[i]
  {
    AllowedSpellsItself(i);
    assert "" !in SPELLINGS;
  }

  lemma CategoryTwice(v: string)
    ensures NormalizeJobCategory(NormalizeJobCategory(v)) == NormalizeJobCategory(v)
  {
    var i :| 0 <= i < |ALLOWED| && ALLOWED[i] == NormalizeJobCategory(v);
    AllowedIsItself(i);
  }

  // ---------- The job ----------

  /** The feed item an answer is about. */
  datatype Source = Source(url: string, links: seq<string>, imageUrls: seq<string>)

  datatype Job = Job(role: string, company: string, summary: string, category: string, seniority: string,
                     location: string, contractType: string, salary: string, techStack: seq<string>,
                     tags: seq<string>, links: seq<string>, images: seq<string>, language: string)

  function TrimList(values: seq<string>, max: nat): seq<string> {
    if max == 0 || |values| <= max then values else values[..max]
  }

  /** The part of parseAnalyzedJob that cleans the fields of a complete answer. */
  function Normalised(src: Source, j: Job): Job {
    j.(category := NormalizeJobCategory(j.category),
       seniority := SanitizeUnknown(j.seniority),
       location := SanitizeUnknown(j.location),
       contractType := SanitizeUnknown(j.contractType),
       salary := SanitizeUnknown(j.salary),
       techStack := Distil(TECH, LOWER, TrimList(j.techStack, 8), {}),
       tags := Distil(TAG, SAME, TrimList(j.tags, 6), {}),
       links := Distil(URL, SAME, [src.url] + src.links, {}),
       images := Distil(URL, SAME, src.imageUrls, {}),
       language := if j.language == "" then "it" else j.language)
  }

  /** An answer without role, company or summary is refused for good; any other is cleaned. */
  method NormaliseJob(src: Source, j: Job) returns (r: Option<Job>)
    ensures r.None? <==> j.role == "" || j.company == "" || j.summary == ""
    ensures r.Some? ==> r.value == Normalised(src, j)
  {
    if j.role == "" || j.company == "" || j.summary == "" { return None; }
    var links := UniqueURLs([[src.url], src.links]);
    assert Flatten([[src.url], src.links]) == [src.url] + src.links by {
      assert [[src.url], src.links][1..] == [src.links] && [src.links][1..] == [];
      assert Flatten([src.links]) == src.links + [] == src.links;
    }
    var images := UniqueURLs([src.imageUrls]);
    assert Flatten([src.imageUrls]) == src.imageUrls + [] == src.imageUrls;
    var tech := SanitizeTechStack(TrimList(j.techStack, 8));
    var tags := SanitizeTags(TrimList(j.tags, 6));
    r := Some(j.(category := NormalizeJobCategory(j.category),
                 seniority := SanitizeUnknown(j.seniority),
                 location := SanitizeUnknown(j.location),
                 contractType := SanitizeUnknown(j.contractType),
                 salary := SanitizeUnknown(j.salary),
                 techStack := tech, tags := tags, links := links, images := images,
                 language := if j.language == "" then "it" else j.language));
  }

  lemma CleanersAreStable()
    ensures forall v :: TECH(TECH(v)) == TECH(v)
    ensures forall v :: TAG(TAG(v)) == TAG(v)
    ensures forall v :: URL(URL(v)) == URL(v)
  {
    forall v: string ensures TECH(TECH(v)) == TECH(v) { SanitizeUnknownTwice(v); }
    forall v: string ensures TAG(TAG(v)) == TAG(v) { CleanTagTwice(v); }
    forall v: string ensures URL(URL(v)) == URL(v) { TrimSpaceTwice(v); }
  }

  lemma DistilTwice(clean: string -> string, key: string -> string, values: seq<string>)
    requires forall v :: clean(clean(v)) == clean(v)
    ensures Distil(clean, key, Distil(clean, key, values, {}), {}) == Distil(clean, key, values, {})
    ensures |Distil(clean, key, values, {})| <= |values|
  {
    DistilIsDistilled(clean, key, values, {});
    DistilledIsFixed(clean, key, Distil(clean, key, values, {}), {});
  }

  /** An answer that is clean already stays as it is, field by field. */
  predicate Tidy(j: Job) {
    && (Informative(j.seniority) || j.seniority == "") && (Informative(j.location) || j.location == "")
    && (Informative(j.contractType) || j.contractType == "") && (Informative(j.salary) || j.salary == "")
    && j.category in ALLOWED && j.language != ""
  }

  ghost predicate TidyLists(j: Job) {
    && |j.techStack| <= 8 && Distilled(TECH, LOWER, j.techStack, {})
    && |j.tags| <= 6 && Distilled(TAG, SAME, j.tags, {})
  }

  lemma TidyStays(src: Source, j: Job)
    requires Tidy(j) && TidyLists(j)
    ensures var n := Normalised(src, j); n == j.(links := n.links, images := n.images)
  {
    InformationStays(j.seniority);
    InformationStays(j.location);
    InformationStays(j.contractType);
    InformationStays(j.salary);
    var i :| 0 <= i < |ALLOWED| && ALLOWED[i] == j.category;
    AllowedIsItself(i);
    DistilledIsFixed(TECH, LOWER, j.techStack, {});
    DistilledIsFixed(TAG, SAME, j.tags, {});
  }

  /** The links are the item's own URL and its other links, the images its images, in order, without repetitions. */
  lemma LinksAreTheSources(src: Source, j: Job)
    ensures var n := Normalised(src, j);
            && IsSubsequence(n.links, CleanAll(URL, [src.url] + src.links))
            && IsSubsequence(n.images, CleanAll(URL, src.imageUrls))
            && (forall v | v in [src.url] + src.links && TrimSpace(v) != "" :: TrimSpace(v) in n.links)
            && (forall v | v in src.imageUrls && TrimSpace(v) != "" :: TrimSpace(v) in n.images)
            && (TrimSpace(src.url) != "" ==> n.links != [] && n.links[0] == TrimSpace(src.url))
            && (j.language == "" ==> n.language == "it")
  {
    DistilSelects(URL, SAME, [src.url] + src.links, {});
    DistilSelects(URL, SAME, src.imageUrls, {});
    var n := Normalised(src, j);
    forall v | v in [src.url] + src.links && TrimSpace(v) != "" ensures TrimSpace(v) in n.links {
      assert URL(v) == TrimSpace(v) && SAME(URL(v)) == TrimSpace(v);
    }
    forall v | v in src.imageUrls && TrimSpace(v) != "" ensures TrimSpace(v) in n.images {
      assert URL(v) == TrimSpace(v) && SAME(URL(v)) == TrimSpace(v);
    }
  }

  /** Normalising is done once and for all; and cleaning the cleaned links and images changes nothing. */
  lemma NormalisedIsFixed(src: Source, j: Job)
    ensures var n := Normalised(src, j);
            && Normalised(src, n) == n
            && Distil(URL, SAME, n.links, {}) == n.links && Distil(URL, SAME, n.images, {}) == n.images
  {
    CleanersAreStable();
    CategoryTwice(j.category);
    SanitizeUnknownTwice(j.seniority);
    SanitizeUnknownTwice(j.location);
    SanitizeUnknownTwice(j.contractType);
    SanitizeUnknownTwice(j.salary);
    DistilTwice(TECH, LOWER, TrimList(j.techStack, 8));
    DistilTwice(TAG, SAME, TrimList(j.tags, 6));
    DistilTwice(URL, SAME, [src.url] + src.links);
    DistilTwice(URL, SAME, src.imageUrls);
  }

  /** At most 8 technologies and 6 tags, the tags short, neither with repetitions, both in the order given. */
  lemma NormalisedListsAreSmall(src: Source, j: Job)
    ensures var n := Normalised(src, j);
            && |n.techStack| <= 8 && |n.tags| <= 6
            && (forall i | 0 <= i < |n.tags| :: 1 <= |n.tags[i]| <= 24 && IsTag(n.tags[i]))
            && (forall i, k | 0 <= i < k < |n.tags| :: n.tags[i] != n.tags[k])
            && (forall i, k | 0 <= i < k < |n.techStack| :: LowerAll(n.techStack[i]) != LowerAll(n.techStack[k]))
            && IsSubsequence(n.techStack, CleanAll(TECH, TrimList(j.techStack, 8)))
            && IsSubsequence(n.tags, CleanAll(TAG, TrimList(j.tags, 6)))
  {
    CleanersAreStable();
    DistilIsDistilled(TECH, LOWER, TrimList(j.techStack, 8), {});
    DistilIsDistilled(TAG, SAME, TrimList(j.tags, 6), {});
    DistilSelects(TECH, LOWER, TrimList(j.techStack, 8), {});
    DistilSelects(TAG, SAME, TrimList(j.tags, 6), {});
    var tags := Normalised(src, j).tags;
    forall i | 0 <= i < |tags| ensures 1 <= |tags[i]| <= 24 && IsTag(tags[i]) {
      CleanTagTwice(tags[i]);
      assert TAG(tags[i]) == tags[i];
    }
    assert forall i | 0 <= i < |tags| :: SAME(tags[i]) == tags[i];
    var tech := Normalised(src, j).techStack;
    assert forall i | 0 <= i < |tech| :: LOWER(tech[i]) == LowerAll(tech[i]);
  }

  // ---------- The quality score ----------

  predicate Contains(s: string, sub: string) {
    sub <= s || (s != "" && Contains(s[1..], sub))
  }

  /** `sub` stands somewhere in `s`. */
  lemma {:induction false} ContainsMeans(s: string, sub: string)
    ensures Contains(s, sub) <==> exists i :: 0 <= i <= |s| && sub <= s[i..]
  {
    if s != "" {
      ContainsMeans(s[1..], sub);
      if sub <= s { assert s[0..] == s; }
      if i :| 0 <= i <= |s[1..]| && sub <= s[1..][i..] { assert s[i + 1..] == s[1..][i..]; }
      if i :| 0 <= i <= |s| && sub <= s[i..] {
        if i == 0 { assert s[0..] == s; } else { assert s[i..] == s[1..][i - 1..]; }
      }
    } else {
      assert s[0..] == s;
    }
  }

  const AMBIGUOUS := {
    "competitive", "commisurata", "negoziabile", "market rate", "depends", "depending",
    "to be defined", "da definire", "tbd"
  }

  predicate IsAmountChar(c: char) {
    IsDigit(c) || c == '\U{20AC}' || c == '$' || c == '\U{00A3}'
  }

  predicate HasClearSalary(v: string) {
    var s := SanitizeUnknown(v);
    && s != ""
    && (forall token | token in AMBIGUOUS :: !Contains(LowerAll(s), token))
    && (exists i | 0 <= i < |s| :: IsAmountChar(s[i]))
  }

  lemma ShortNamesNothing(s: string, sub: string)
    requires |s| < |sub|
    ensures !Contains(s, sub)
  {
    ContainsMeans(s, sub);
  }

  /** A text too short for any of the ambiguous words is clear if it has an amount. */
  lemma ShortAmountIsClear(s: string)
    requires |s| <= 2 && StartsBare(s) && EndsBare(s) && LowerAll(s) !in PLACEHOLDERS
    ensures HasClearSalary(s) <==> exists i :: 0 <= i < |s| && IsAmountChar(s[i])
  {
    BareStays(s);
    forall token | token in AMBIGUOUS ensures !Contains(LowerAll(s), token) {
      ShortNamesNothing(LowerAll(s), token);
    }
  }

  /** A digit or a currency sign is an amount, and no other character is. */
  lemma AmountChars(c: char)
    requires !IsSpace(c) && c != '-'
    ensures HasClearSalary([c]) <==> '0' <= c <= '9' || c == '$' || c == '\U{20AC}' || c == '\U{00A3}'
  {
    var s := [c];
    assert LowerAll(s) == [Lower(c)] && Lower(c) != '-';
    assert LowerAll(s) !in PLACEHOLDERS;
    ShortAmountIsClear(s);
    assert IsAmountChar(c) <==> IsAmountChar(s[0]);
  }

  /** An ambiguous word spoils the salary, whatever else it says; so does a placeholder. */
  lemma AmbiguousSalaries(v: string, token: string, i: nat)
    requires token in {"competitive", "commisurata", "negoziabile", "market rate", "depends", "depending",
                       "to be defined", "da definire", "tbd"}
    requires StartsBare(v) && EndsBare(v) && i <= |v| && token <= LowerAll(v)[i..]
    ensures !HasClearSalary(v)
  {
    BareStays(v);
    ContainsMeans(LowerAll(v), token);
  }

  datatype Field = Seniority | Location | ContractType | Salary | TechStack
  datatype Rank = RankA | RankB | RankC | RankD

  const FIELDS := [Seniority, Location, ContractType, Salary, TechStack]

  /** The check of one field, on the job as given. */
  predicate Clear(j: Job, f: Field) {
    match f
    case Seniority => SanitizeUnknown(j.seniority) != ""
    case Location => SanitizeUnknown(j.location) != ""
    case ContractType => SanitizeUnknown(j.contractType) != ""
    case Salary => HasClearSalary(j.salary)
    case TechStack => Distil(TECH, LOWER, j.techStack, {}) != []
  }

  /** The fields that say nothing, in the fixed order. */
  function MissingOf(j: Job, fields: seq<Field>): seq<Field> {
    if fields == [] then []
    else
      var last := fields[|fields| - 1];
      MissingOf(j, fields[..|fields| - 1]) + if Clear(j, last) then [] else [last]
  }

  method ComputeJobPostQuality(j: Job) returns (score: int, rank: Rank, missing: seq<Field>)
    ensures missing == MissingOf(j, FIELDS)
    ensures score + 20 * |missing| == 100
    ensures rank == match |missing| { case 0 => RankA case 1 => RankB case 2 => RankC case _ => RankD }
  {
    score, missing := 0, [];
    for i := 0 to |FIELDS|
      invariant missing == MissingOf(j, FIELDS[..i]) && score + 20 * |missing| == 20 * i
    {
      assert FIELDS[..i + 1][..i] == FIELDS[..i];
      if Clear(j, FIELDS[i]) {
        score := score + 20;
        continue;
      }
      missing := missing + [FIELDS[i]];
    }
    assert FIELDS[..|FIELDS|] == FIELDS;
    rank := if score >= 90 then RankA else if score >= 70 then RankB else if score >= 50 then RankC else RankD;
  }

  /**
   On a normalised job the missing fields are just those the normalisation left empty, or a salary without a clear
   amount.
  */
  lemma MissingAgreesWithFields(src: Source, j: Job, f: Field)
    ensures var n := Normalised(src, j);
            Clear(n, f) <==> match f
                             case Seniority => n.seniority != ""
                             case Location => n.location != ""
                             case ContractType => n.contractType != ""
                             case Salary => HasClearSalary(j.salary)
                             case TechStack => n.techStack != []
  {
    CleanersAreStable();
    SanitizeUnknownTwice(j.seniority);
    SanitizeUnknownTwice(j.location);
    SanitizeUnknownTwice(j.contractType);
    SanitizeUnknownTwice(j.salary);
    DistilTwice(TECH, LOWER, TrimList(j.techStack, 8));
  }

  lemma {:induction false} MissingIs(j: Job, fields: seq<Field>, f: Field)
    ensures f in MissingOf(j, fields) <==> f in fields && !Clear(j, f)
  {
    if fields != [] {
      var front, last := fields[..|fields| - 1], fields[|fields| - 1];
      MissingIs(j, front, f);
      assert fields == front + [last];
    }
  }
}
