/**
 The slugs of the test feed site: printed by slugify, read back by parseSlotIndexFromSlug. Strings are ASCII, as every
 company and role of the site is.
 */
module Slug {
  import opened Options
  import opened Text

  const MAX_INT := 0x7fff_ffff_ffff_ffff

  function TrimDashesLeft(s: string): string {
    if s != "" && s[0] == '-' then TrimDashesLeft(s[1..]) else s
  }

  function TrimDashesRight(s: string): string {
    if s != "" && s[|s| - 1] == '-' then TrimDashesRight(s[..|s| - 1]) else s
  }

  function TrimDashes(s: string): string { TrimDashesRight(TrimDashesLeft(s)) }

  // ---------- slugify ----------

  /** The replacer's table: what becomes of one character. */
  function Replaced(c: char): string {
    if c == ' ' || c == '/' || c == '_' then "-"
    else if c == '(' || c == ')' || c == '.' || c == ',' || c == ':' then ""
    else [c]
  }

  function ReplaceChars(s: string): string {
    if s == "" then "" else Replaced(s[0]) + ReplaceChars(s[1..])
  }

  /** The eight characters replaced: three become a dash, five disappear. */
  lemma ReplacedByExample()
    ensures ReplaceChars(" ") == "-" && ReplaceChars("/") == "-" && ReplaceChars("_") == "-"
    ensures ReplaceChars("(") == "" && ReplaceChars(")") == "" && ReplaceChars(".") == ""
    ensures ReplaceChars(",") == "" && ReplaceChars(":") == ""
  {
  }

  /** Any other character stays. */
  lemma OthersAreNotReplaced(c: char)
    requires c != ' ' && c != '/' && c != '_' && c != '(' && c != ')' && c != '.' && c != ',' && c != ':'
    ensures ReplaceChars([c]) == [c]
  {
    assert [c][1..] == "";
  }

  predicate HasDoubleDash(s: string) {
    exists i :: 0 <= i < |s| - 1 && s[i] == '-' && s[i + 1] == '-'
  }

  /** strings.ReplaceAll(s, "--", "-"): from the left, without overlap. */
  function HalveDashes(s: string): string {
    if |s| >= 2 && s[0] == '-' && s[1] == '-' then "-" + HalveDashes(s[2..])
    else if s == "" then ""
    else [s[0]] + HalveDashes(s[1..])
  }

  /** Every run of dashes made one dash. */
  function Collapse(s: string): string {
    if s == "" then "" else Prepend(s[0], Collapse(s[1..]))
  }

  /** `c` put before text that has no double dash, without making one. */
  function Prepend(c: char, s: string): string {
    if c == '-' && s != "" && s[0] == '-' then s else [c] + s
  }

  lemma {:induction false} CollapseHead(s: string)
    ensures s != "" ==> Collapse(s) != "" && Collapse(s)[0] == s[0]
    ensures s == "" ==> Collapse(s) == ""
  {
    if s != "" { CollapseHead(s[1..]); }
  }

  lemma {:induction false} HalvingKeepsCollapse(s: string)
    ensures Collapse(HalveDashes(s)) == Collapse(s)
    ensures |HalveDashes(s)| <= |s|
    ensures HasDoubleDash(s) ==> |HalveDashes(s)| < |s|
    decreases |s|
  {
    if |s| >= 2 && s[0] == '-' && s[1] == '-' {
      HalvingKeepsCollapse(s[2..]);
      var h := HalveDashes(s[2..]);
      assert HalveDashes(s) == "-" + h && ("-" + h)[1..] == h;
      assert s[1..][1..] == s[2..];
      CollapseHead(s[2..]);
    } else if s != "" {
      HalvingKeepsCollapse(s[1..]);
      assert ([s[0]] + HalveDashes(s[1..]))[1..] == HalveDashes(s[1..]);
      if HasDoubleDash(s) {
        var i :| 0 <= i < |s| - 1 && s[i] == '-' && s[i + 1] == '-';
        assert s[1..][i - 1] == '-' && s[1..][i] == '-';
      }
    }
  }

  lemma {:induction false} CollapsedIsFixed(s: string)
    requires !HasDoubleDash(s)
    ensures Collapse(s) == s
  {
    if s != "" {
      var t := s[1..];
      forall i | 0 <= i < |t| - 1 ensures t[i] != '-' || t[i + 1] != '-' {
        assert t[i] == s[i + 1] && t[i + 1] == s[i + 2];
      }
      CollapsedIsFixed(t);
      assert |s| > 1 ==> s[0] != '-' || s[0 + 1] != '-';
    }
  }

  lemma {:induction false} CollapseHasNoDoubleDash(s: string)
    ensures !HasDoubleDash(Collapse(s))
  {
    if s != "" {
      CollapseHasNoDoubleDash(s[1..]);
      var t, u := Collapse(s[1..]), Collapse(s);
      if u != t {
        forall i | 0 <= i < |u| - 1 ensures u[i] != '-' || u[i + 1] != '-' {
          if i > 0 { assert u[i] == t[i - 1] && u[i + 1] == t[i]; }
        }
      }
    }
  }

  /** The characters that are not dashes. */
  function Letters(s: string): string {
    if s == "" then "" else (if s[0] == '-' then "" else [s[0]]) + Letters(s[1..])
  }

  /** Collapsing removes dashes only. */
  lemma {:induction false} CollapseKeepsLetters(s: string)
    ensures Letters(Collapse(s)) == Letters(s)
  {
    if s != "" {
      CollapseKeepsLetters(s[1..]);
      var t := Collapse(s[1..]);
      assert ([s[0]] + t)[1..] == t;
    }
  }

  method ContainsDoubleDash(s: string) returns (yes: bool)
    ensures yes == HasDoubleDash(s)
  {
    return exists i :: 0 <= i < |s| - 1 && s[i] == '-' && s[i + 1] == '-';
  }

  function SlugOf(s: string): string {
    TrimDashes(Collapse(ReplaceChars(LowerAll(TrimSpace(s)))))
  }

  /** The halving loop ends, and leaves one dash of every run. */
  method Slugify(text: string) returns (s: string)
    ensures s == SlugOf(text)
  {
    s := ReplaceChars(LowerAll(TrimSpace(text)));
    ghost var s0 := s;
    var more := ContainsDoubleDash(s);
    while more
      invariant Collapse(s) == Collapse(s0) && more == HasDoubleDash(s)
      decreases |s|
    {
      HalvingKeepsCollapse(s);
      s := HalveDashes(s);
      more := ContainsDoubleDash(s);
    }
    CollapsedIsFixed(s);
    s := TrimDashes(s);
  }

  // ---------- Numbers ----------

  function Digit(d: nat): char
    requires d < 10
  {
    '0' + d as char
  }

  function Itoa(n: nat): string {
    if n < 10 then [Digit(n)] else Itoa(n / 10) + [Digit(n % 10)]
  }

  predicate AllDigits(s: string) {
    forall i | 0 <= i < |s| :: IsDigit(s[i])
  }

  function Value(s: string): nat
    requires AllDigits(s)
  {
    if s == "" then 0 else Value(s[..|s| - 1]) * 10 + (s[|s| - 1] - '0') as int
  }

  lemma {:induction false} ItoaIsRead(n: nat)
    ensures Itoa(n) != "" && AllDigits(Itoa(n)) && Value(Itoa(n)) == n
  {
    if n >= 10 {
      ItoaIsRead(n / 10);
      assert Itoa(n)[..|Itoa(n)| - 1] == Itoa(n / 10);
    }
  }

  /** strconv.Atoi of digits: an error when the value does not fit. */
  function Atoi(s: string): Option<nat>
    requires AllDigits(s)
  {
    if Value(s) <= MAX_INT then Some(Value(s)) else None
  }

  /** Trimming takes dashes from both ends, and all of them. */
  lemma {:induction false} TrimLeftTakesDashes(s: string) returns (k: nat)
    ensures k <= |s| && TrimDashesLeft(s) == s[k..] && forall i | 0 <= i < k :: s[i] == '-'
    ensures TrimDashesLeft(s) == "" || TrimDashesLeft(s)[0] != '-'
  {
    k := 0;
    if s != "" && s[0] == '-' {
      var n := TrimLeftTakesDashes(s[1..]);
      assert forall i | 0 < i <= n :: s[i] == s[1..][i - 1];
      k := n + 1;
    }
  }

  lemma {:induction false} TrimRightTakesDashes(s: string) returns (k: nat)
    ensures k <= |s| && TrimDashesRight(s) == s[..k] && forall i | k <= i < |s| :: s[i] == '-'
    ensures TrimDashesRight(s) == "" || s[k - 1] != '-'
  {
    k := |s|;
    if s != "" && s[|s| - 1] == '-' {
      k := TrimRightTakesDashes(s[..|s| - 1]);
    }
  }

  lemma TrimTakesDashes(s: string) returns (i: nat, j: nat)
    ensures i <= j <= |s| && TrimDashes(s) == s[i..j]
    ensures (forall k | 0 <= k < i :: s[k] == '-') && (forall k | j <= k < |s| :: s[k] == '-')
    ensures i < j ==> s[i] != '-' && s[j - 1] != '-'
  {
    i := TrimLeftTakesDashes(s);
    var t := TrimDashesLeft(s);
    var k := TrimRightTakesDashes(t);
    j := i + k;
    assert forall n | j <= n < |s| :: s[n] == t[n - i];
    assert s[i..j] == t[..k];
  }

  // ---------- parseSlotIndexFromSlug ----------

  /** The length of the longest suffix of digits. */
  function DigitTail(s: string): (n: nat)
    ensures n <= |s| && forall i | |s| - n <= i < |s| :: IsDigit(s[i])
    ensures n < |s| ==> !IsDigit(s[|s| - n - 1])
  {
    if s == "" || !IsDigit(s[|s| - 1]) then 0 else DigitTail(s[..|s| - 1]) + 1
  }

  /** A dash and at least one digit, up to the end of the trimmed slug. */
  function ParseSlotIndex(slug: string): Option<nat> {
    var s := TrimSpace(slug);
    var n := DigitTail(s);
    if n == 0 || n == |s| || s[|s| - n - 1] != '-' then None
    else Atoi(s[|s| - n..])
  }

  // ---------- Round trip ----------

  /** The text before the index keeps something other than dashes. */
  ghost predicate Survives(prefix: string) {
    exists i :: 0 <= i < |prefix| && Replaced(Lower(prefix[i])) != "" && Replaced(Lower(prefix[i])) != "-"
  }

  lemma {:induction false} DigitTailOf(s: string, d: string)
    requires AllDigits(d) && (s != "" ==> !IsDigit(s[|s| - 1]))
    ensures DigitTail(s + d) == |d|
  {
    if d == "" {
      assert s + d == s;
    } else {
      DigitTailOf(s, d[..|d| - 1]);
      assert (s + d)[..|s + d| - 1] == s + d[..|d| - 1];
      assert (s + d)[|s + d| - 1] == d[|d| - 1];
    }
  }

  lemma {:induction false} TrimLeftKeepsTail(p: string, d: string)
    requires d != "" && AllDigits(d)
    ensures TrimLeft(p + d) == TrimLeft(p) + d
  {
    if p == "" {
      assert p + d == d && TrimLeft(p) == "";
      assert IsDigit(d[0]);
    } else if IsSpace(p[0]) {
      assert (p + d)[1..] == p[1..] + d;
      TrimLeftKeepsTail(p[1..], d);
    }
  }

  lemma {:induction false} LowerDigits(p: string, d: string)
    requires AllDigits(d)
    ensures LowerAll(p + d) == LowerAll(p) + d
  {
    assert forall i | 0 <= i < |d| :: IsDigit(d[i]);
  }

  lemma {:induction false} ReplaceConcat(p: string, q: string)
    ensures ReplaceChars(p + q) == ReplaceChars(p) + ReplaceChars(q)
  {
    if p == "" {
      assert p + q == q;
    } else {
      assert (p + q)[1..] == p[1..] + q;
      ReplaceConcat(p[1..], q);
    }
  }

  lemma {:induction false} ReplaceDigits(d: string)
    requires AllDigits(d)
    ensures ReplaceChars(d) == d
  {
    if d != "" {
      assert IsDigit(d[0]);
      assert forall i | 0 <= i < |d[1..]| :: d[1..][i] == d[i + 1];
      ReplaceDigits(d[1..]);
    }
  }

  lemma {:induction false} CollapseDigits(p: string, d: string)
    requires AllDigits(d) && d != ""
    ensures Collapse(p + d) == Collapse(p) + d
  {
    if p == "" {
      assert p + d == d;
      forall i | 0 <= i < |d| - 1 ensures d[i] != '-' || d[i + 1] != '-' {
        assert IsDigit(d[i]);
      }
      CollapsedIsFixed(d);
    } else {
      assert (p + d)[1..] == p[1..] + d;
      CollapseDigits(p[1..], d);
      CollapseHead(p[1..]);
      assert IsDigit(d[0]);
    }
  }

  /** What is left of a text that ends in a dash, once collapsed and freed of leading dashes. */
  lemma {:induction false} CollapsedEndsInDash(p: string)
    requires p != "" && p[|p| - 1] == '-'
    ensures Collapse(p) != "" && Collapse(p)[|Collapse(p)| - 1] == '-'
  {
    CollapseHead(p);
    if |p| > 1 {
      CollapsedEndsInDash(p[1..]);
    }
  }

  ghost predicate OnlyDashes(s: string) {
    forall i | 0 <= i < |s| :: s[i] == '-'
  }

  lemma OnlyDashesCons(c: char, s: string)
    ensures OnlyDashes([c] + s) <==> c == '-' && OnlyDashes(s)
  {
    assert ([c] + s)[0] == c;
    assert forall i | 0 <= i < |s| :: ([c] + s)[i + 1] == s[i];
  }

  lemma {:induction false} CollapseKeepsText(p: string)
    ensures OnlyDashes(Collapse(p)) <==> OnlyDashes(p)
  {
    if p != "" {
      CollapseKeepsText(p[1..]);
      assert p == [p[0]] + p[1..];
      OnlyDashesCons(p[0], p[1..]);
      OnlyDashesCons(p[0], Collapse(p[1..]));
    }
  }

  /** Leading dashes go; the rest stays whole when it starts with something else. */
  lemma {:induction false} TrimDashesLeftTail(p: string, d: string)
    requires d != "" && AllDigits(d)
    ensures TrimDashesLeft(p + d) == TrimDashesLeft(p) + d
    ensures TrimDashesLeft(p) == "" <==> OnlyDashes(p)
    ensures p != "" && !OnlyDashes(p) ==>
              TrimDashesLeft(p) != "" && TrimDashesLeft(p)[|TrimDashesLeft(p)| - 1] == p[|p| - 1]
  {
    if p == "" {
      assert p + d == d;
      assert IsDigit(d[0]);
    } else if p[0] == '-' {
      assert (p + d)[1..] == p[1..] + d;
      TrimDashesLeftTail(p[1..], d);
      assert p == ['-'] + p[1..];
      OnlyDashesCons('-', p[1..]);
    }
  }

  /** Trimming, lower case and replacing leave a final number alone. */
  lemma TextOfNumbered(prefix: string, d: string)
    requires d != "" && AllDigits(d)
    ensures ReplaceChars(LowerAll(TrimSpace(prefix + d))) == ReplaceChars(LowerAll(TrimLeft(prefix))) + d
  {
    var p := TrimLeft(prefix);
    TrimLeftKeepsTail(prefix, d);
    assert EndsBare(p + d) by { assert IsDigit(d[|d| - 1]); }
    TrimRightStops(p + d);
    LowerDigits(p, d);
    ReplaceConcat(LowerAll(p), d);
    ReplaceDigits(d);
  }

  lemma {:induction false} NumberStopsTheTrim(s: string, d: string)
    requires d != "" && AllDigits(d)
    ensures TrimDashesRight(s + d) == s + d
  {
    assert (s + d)[|s + d| - 1] == d[|d| - 1] && IsDigit(d[|d| - 1]);
  }

  /** So do collapsing and trimming the dashes. */
  lemma DashesOfNumbered(r: string, d: string)
    requires d != "" && AllDigits(d)
    ensures TrimDashes(Collapse(r + d)) == TrimDashesLeft(Collapse(r)) + d
  {
    CollapseDigits(r, d);
    TrimDashesLeftTail(Collapse(r), d);
    NumberStopsTheTrim(TrimDashesLeft(Collapse(r)), d);
  }

  /** The slug of `prefix` followed by a number, in closed form. */
  lemma SlugOfNumbered(prefix: string, d: string)
    requires d != "" && AllDigits(d)
    ensures var q := Collapse(ReplaceChars(LowerAll(TrimLeft(prefix))));
            SlugOf(prefix + d) == TrimDashesLeft(q) + d
  {
    TextOfNumbered(prefix, d);
    DashesOfNumbered(ReplaceChars(LowerAll(TrimLeft(prefix))), d);
  }

  lemma {:induction false} SurvivesReplacing(p: string)
    ensures Survives(p) <==> !OnlyDashes(ReplaceChars(LowerAll(p)))
  {
    if p != "" {
      var r, rest := Replaced(Lower(p[0])), ReplaceChars(LowerAll(p[1..]));
      assert LowerAll(p)[1..] == LowerAll(p[1..]);
      SurvivesReplacing(p[1..]);
      assert ReplaceChars(LowerAll(p)) == r + rest;
      assert OnlyDashes(r + rest) <==> OnlyDashes(r) && OnlyDashes(rest) by {
        assert forall i | 0 <= i < |r| :: (r + rest)[i] == r[i];
        assert forall i | 0 <= i < |rest| :: (r + rest)[|r| + i] == rest[i];
      }
      if Survives(p) {
        var i :| 0 <= i < |p| && Replaced(Lower(p[i])) != "" && Replaced(Lower(p[i])) != "-";
        if i > 0 { assert p[1..][i - 1] == p[i]; } else { assert r[0] != '-'; }
      }
      if Survives(p[1..]) {
        var i :| 0 <= i < |p[1..]| && Replaced(Lower(p[1..][i])) != "" && Replaced(Lower(p[1..][i])) != "-";
        assert p[i + 1] == p[1..][i];
      }
    } else {
      assert LowerAll(p) == "";
    }
  }

  /** The text of a job: company, role and index, separated by blanks. */
  function JobText(company: string, role: string, n: nat): string {
    company + " " + role + " " + Itoa(n)
  }

  function Label(company: string, role: string): string {
    company + " " + role + " "
  }

  lemma {:induction false} TrimLeftEndsInBlank(p: string)
    requires p != "" && p[|p| - 1] == ' '
    ensures TrimLeft(p) == "" || TrimLeft(p)[|TrimLeft(p)| - 1] == ' '
  {
    if IsSpace(p[0]) && |p| > 1 { TrimLeftEndsInBlank(p[1..]); }
  }

  /**
   The index printed into a slug is read back exactly when the label keeps a character that is not a dash. Otherwise
   the slug is the bare number, which the parser refuses.
   */
  lemma SlugRoundTrip(company: string, role: string, n: nat)
    requires n <= MAX_INT
    ensures ParseSlotIndex(SlugOf(JobText(company, role, n))) == Some(n) <==> Survives(TrimLeft(Label(company, role)))
    ensures !Survives(TrimLeft(Label(company, role))) ==> SlugOf(JobText(company, role, n)) == Itoa(n)
  {
    var head, d := Label(company, role), Itoa(n);
    ItoaIsRead(n);
    assert JobText(company, role, n) == head + d;
    SlugOfNumbered(head, d);
    var p := TrimLeft(head);
    var r := ReplaceChars(LowerAll(p));
    var q := Collapse(r);
    TrimDashesLeftTail(q, d);
    SurvivesReplacing(p);
    CollapseKeepsText(r);
    if Survives(p) {
      TrimLeftEndsInBlank(head);
      ReplacedEndsInDash(p);
      CollapsedEndsInDash(r);
      NumberedIsRead(TrimDashesLeft(q), d, n);
    } else {
      assert TrimDashesLeft(q) + d == d;
      BareNumberIsRefused(d);
    }
  }

  /** A number beyond 64 bits is refused. */
  lemma TooBigIsRefused(company: string, role: string, n: nat)
    requires n > MAX_INT
    ensures ParseSlotIndex(SlugOf(JobText(company, role, n))) == None
  {
    var head, d := Label(company, role), Itoa(n);
    ItoaIsRead(n);
    assert JobText(company, role, n) == head + d;
    SlugOfNumbered(head, d);
    var t := TrimDashesLeft(Collapse(ReplaceChars(LowerAll(TrimLeft(head)))));
    EndingIsTheNumber(t, d);
  }

  lemma {:induction false} LongTailIsBigger(s: string, d: string)
    requires AllDigits(s) && AllDigits(d)
    ensures AllDigits(s + d) && Value(s + d) >= Value(d)
  {
    assert forall i | 0 <= i < |s + d| :: (s + d)[i] == if i < |s| then s[i] else d[i - |s|];
    if d != "" {
      var front := d[..|d| - 1];
      LongTailIsBigger(s, front);
      assert (s + d)[..|s + d| - 1] == s + front && (s + d)[|s + d| - 1] == d[|d| - 1];
    }
  }

  lemma SuffixSplits(p: string, d: string, k: nat)
    requires k <= |p|
    ensures (p + d)[|p + d| - (k + |d|)..] == p[|p| - k..] + d
  {
  }

  lemma DigitsInFront(s: string, d: string)
    requires AllDigits(s + d)
    ensures AllDigits(s)
  {
    assert forall i | 0 <= i < |s| :: (s + d)[i] == s[i];
  }

  /** Whatever the parser takes for the number ends in `d`. */
  lemma TailIsBig(p: string, d: string)
    requires AllDigits(d)
    ensures var s := p + d; var n := DigitTail(s); AllDigits(s[|s| - n..]) && Value(s[|s| - n..]) >= Value(d)
  {
    var s := p + d;
    var n := DigitTail(s);
    TailCovers(p, d);
    var k := n - |d|;
    SuffixSplits(p, d, k);
    var more := p[|p| - k..];
    DigitsInFront(more, d);
    LongTailIsBigger(more, d);
  }

  lemma EndingIsTheNumber(t: string, d: string)
    requires d != "" && AllDigits(d) && Value(d) > MAX_INT
    ensures ParseSlotIndex(t + d) == None
  {
    TrimLeftKeepsTail(t, d);
    assert EndsBare(TrimLeft(t) + d) by { assert IsDigit(d[|d| - 1]); }
    TrimRightStops(TrimLeft(t) + d);
    TailIsBig(TrimLeft(t), d);
  }

  lemma {:induction false} TailCovers(p: string, d: string)
    requires AllDigits(d)
    ensures DigitTail(p + d) >= |d|
  {
    if d != "" {
      TailCovers(p, d[..|d| - 1]);
      assert (p + d)[..|p + d| - 1] == p + d[..|d| - 1] && (p + d)[|p + d| - 1] == d[|d| - 1];
    }
  }

  lemma ReplacedEndsInDash(p: string)
    requires p != "" && p[|p| - 1] == ' '
    ensures var r := ReplaceChars(LowerAll(p)); r != "" && r[|r| - 1] == '-'
  {
    var l := LowerAll(p);
    assert l == l[..|l| - 1] + " ";
    ReplaceConcat(l[..|l| - 1], " ");
    assert ReplaceChars(" ") == "-";
  }

  lemma NumberedIsRead(t: string, d: string, n: nat)
    requires t != "" && t[|t| - 1] == '-' && d != "" && AllDigits(d) && Value(d) == n <= MAX_INT
    ensures ParseSlotIndex(t + d) == Some(n)
  {
    TrimLeftKeepsTail(t, d);
    var s := TrimLeft(t) + d;
    assert IsDigit(d[|d| - 1]);
    TrimRightStops(s);
    TrimLeftEndsInDash(t);
    DigitTailOf(TrimLeft(t), d);
    assert s[|s| - |d|..] == d;
  }

  lemma {:induction false} TrimLeftEndsInDash(t: string)
    requires t != "" && t[|t| - 1] == '-'
    ensures TrimLeft(t) != "" && TrimLeft(t)[|TrimLeft(t)| - 1] == '-'
  {
    if IsSpace(t[0]) { TrimLeftEndsInDash(t[1..]); }
  }

  lemma BareNumberIsRefused(d: string)
    requires d != "" && AllDigits(d)
    ensures ParseSlotIndex(d) == None
  {
    assert IsDigit(d[0]) && IsDigit(d[|d| - 1]);
    TrimRightStops(d);
    assert TrimLeft(d) == d;
    DigitTailOf("", d);
    assert "" + d == d;
  }
}
