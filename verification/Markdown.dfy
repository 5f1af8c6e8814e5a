/** The escaping of message text for Telegram's Markdown: five characters get a backslash, and nothing is lost. */
module Markdown {
  import opened Options

  predicate Special(c: char) {
    c == '\\' || c == '_' || c == '*' || c == '[' || c == '`'
  }

  function EscapeChar(c: char): string {
    if Special(c) then ['\\', c] else [c]
  }

  /** escapeMarkdownText: the replacer goes through the text once, character by character. */
  function Escape(s: string): string {
    if s == "" then "" else EscapeChar(s[0]) + Escape(s[1..])
  }

  /** The five special characters, and an ordinary text. */
  lemma EscapeByExample()
    ensures Escape("\\") == "\\\\" && Escape("_") == "\\_" && Escape("*") == "\\*"
    ensures Escape("[") == "\\[" && Escape("`") == "\\`"
    ensures Escape("a.(b)") == "a.(b)"
  {
    assert "a.(b)"[1..] == ".(b)" && ".(b)"[1..] == "(b)" && "(b)"[1..] == "b)" && "b)"[1..] == ")" && ")"[1..] == "";
    assert Escape(")") == ")" && Escape("b)") == "b)" && Escape("(b)") == "(b)" && Escape(".(b)") == ".(b)";
  }

  /** Any character that is not one of the five stays as it is. */
  lemma OthersStay(c: char)
    requires c != '\\' && c != '_' && c != '*' && c != '[' && c != '`'
    ensures Escape([c]) == [c]
  {
    assert [c][1..] == "";
  }

  /**
   What a reader of the escaped text sees; None where a backslash ends the text or a special character stands bare.
  */
  function Unescape(s: string): Option<string> {
    if s == "" then Some("")
    else if s[0] == '\\' then
      if |s| == 1 || !Special(s[1]) then None
      else
        var rest := Unescape(s[2..]);
        if rest.None? then None else Some([s[1]] + rest.value)
    else if Special(s[0]) then None
    else
      var rest := Unescape(s[1..]);
      if rest.None? then None else Some([s[0]] + rest.value)
  }

  /** Nothing is lost: the escaped text reads as the original. */
  lemma {:induction false} UnescapeInvertsEscape(s: string)
    ensures Unescape(Escape(s)) == Some(s)
  {
    if s != "" {
      UnescapeInvertsEscape(s[1..]);
      var e := EscapeChar(s[0]) + Escape(s[1..]);
      assert e[|EscapeChar(s[0])|..] == Escape(s[1..]);
      assert s == [s[0]] + s[1..];
    }
  }

  /** And only escaped texts are readable: reading and escaping again gives the text back. */
  lemma {:induction false} EscapeInvertsUnescape(t: string)
    requires Unescape(t).Some?
    ensures Escape(Unescape(t).value) == t
    decreases |t|
  {
    if t != "" {
      var n := if t[0] == '\\' then 2 else 1;
      EscapeInvertsUnescape(t[n..]);
      var c, rest := t[n - 1], Unescape(t[n..]).value;
      assert ([c] + rest)[1..] == rest;
      assert t == t[..n] + t[n..];
    }
  }

  /** Escaping a message piece by piece is escaping it whole. */
  lemma {:induction false} EscapeDistributes(s: string, t: string)
    ensures Escape(s + t) == Escape(s) + Escape(t)
  {
    if s == "" {
      assert s + t == t;
    } else {
      assert (s + t)[1..] == s[1..] + t;
      EscapeDistributes(s[1..], t);
    }
  }

  /** The backslashes directly before position `i`. */
  function BackslashesBefore(s: string, i: nat): nat
    requires i <= |s|
  {
    if i > 0 && s[i - 1] == '\\' then 1 + BackslashesBefore(s, i - 1) else 0
  }

  lemma {:induction false} BackslashesInTail(p: string, s: string, i: nat)
    requires i <= |s| && (p != "" ==> p[|p| - 1] != '\\')
    ensures BackslashesBefore(p + s, |p| + i) == BackslashesBefore(s, i)
  {
    if i > 0 {
      assert (p + s)[|p| + i - 1] == s[i - 1];
      BackslashesInTail(p, s, i - 1);
    } else if p != "" {
      assert (p + s)[|p| - 1] == p[|p| - 1];
    }
  }

  lemma {:induction false} PairAddsTwo(s: string, i: nat)
    requires i <= |s|
    ensures BackslashesBefore("\\\\" + s, 2 + i) ==
            if BackslashesBefore(s, i) == i then i + 2 else BackslashesBefore(s, i)
    ensures BackslashesBefore(s, i) <= i
  {
    if i > 0 {
      assert ("\\\\" + s)[2 + i - 1] == s[i - 1];
      PairAddsTwo(s, i - 1);
    } else {
      assert ("\\\\" + s)[1] == '\\' && ("\\\\" + s)[0] == '\\';
      assert BackslashesBefore("\\\\" + s, 1) == 1;
    }
  }

  /** What stands before position `i` pairs off, but for one backslash. */
  predicate Unpaired(s: string, i: nat)
    requires i <= |s|
  {
    BackslashesBefore(s, i) % 2 == 1
  }

  /** The character at `i` is a backslash that escapes the special character after it. */
  predicate Escapes(s: string, i: nat) {
    i + 1 < |s| && s[i] == '\\' && Special(s[i + 1])
  }

  lemma FirstIsEscaped(c: char, tail: string, i: nat)
    requires i < |EscapeChar(c)|
    ensures var e := EscapeChar(c) + tail;
            && (Special(e[i]) && !Unpaired(e, i) ==> Escapes(e, i))
            && (Unpaired(e, i) ==> Special(e[i]))
  {
    var e := EscapeChar(c) + tail;
    assert BackslashesBefore(e, 0) == 0;
    if i == 1 { assert e[0] == '\\'; }
  }

  /**
   The special characters of the output, backslashes included, are of two kinds: those after an unpaired backslash are
   the text's own, and the others are backslashes that escape the one after them. An unpaired backslash is followed by
   nothing else.
   */
  lemma {:induction false} SpecialsAreEscaped(s: string, i: nat)
    requires i <= |Escape(s)|
    ensures i < |Escape(s)| && Special(Escape(s)[i]) && !Unpaired(Escape(s), i) ==> Escapes(Escape(s), i)
    ensures Unpaired(Escape(s), i) ==> i < |Escape(s)| && Special(Escape(s)[i])
  {
    if s != "" {
      var c, tail := s[0], Escape(s[1..]);
      var e := EscapeChar(c) + tail;
      if i < |EscapeChar(c)| {
        FirstIsEscaped(c, tail, i);
      } else {
        var j := i - |EscapeChar(c)|;
        assert j < |tail| ==> e[i] == tail[j] && (j + 1 < |tail| ==> e[i + 1] == tail[j + 1]);
        SpecialsAreEscaped(s[1..], j);
        if c == '\\' {
          assert EscapeChar(c) == "\\\\";
          PairAddsTwo(tail, j);
        } else {
          BackslashesInTail(EscapeChar(c), tail, j);
        }
      }
    }
  }

  lemma {:induction false} BackslashesInHead(p: string, s: string, i: nat)
    requires i <= |p|
    ensures BackslashesBefore(p + s, i) == BackslashesBefore(p, i)
  {
    if i > 0 { BackslashesInHead(p, s, i - 1); }
  }

  /** Every special character of the text stands in the output at its own place, after an unpaired backslash. */
  lemma LiteralsAreEscaped(s: string, k: nat)
    requires k < |s| && Special(s[k])
    ensures var p := |Escape(s[..k])|;
            p + 1 < |Escape(s)| && Escape(s)[p + 1] == s[k] && Escapes(Escape(s), p) && Unpaired(Escape(s), p + 1)
  {
    var head, rest := Escape(s[..k]), Escape(s[k..]);
    assert s == s[..k] + s[k..];
    EscapeDistributes(s[..k], s[k..]);
    assert rest[0] == '\\' && rest[1] == s[k];
    assert (head + rest)[|head|] == rest[0] && (head + rest)[|head| + 1] == rest[1];
    SpecialsAreEscaped(s[..k], |head|);
    BackslashesInHead(head, rest, |head|);
  }
}
