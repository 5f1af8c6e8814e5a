/** ASCII text: the parts of Go's strings and unicode packages the services use. */
module Text {
  predicate IsDigit(c: char) { '0' <= c <= '9' }

  predicate IsSpace(c: char) {
    c == ' ' || c == '\t' || c == '\n' || c == '\r' || c == '\U{000B}' || c == '\U{000C}'
  }

  function Lower(c: char): char {
    if 'A' <= c <= 'Z' then c - 'A' + 'a' else c
  }

  function LowerAll(s: string): string {
    seq(|s|, i requires 0 <= i < |s| => Lower(s[i]))
  }

  function TrimLeft(s: string): string {
    if s != "" && IsSpace(s[0]) then TrimLeft(s[1..]) else s
  }

  function TrimRight(s: string): string {
    if s != "" && IsSpace(s[|s| - 1]) then TrimRight(s[..|s| - 1]) else s
  }

  function TrimSpace(s: string): string { TrimRight(TrimLeft(s)) }

  /** The first character is not white space. */
  predicate StartsBare(s: string) { s != "" && !IsSpace(s[0]) }
  predicate EndsBare(s: string) { s != "" && !IsSpace(s[|s| - 1]) }

  lemma {:induction false} TrimRightStops(s: string)
    requires EndsBare(s)
    ensures TrimRight(s) == s
  {
  }

  lemma {:induction false} TrimLeftStartsBare(s: string)
    ensures TrimLeft(s) == "" || StartsBare(TrimLeft(s))
    ensures StartsBare(s) ==> TrimLeft(s) == s
  {
    if s != "" && IsSpace(s[0]) { TrimLeftStartsBare(s[1..]); }
  }

  lemma {:induction false} TrimRightEndsBare(s: string)
    ensures TrimRight(s) == "" || EndsBare(TrimRight(s))
    ensures StartsBare(s) ==> StartsBare(TrimRight(s))
  {
    if s != "" && IsSpace(s[|s| - 1]) { TrimRightEndsBare(s[..|s| - 1]); }
  }

  /** Trimmed text has nothing left to trim. */
  lemma TrimSpaceTwice(s: string)
    ensures TrimSpace(TrimSpace(s)) == TrimSpace(s)
  {
    TrimLeftStartsBare(s);
    TrimRightEndsBare(TrimLeft(s));
    var t := TrimSpace(s);
    if t != "" {
      TrimLeftStartsBare(t);
      TrimRightStops(t);
    }
  }

  /** White space, letters and trimming by example. */
  lemma TextByExample()
    ensures IsSpace(' ') && IsSpace('\t') && IsSpace('\n') && IsSpace('\r')
    ensures IsSpace('\U{000B}') && IsSpace('\U{000C}')
    ensures !IsSpace('a') && !IsSpace('-') && !IsSpace('0')
    ensures LowerAll("AZaz09@[`{") == "azaz09@[`{"
    ensures TrimSpace(" \tx \n") == "x"
  {
    assert " \tx \n"[1..] == "\tx \n" && "\tx \n"[1..] == "x \n";
    assert TrimLeft("x \n") == "x \n";
    assert "x \n"[..2] == "x " && "x "[..1] == "x";
    assert TrimRight("x") == "x";
  }
}
