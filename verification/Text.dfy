/** The string helpers the source takes from its library, on ASCII text. */
module Text {

  predicate IsSpace(c: char) {
    c == ' ' || c == '\t' || c == '\n' || c == '\r' || c == '\U{000B}' || c == '\U{000C}'
  }

  function TrimLeft(s: string): string {
    if s != "" && IsSpace(s[0]) then TrimLeft(s[1..]) else s
  }

  function TrimRight(s: string): string {
    if s != "" && IsSpace(s[|s| - 1]) then TrimRight(s[..|s| - 1]) else s
  }

  /** strings.TrimSpace. */
  function Trim(s: string): string {
    TrimRight(TrimLeft(s))
  }

  function LowerChar(c: char): char {
    if 'A' <= c <= 'Z' then c - 'A' + 'a' else c
  }

  /** strings.ToLower. */
  function Lower(s: string): (r: string)
    ensures |r| == |s|
  {
    seq(|s|, i requires 0 <= i < |s| => LowerChar(s[i]))
  }

  lemma TrimRightStable(s: string)
    ensures TrimRight(s) == "" || (TrimRight(s) != "" && !IsSpace(TrimRight(s)[|TrimRight(s)| - 1]))
    ensures TrimRight(s) <= s
  {
    if s != "" && IsSpace(s[|s| - 1]) {
      TrimRightStable(s[..|s| - 1]);
      assert TrimRight(s) == s[..|s| - 1][..|TrimRight(s)|];
    }
  }

  lemma TrimLeftStart(s: string)
    ensures TrimLeft(s) == "" || (TrimLeft(s) != "" && !IsSpace(TrimLeft(s)[0]))
  {
  }

  /** Trimming trimmed text changes nothing. */
  lemma TrimTwice(s: string)
    ensures Trim(Trim(s)) == Trim(s)
  {
    var l := TrimLeft(s);
    TrimLeftStart(s);
    TrimRightStable(l);
    if Trim(s) != "" { assert Trim(s)[0] == l[0]; }
  }
}
