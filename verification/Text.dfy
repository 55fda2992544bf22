/** The string helpers the services share: trimming, case folding and blank tests.
    Case folding and white space are those of ASCII. */
module Text {

  datatype Option<+T> = None | Some(value: T)

  predicate IsSpace(c: char) {
    c == ' ' || '\t' <= c <= '\r'
  }

  function LowerChar(c: char): char {
    if 'A' <= c <= 'Z' then ((c as int) + 32) as char else c
  }

  function UpperChar(c: char): char {
    if 'a' <= c <= 'z' then ((c as int) - 32) as char else c
  }

  function MapChars(f: char -> char, s: string): (r: string)
    ensures |r| == |s| && forall i :: 0 <= i < |s| ==> r[i] == f(s[i])
  {
    seq(|s|, i requires 0 <= i < |s| => f(s[i]))
  }

  function Lower(s: string): string { MapChars(LowerChar, s) }

  function Upper(s: string): string { MapChars(UpperChar, s) }

  function TrimLeft(s: string): string {
    if s != "" && IsSpace(s[0]) then TrimLeft(s[1..]) else s
  }

  function TrimRight(s: string): string {
    if s != "" && IsSpace(s[|s| - 1]) then TrimRight(s[..|s| - 1]) else s
  }

  function Trim(s: string): string { TrimRight(TrimLeft(s)) }

  predicate Blank(s: string) { Trim(s) == "" }

  /** A blank text is stored as NULL, and NULL is read back as the empty text. */
  function NullIfEmpty(s: string): string { if Blank(s) then "" else s }

  predicate EqualFold(s: string, t: string) { Lower(s) == Lower(t) }

  lemma {:induction false} TrimRightKeepsHead(s: string)
    requires s != "" && !IsSpace(s[0])
    ensures TrimRight(s) != "" && TrimRight(s)[0] == s[0]
    decreases |s|
  {
    if IsSpace(s[|s| - 1]) { TrimRightKeepsHead(s[..|s| - 1]); }
  }

  lemma {:induction false} TrimLeftDone(s: string)
    ensures TrimLeft(s) != "" ==> !IsSpace(TrimLeft(s)[0])
  {
    if s != "" && IsSpace(s[0]) { TrimLeftDone(s[1..]); }
  }

  lemma {:induction false} TrimRightDone(s: string)
    ensures TrimRight(s) != "" ==> !IsSpace(TrimRight(s)[|TrimRight(s)| - 1])
    decreases |s|
  {
    if s != "" && IsSpace(s[|s| - 1]) { TrimRightDone(s[..|s| - 1]); }
  }

  /** Trimming twice is trimming once. */
  lemma TrimIdempotent(s: string)
    ensures Trim(Trim(s)) == Trim(s)
  {
    var l := TrimLeft(s);
    TrimLeftDone(s);
    TrimRightDone(l);
    if l != "" { TrimRightKeepsHead(l); }
  }

  lemma {:induction false} TrimLeftCommutes(f: char -> char, s: string)
    requires forall c :: IsSpace(f(c)) == IsSpace(c)
    ensures TrimLeft(MapChars(f, s)) == MapChars(f, TrimLeft(s))
  {
    if s != "" && IsSpace(s[0]) {
      assert MapChars(f, s)[1..] == MapChars(f, s[1..]);
      TrimLeftCommutes(f, s[1..]);
    }
  }

  lemma {:induction false} TrimRightCommutes(f: char -> char, s: string)
    requires forall c :: IsSpace(f(c)) == IsSpace(c)
    ensures TrimRight(MapChars(f, s)) == MapChars(f, TrimRight(s))
    decreases |s|
  {
    if s != "" && IsSpace(s[|s| - 1]) {
      assert MapChars(f, s)[..|s| - 1] == MapChars(f, s[..|s| - 1]);
      TrimRightCommutes(f, s[..|s| - 1]);
    }
  }

  /** Case folding and trimming can be done in either order. */
  lemma CaseTrimCommute(s: string)
    ensures Lower(Trim(s)) == Trim(Lower(s))
    ensures Upper(Trim(s)) == Trim(Upper(s))
  {
    TrimLeftCommutes(LowerChar, s);
    TrimRightCommutes(LowerChar, TrimLeft(s));
    TrimLeftCommutes(UpperChar, s);
    TrimRightCommutes(UpperChar, TrimLeft(s));
  }

  lemma CaseCollapse(s: string)
    ensures Lower(Upper(s)) == Lower(s)
    ensures Upper(Upper(s)) == Upper(s)
  {
  }
}
