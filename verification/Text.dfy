/** Blanks and case, for ASCII. */
module Text {
  import opened Sequences

  predicate Blank(c: char) {
    c == ' ' || '\t' <= c <= '\r' || '\U{1C}' <= c <= '\U{1F}'
  }

  function StripLeft(s: string): string {
    if s != "" && Blank(s[0]) then StripLeft(s[1..]) else s
  }

  function StripRight(s: string): string {
    if s != "" && Blank(s[|s| - 1]) then StripRight(s[..|s| - 1]) else s
  }

  function Lower(s: string): string {
    Map((c: char) => if 'A' <= c <= 'Z' then c - 'A' + 'a' else c, s)
  }

  function Upper(s: string): string {
    Map((c: char) => if 'a' <= c <= 'z' then c - 'a' + 'A' else c, s)
  }

  /** The letters of ASCII, 65 to 90 and 97 to 122, change case, and nothing else does. */
  lemma CaseMeans(s: string, i: nat)
    requires i < |s|
    ensures |Lower(s)| == |Upper(s)| == |s|
    ensures
      var c := s[i] as int;
      && (Lower(s)[i] as int == if 65 <= c <= 90 then c + 32 else c)
      && (Upper(s)[i] as int == if 97 <= c <= 122 then c - 32 else c)
  {
  }

  function Strip(s: string): string { StripRight(StripLeft(s)) }

  /** The blanks of ASCII: space, tab, newline, vertical tab, form feed, carriage return, and the four
      separators. */
  lemma BlanksAre(c: char)
    requires c < '\U{7F}'
    ensures Blank(c) <==>
      c in {' ', '\t', '\n', '\U{0B}', '\U{0C}', '\r', '\U{1C}', '\U{1D}', '\U{1E}', '\U{1F}'}
  {
  }

  /** A strip leaves nothing exactly of a text that is all blanks. */
  lemma {:induction false} StripEmpties(s: string)
    ensures Strip(s) == "" <==> forall c <- s :: Blank(c)
  {
    LeftEmpties(s);
    var t := StripLeft(s);
    if t != "" {
      RightEmpties(t);
      assert t[0] in t;
    }
  }

  lemma {:induction false} LeftEmpties(s: string)
    ensures StripLeft(s) == "" <==> forall c <- s :: Blank(c)
    ensures StripLeft(s) != "" ==> !Blank(StripLeft(s)[0])
  {
    if s != "" && Blank(s[0]) {
      LeftEmpties(s[1..]);
      assert forall c <- s :: c == s[0] || c in s[1..];
    } else if s != "" {
      assert s[0] in s;
    }
  }

  lemma {:induction false} RightEmpties(s: string)
    ensures StripRight(s) == "" <==> forall c <- s :: Blank(c)
  {
    if s != "" && Blank(s[|s| - 1]) {
      RightEmpties(s[..|s| - 1]);
      assert forall c <- s :: c == s[|s| - 1] || c in s[..|s| - 1];
    } else if s != "" {
      assert s[|s| - 1] in s;
    }
  }

  /** Blanks around a text do not outlast a strip. */
  lemma StripPadded(s: string)
    ensures Strip(" " + s + " ") == Strip(s)
  {
    assert (" " + s + " ")[1..] == s + " ";
    StripLeftPadded(s);
    var t := StripLeft(s);
    assert (t + " ")[..|t|] == t;
  }

  lemma {:induction false} StripLeftPadded(s: string)
    ensures StripLeft(s + " ") == if StripLeft(s) == "" then "" else StripLeft(s) + " "
  {
    if s == "" {
      assert (s + " ")[1..] == "";
    } else if Blank(s[0]) {
      assert (s + " ")[1..] == s[1..] + " ";
      StripLeftPadded(s[1..]);
    }
  }
}
