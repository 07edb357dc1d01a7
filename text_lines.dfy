/** Line-oriented views of a text: the line-feed-terminated form that the
    formatter produces, and the way Java's `String.split("\n")` cuts a text
    back into lines. */
module TextLines {

  /** No line of ls contains a line feed. */
  predicate NoLineFeeds(ls: seq<string>)
  {
    forall i :: 0 <= i < |ls| ==> '\n' !in ls[i]
  }

  /** Each line followed by "\n", all concatenated in order. */
  function Terminated(ls: seq<string>): string
  {
    if ls == [] then "" else ls[0] + "\n" + Terminated(ls[1..])
  }

  /** Number of occurrences of c in s. */
  function Occurrences(c: char, s: string): nat
  {
    if s == [] then 0 else (if s[0] == c then 1 else 0) + Occurrences(c, s[1..])
  }

  /** Every piece of s between line feeds, empty pieces included: the list
      `String.split` builds before it drops trailing empty strings. */
  function SplitAll(s: string): (r: seq<string>)
    ensures |r| == Occurrences('\n', s) + 1
    ensures NoLineFeeds(r)
  {
    if s == [] then [""]
    else
      var rest := SplitAll(s[1..]);
      if s[0] == '\n' then [""] + rest else [[s[0]] + rest[0]] + rest[1..]
  }

  /** The pieces glued back together with "\n" between neighbours. */
  function Join(ps: seq<string>): string
    requires |ps| >= 1
  {
    if |ps| == 1 then ps[0] else ps[0] + "\n" + Join(ps[1..])
  }

  /** The list without its trailing empty strings (Java's limit-0 rule). */
  function StripTrailingEmpty(ps: seq<string>): (r: seq<string>)
    ensures |r| <= |ps| && r == ps[..|r|]
    ensures r == [] || r[|r| - 1] != ""
    ensures forall i :: |r| <= i < |ps| ==> ps[i] == ""
  {
    if ps == [] || ps[|ps| - 1] != "" then ps else StripTrailingEmpty(ps[..|ps| - 1])
  }

  /** `s.split("\n")`: a text with no line feed (the empty text included) is
      returned whole as the only element; otherwise every piece between line
      feeds is kept except the trailing empty ones. */
  function JavaSplit(s: string): (r: seq<string>)
    ensures NoLineFeeds(r)
    ensures '\n' !in s ==> r == [s]
    ensures '\n' in s ==> |r| <= |SplitAll(s)| && r == SplitAll(s)[..|r|]
    ensures '\n' in s ==> forall i :: |r| <= i < |SplitAll(s)| ==> SplitAll(s)[i] == ""
    ensures '\n' in s ==> r == [] || r[|r| - 1] != ""
  {
    if '\n' !in s then [s] else StripTrailingEmpty(SplitAll(s))
  }

  /** Joining the pieces with line feeds gives the text back. */
  lemma {:induction false} JoinSplitAll(s: string)
    ensures Join(SplitAll(s)) == s
  {
    if s != [] {
      var rest := SplitAll(s[1..]);
      JoinSplitAll(s[1..]);
      if s[0] == '\n' {
        assert SplitAll(s) == [""] + rest;
        assert ([""] + rest)[1..] == rest;
        assert s == "\n" + s[1..];
      } else if |rest| > 1 {
        assert SplitAll(s) == [[s[0]] + rest[0]] + rest[1..];
        assert Join(rest) == rest[0] + "\n" + Join(rest[1..]);
        assert ([[s[0]] + rest[0]] + rest[1..])[1..] == rest[1..];
        assert s == [s[0]] + s[1..];
      } else {
        assert s == [s[0]] + s[1..];
      }
    }
  }

  /** A text without line feeds is a single piece. */
  lemma {:induction false} SplitAllPlain(p: string)
    requires '\n' !in p
    ensures SplitAll(p) == [p]
  {
    if p != [] {
      SplitAllPlain(p[1..]);
      assert [p[0]] + p[1..] == p;
    }
  }

  /** A piece without line feeds, then a line feed, splits off as one piece. */
  lemma {:induction false} SplitAllPiece(p: string, t: string)
    requires '\n' !in p
    ensures SplitAll(p + "\n" + t) == [p] + SplitAll(t)
  {
    if p == [] {
      assert (p + "\n" + t)[1..] == t;
    } else {
      SplitAllPiece(p[1..], t);
      assert (p + "\n" + t)[1..] == p[1..] + "\n" + t;
      assert [p[0]] + p[1..] == p;
    }
  }

  /** Splitting undoes joining, for pieces free of line feeds. */
  lemma {:induction false} SplitAllJoin(ps: seq<string>)
    requires |ps| >= 1 && NoLineFeeds(ps)
    ensures SplitAll(Join(ps)) == ps
  {
    if |ps| == 1 {
      SplitAllPlain(ps[0]);
    } else {
      SplitAllJoin(ps[1..]);
      SplitAllPiece(ps[0], Join(ps[1..]));
    }
  }

  /** The terminated form is the join of the lines followed by one empty piece. */
  lemma {:induction false} TerminatedIsJoin(ls: seq<string>)
    ensures Terminated(ls) == Join(ls + [""])
  {
    if ls != [] {
      TerminatedIsJoin(ls[1..]);
      assert (ls + [""])[1..] == ls[1..] + [""];
    }
  }

  /** The terminated form of a concatenation is the concatenation of the forms. */
  lemma {:induction false} TerminatedAppend(a: seq<string>, b: seq<string>)
    ensures Terminated(a + b) == Terminated(a) + Terminated(b)
  {
    if a == [] {
      assert a + b == b;
    } else {
      TerminatedAppend(a[1..], b);
      assert (a + b)[1..] == a[1..] + b;
    }
  }

  /** Terminated lines split back into the pieces plus one empty trailing piece;
      the text holds exactly one line feed per line. */
  lemma TerminatedSplitAll(ls: seq<string>)
    requires NoLineFeeds(ls)
    ensures SplitAll(Terminated(ls)) == ls + [""]
    ensures Occurrences('\n', Terminated(ls)) == |ls|
  {
    TerminatedIsJoin(ls);
    SplitAllJoin(ls + [""]);
  }

  /** What `split("\n")` returns for terminated lines: one empty line when
      there are none, else the lines without their trailing empty ones. */
  lemma SplitTerminated(ls: seq<string>)
    requires NoLineFeeds(ls)
    ensures JavaSplit(Terminated(ls)) == if ls == [] then [""] else StripTrailingEmpty(ls)
  {
    if ls != [] {
      TerminatedSplitAll(ls);
      assert '\n' in Terminated(ls) by {
        assert Terminated(ls) == ls[0] + "\n" + Terminated(ls[1..]);
        assert Terminated(ls)[|ls[0]|] == '\n';
      }
      StripLastEmpty(ls);
    }
  }

  /** Dropping one known-empty last piece does not change the stripped list. */
  lemma StripLastEmpty(ls: seq<string>)
    ensures StripTrailingEmpty(ls + [""]) == StripTrailingEmpty(ls)
  {
    assert (ls + [""])[..|ls|] == ls;
  }

  /** Java's edge cases: "" gives one empty line, "\n" gives none, and
      "\nJo\n" keeps its leading empty line. */
  lemma JavaSplitExamples()
    ensures JavaSplit("") == [""]
    ensures JavaSplit("\n") == []
    ensures JavaSplit("\nJo\n") == ["", "Jo"]
  {
    SplitTerminated([""]);
    assert Terminated([""]) == "\n";
    SplitTerminated(["", "Jo"]);
    assert Terminated(["", "Jo"]) == "\nJo\n";
  }
}
