/** The rewrite of the `filename` attribute once the document has been
    written: `replaceAll("\\.(json|txt)$", ".pdf")`. */
module FileName {

  /** s ends with suffix. */
  predicate EndsWith(s: string, suffix: string)
  {
    |suffix| <= |s| && s[|s| - |suffix|..] == suffix
  }

  /** The pattern `\.(json|txt)$` matches name starting at index i: what
      follows i is exactly ".json" or ".txt", in that letter case. */
  predicate MatchAt(name: string, i: int)
  {
    0 <= i <= |name| && (name[i..] == ".json" || name[i..] == ".txt")
  }

  /** The anchored pattern matches in at most one place, so at most one
      replacement is made. */
  lemma MatchUnique(name: string, i: int, j: int)
    requires MatchAt(name, i) && MatchAt(name, j)
    ensures i == j
  {
    assert name[i] == name[i..][0] == '.' && name[j] == name[j..][0] == '.';
    assert |name| - i == 5 ==> name[i + 1] == name[i..][1] == 'j';
    assert |name| - j == 5 ==> name[j + 1] == name[j..][1] == 'j';
  }

  /** The new file name: a trailing ".json" or ".txt" becomes ".pdf" and the
      stem before it is kept; with no match the name is unchanged. */
  function RenameToPdf(name: string): (r: string)
    ensures (forall i :: !MatchAt(name, i)) ==> r == name
    ensures forall i :: MatchAt(name, i) ==> r == name[..i] + ".pdf"
    ensures r != name <==> exists i :: MatchAt(name, i)
  {
    if EndsWith(name, ".json") then
      assert MatchAt(name, |name| - 5);
      assert forall i :: MatchAt(name, i) ==> i == |name| - 5 by {
        forall i | MatchAt(name, i) ensures i == |name| - 5 {
          MatchUnique(name, i, |name| - 5);
        }
      }
      name[..|name| - 5] + ".pdf"
    else if EndsWith(name, ".txt") then
      assert MatchAt(name, |name| - 4);
      assert forall i :: MatchAt(name, i) ==> i == |name| - 4 by {
        forall i | MatchAt(name, i) ensures i == |name| - 4 {
          MatchUnique(name, i, |name| - 4);
        }
      }
      name[..|name| - 4] + ".pdf"
    else
      name
  }

  /** A name ending in ".pdf" offers the pattern no match. */
  lemma NoMatchInPdf(s: string)
    requires EndsWith(s, ".pdf")
    ensures forall i :: !MatchAt(s, i)
  {
    assert s[|s| - 1] == s[|s| - 4..][3] == 'f';
    forall j | 0 <= j < |s|
      ensures s[j..][|s| - 1 - j] == 'f'
    {
    }
  }

  /** "<stem>.json" becomes "<stem>.pdf". */
  lemma RenameJson(stem: string)
    ensures RenameToPdf(stem + ".json") == stem + ".pdf"
  {
    var n := stem + ".json";
    assert n[|n| - 5..] == ".json";
    assert n[..|n| - 5] == stem;
  }

  /** "<stem>.txt" becomes "<stem>.pdf". */
  lemma RenameTxt(stem: string)
    ensures RenameToPdf(stem + ".txt") == stem + ".pdf"
  {
    var n := stem + ".txt";
    assert n[|n| - 4..] == ".txt";
    assert n[|n| - 1] == 't';
    assert |n| >= 5 ==> n[|n| - 5..][4] == 't';
    assert n[..|n| - 4] == stem;
  }

  /** A renamed name ends in ".pdf", which the pattern does not match. */
  lemma RenamedEndsInPdf(name: string)
    requires exists i :: MatchAt(name, i)
    ensures EndsWith(RenameToPdf(name), ".pdf")
    ensures forall i :: !MatchAt(RenameToPdf(name), i)
  {
    var i :| MatchAt(name, i);
    var r := name[..i] + ".pdf";
    assert RenameToPdf(name) == r;
    assert r[|r| - 4..] == ".pdf";
    NoMatchInPdf(r);
  }

  /** Renaming twice is renaming once. */
  lemma RenameIdempotent(name: string)
    ensures RenameToPdf(RenameToPdf(name)) == RenameToPdf(name)
  {
    if exists i :: MatchAt(name, i) {
      RenamedEndsInPdf(name);
    }
  }

  /** Only the last suffix is replaced: "a.json.txt" becomes "a.json.pdf". */
  lemma LastSuffixExample()
    ensures RenameToPdf("a.json.txt") == "a.json.pdf"
  {
    RenameTxt("a.json");
    assert "a.json" + ".txt" == "a.json.txt" && "a.json" + ".pdf" == "a.json.pdf";
  }

  /** The match is case-sensitive and anchored at the end: these names are
      left as they are. */
  lemma KeptNameExamples()
    ensures RenameToPdf("A.JSON") == "A.JSON"
    ensures RenameToPdf("x.jsonl") == "x.jsonl"
    ensures RenameToPdf("report.pdf") == "report.pdf"
  {
    assert !EndsWith("A.JSON", ".json") && !EndsWith("A.JSON", ".txt");
    assert !EndsWith("x.jsonl", ".json") && !EndsWith("x.jsonl", ".txt");
    assert !EndsWith("report.pdf", ".json") && !EndsWith("report.pdf", ".txt");
  }
}
