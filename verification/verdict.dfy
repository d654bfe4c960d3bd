/** The verdict interpreter shared by both entry points: the model's text
    allows the push exactly when its upper-cased form contains the marker
    "SAFE TO RELEASE"; every other text blocks it. */
module Verdict {
  import opened Text

  /** The marker a reply must contain to allow the push. */
  const Marker: string := "SAFE TO RELEASE"

  /** The text analysis returns in place of a reply when the model request fails. */
  const FailSentinel: string := "NEEDS REVIEW - AI check failed"

  /** `"SAFE TO RELEASE" in verdict.upper()`. */
  predicate Allows(verdict: string) {
    Contains(Upper(verdict), Marker)
  }

  /** The process exit code for a verdict: 0 allows the push, 1 blocks it. */
  function ExitCode(verdict: string): (code: nat)
    ensures code <= 1
    ensures code == 0 <==> Allows(verdict)
  {
    if Allows(verdict) then 0 else 1
  }

  lemma MarkerIsUpperCase()
    ensures forall k :: 0 <= k < |Marker| ==> !IsLowerAscii(Marker[k])
  {
  }

  /** Two texts that differ only in the letter case of their characters get the
      same decision. */
  lemma AllowsIgnoresCase(s: string, t: string)
    requires |s| == |t|
    requires forall i :: 0 <= i < |s| ==> UpperChar(s[i]) == UpperChar(t[i])
    ensures Allows(s) <==> Allows(t)
  {
    assert Upper(s) == Upper(t);
  }

  /** Upper-casing the verdict beforehand does not change the decision. */
  lemma AllowsUpper(s: string)
    ensures Allows(Upper(s)) <==> Allows(s)
  {
    UpperIdempotent(s);
  }

  /** The marker written exactly, anywhere in the text, allows the push. */
  lemma MarkerAllows(s: string)
    requires Contains(s, Marker)
    ensures Allows(s)
  {
    var i :| 0 <= i <= |s| - |Marker| && OccursAt(s, Marker, i);
    UpperSlice(s, i, i + |Marker|);
    MarkerIsUpperCase();
    assert Upper(Marker) == Marker;
    assert OccursAt(Upper(s), Marker, i);
  }

  /** Whatever surrounds an allowing text, the whole still allows: only the
      presence of the marker matters. */
  lemma AllowsInContext(a: string, v: string, b: string)
    requires Allows(v)
    ensures Allows(a + v + b)
  {
    var i :| 0 <= i <= |Upper(v)| - |Marker| && OccursAt(Upper(v), Marker, i);
    OccursInContext(Upper(a), Upper(v), Upper(b), Marker, i);
    UpperConcat(a + v, b);
    UpperConcat(a, v);
  }

  /** The failure sentinel blocks the push: analysis errors fail closed. */
  lemma SentinelBlocks()
    ensures !Allows(FailSentinel)
  {
    var f := FailSentinel;
    assert forall k :: 0 <= k < |f| && UpperChar(f[k]) == 'S' ==> k == 4;
    assert UpperChar(f[5]) == ' ';
    NoMarkerWithOneCandidate(f, 4);
  }

  /** A text whose only candidate start for the marker is `p`, and whose
      character after `p` cannot continue it, does not allow the push. */
  lemma NoMarkerWithOneCandidate(s: string, p: nat)
    requires p + 1 < |s|
    requires forall k :: 0 <= k < |s| && UpperChar(s[k]) == 'S' ==> k == p
    requires UpperChar(s[p + 1]) != 'A'
    ensures !Allows(s)
  {
    var u := Upper(s);
    forall i | 0 <= i <= |u| - |Marker| ensures !OccursAt(u, Marker, i) {
      var w := u[i..i + |Marker|];
      if i == p {
        assert w[1] != Marker[1];
      } else {
        assert w[0] != Marker[0];
      }
    }
  }

  /** The empty text blocks the push. */
  lemma EmptyBlocks()
    ensures !Allows("")
  {
  }

  /** Stripping surrounding whitespace from a reply never changes the
      decision: the marker begins and ends with a letter, so an occurrence can
      never overlap the stripped whitespace. The proof is direct, not by
      induction; automatic induction is switched off because the hypotheses
      it would add about shorter texts only slow the solver down. */
  lemma {:induction false} StripKeepsDecision(s: string)
    ensures Allows(Strip(s)) <==> Allows(s)
  {
    if Allows(Strip(s)) {
      OccurrenceBeforeStrip(s);
    }
    if Allows(s) {
      OccurrenceSurvivesStrip(s);
    }
  }

  lemma OccurrenceBeforeStrip(s: string)
    requires Allows(Strip(s))
    ensures Allows(s)
  {
    var r := Strip(s);
    var a := LeadingSpaces(s);
    StripIsTrimmedInfix(s);
    UpperSlice(s, a, a + |r|);
    StrippedOccurrenceIsOccurrence(Upper(s), a, a + |r|);
  }

  lemma StrippedOccurrenceIsOccurrence(u: string, lo: nat, hi: nat)
    requires lo <= hi <= |u|
    requires Contains(u[lo..hi], Marker)
    ensures Contains(u, Marker)
  {
    var i :| 0 <= i <= |u[lo..hi]| - |Marker| && OccursAt(u[lo..hi], Marker, i);
    OccursInSlice(u, lo, hi, Marker, i);
  }

  lemma OccurrenceSurvivesStrip(s: string)
    requires Allows(s)
    ensures Allows(Strip(s))
  {
    var r := Strip(s);
    StripIsTrimmedInfix(s);
    var j :| 0 <= j <= |Upper(s)| - |Marker| && OccursAt(Upper(s), Marker, j);
    KeptOccurrence(s, LeadingSpaces(s), |r|, j);
  }

  /** An occurrence of the marker lies within any infix that keeps every
      non-whitespace character. */
  lemma KeptOccurrence(s: string, a: nat, n: nat, j: int)
    requires a + n <= |s|
    requires forall i :: 0 <= i < |s| && !IsSpace(s[i]) ==> a <= i < a + n
    requires OccursAt(Upper(s), Marker, j)
    ensures a <= j && OccursAt(Upper(s[a..a + n]), Marker, j - a)
  {
    var m := |Marker|;
    MarkerEndsAreLetters(s, j);
    assert a <= j && j + m <= a + n;
    OccursInSlice(Upper(s), a, a + n, Marker, j - a);
    UpperSlice(s, a, a + n);
  }

  /** The characters under the first and the last letter of an occurrence of
      the marker are not whitespace. */
  lemma MarkerEndsAreLetters(s: string, j: int)
    requires OccursAt(Upper(s), Marker, j)
    ensures !IsSpace(s[j]) && !IsSpace(s[j + |Marker| - 1])
  {
    var w := Upper(s)[j..j + |Marker|];
    assert w[0] == 'S' && w[|Marker| - 1] == 'E';
    assert UpperChar(s[j]) == 'S' && UpperChar(s[j + |Marker| - 1]) == 'E';
  }
}
