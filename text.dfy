/** Python's string tests used by the loader, `s.endswith(p)` and `sub in s`, with
    `s.startswith(p)` as the helper both are stated with. */
module Text {

  /** `s.startswith(p)` */
  predicate StartsWith(s: string, p: string) {
    |p| <= |s| && s[..|p|] == p
  }

  /** `s.endswith(p)`; case-sensitive, as in Python */
  predicate EndsWith(s: string, p: string) {
    |p| <= |s| && s[|s| - |p|..] == p
  }

  /** `s.endswith(p)` holds exactly when `s` is some string followed by `p`. */
  lemma EndsWithIff(s: string, p: string)
    ensures EndsWith(s, p) <==> exists x :: x + p == s
  {
    if EndsWith(s, p) {
      assert s[..|s| - |p|] + p == s;
    }
  }

  /** `sub in s`: tries every start position from the left */
  predicate Contains(s: string, sub: string)
    ensures sub == [] ==> Contains(s, sub)
    ensures Contains(s, sub) ==> |sub| <= |s|
    decreases |s|
  {
    StartsWith(s, sub) || (s != [] && Contains(s[1..], sub))
  }

  /** `sub` occurs in `s` starting at index `i` */
  ghost predicate OccursAt(s: string, sub: string, i: int) {
    0 <= i && i + |sub| <= |s| && s[i..i + |sub|] == sub
  }

  /** The scan finds `sub` exactly when it occurs somewhere in `s`. */
  lemma {:induction false} ContainsIff(s: string, sub: string)
    ensures Contains(s, sub) <==> exists i :: OccursAt(s, sub, i)
    decreases |s|
  {
    if StartsWith(s, sub) {
      assert OccursAt(s, sub, 0);
    } else if s != [] {
      ContainsIff(s[1..], sub);
      if Contains(s[1..], sub) {
        var j :| OccursAt(s[1..], sub, j);
        assert s[1..][j..j + |sub|] == s[j + 1..j + 1 + |sub|];
        assert OccursAt(s, sub, j + 1);
      } else {
        forall i | OccursAt(s, sub, i) && i != 0 ensures OccursAt(s[1..], sub, i - 1) {
          var shifted, here := s[1..][i - 1..i - 1 + |sub|], s[i..i + |sub|];
          assert forall k :: 0 <= k < |sub| ==> shifted[k] == here[k];
          assert shifted == here;
        }
      }
    }
  }

  /** A suffix of a suffix is a suffix. */
  lemma EndsWithTransitive(a: string, b: string, c: string)
    requires EndsWith(a, b) && EndsWith(b, c)
    ensures EndsWith(a, c)
  {
    assert a[|a| - |c|..] == a[|a| - |b|..][|b| - |c|..];
  }

  /** The suffix test is case-sensitive: a name ending in `.wav` never ends in `.WAV`. */
  lemma LowerCaseSuffixIsNotUpperCase(s: string)
    requires EndsWith(s, ".wav")
    ensures !EndsWith(s, ".WAV")
  {
    assert s[|s| - 3] == 'w';
  }
}
