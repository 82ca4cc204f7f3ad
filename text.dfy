/** Python string operations the sweep uses: `str.replace` on the pulse
    scores and the substring test `p in t`. `Replace` is characterised by the
    leftmost segmentation of the text at the pattern (`Split`/`Join`), which
    is how Python scans for non-overlapping occurrences. */
module Text {

  /** `p` occurs in `t` starting at position `k`. */
  predicate OccursAt(p: string, t: string, k: nat)
  {
    k + |p| <= |t| && t[k..k + |p|] == p
  }

  /** Python's `p in t` for strings. */
  predicate Contains(t: string, p: string)
  {
    exists k: nat :: k <= |t| && OccursAt(p, t, k)
  }

  /** Python's `s.replace(p, r)` for a non-empty pattern: scan left to right,
      replacing each occurrence and resuming after it. */
  function Replace(s: string, p: string, r: string): string
    requires |p| > 0
    decreases |s|
  {
    if |s| < |p| then s
    else if s[..|p|] == p then r + Replace(s[|p|..], p, r)
    else [s[0]] + Replace(s[1..], p, r)
  }

  /** Python's `s.split(p)`: the pieces between the occurrences `Replace` finds. */
  function Split(s: string, p: string): (segs: seq<string>)
    requires |p| > 0
    ensures |segs| > 0
    decreases |s|
  {
    if |s| < |p| then [s]
    else if s[..|p|] == p then [""] + Split(s[|p|..], p)
    else
      var rest := Split(s[1..], p);
      [[s[0]] + rest[0]] + rest[1..]
  }

  /** Python's `sep.join(segs)`. */
  function Join(segs: seq<string>, sep: string): string
    requires |segs| > 0
  {
    if |segs| == 1 then segs[0] else segs[0] + sep + Join(segs[1..], sep)
  }

  lemma JoinConsChar(c: char, x: string, tail: seq<string>, sep: string)
    ensures Join([[c] + x] + tail, sep) == [c] + Join([x] + tail, sep)
  {
    assert ([[c] + x] + tail)[1..] == tail;
    assert ([x] + tail)[1..] == tail;
  }

  /** Replacing is splitting at the pattern and joining with the replacement. */
  lemma {:induction false} ReplaceIsJoinOfSplit(s: string, p: string, r: string)
    requires |p| > 0
    ensures Replace(s, p, r) == Join(Split(s, p), r)
    decreases |s|
  {
    if |s| < |p| {
    } else if s[..|p|] == p {
      ReplaceIsJoinOfSplit(s[|p|..], p, r);
      var rest := Split(s[|p|..], p);
      assert ([""] + rest)[1..] == rest;
    } else {
      ReplaceIsJoinOfSplit(s[1..], p, r);
      var rest := Split(s[1..], p);
      assert rest == [rest[0]] + rest[1..];
      JoinConsChar(s[0], rest[0], rest[1..], r);
    }
  }

  /** Replacing the pattern by itself changes nothing. */
  lemma {:induction false} ReplaceBySelf(s: string, p: string)
    requires |p| > 0
    ensures Replace(s, p, p) == s
    decreases |s|
  {
    if |s| < |p| {
    } else if s[..|p|] == p {
      ReplaceBySelf(s[|p|..], p);
      assert s == s[..|p|] + s[|p|..];
    } else {
      ReplaceBySelf(s[1..], p);
      assert s == [s[0]] + s[1..];
    }
  }

  /** Splitting and joining with the same separator is the identity. */
  lemma SplitJoin(s: string, p: string)
    requires |p| > 0
    ensures Join(Split(s, p), p) == s
  {
    ReplaceIsJoinOfSplit(s, p, p);
    ReplaceBySelf(s, p);
  }

  /** What follows segment `i` in the text: the separator, or nothing after the last. */
  function After(segs: seq<string>, i: nat, p: string): string
    requires i < |segs|
  {
    if i < |segs| - 1 then p else ""
  }

  /** No occurrence of `p` starts inside `seg` when the text continues with `after`. */
  predicate NoMatchStartsIn(seg: string, after: string, p: string)
  {
    forall k: nat :: k < |seg| ==> !OccursAt(p, seg + after, k)
  }

  /** The segmentation is leftmost: no occurrence of the pattern starts inside
      any segment, so every separator is the first occurrence after the
      previous one. */
  predicate Leftmost(segs: seq<string>, p: string)
  {
    forall i :: 0 <= i < |segs| ==> NoMatchStartsIn(segs[i], After(segs, i, p), p)
  }

  /** The first segment, followed by what comes after it, is a prefix of the text. */
  lemma SplitHeadIsPrefix(s: string, p: string)
    requires |p| > 0
    ensures var segs := Split(s, p);
            var h := segs[0] + After(segs, 0, p);
            |h| <= |s| && s[..|h|] == h
  {
    var segs := Split(s, p);
    SplitJoin(s, p);
    if |segs| > 1 {
      assert s == segs[0] + p + Join(segs[1..], p);
    }
  }

  /** `Split` finds the occurrences leftmost-first. */
  lemma {:induction false} SplitIsLeftmost(s: string, p: string)
    requires |p| > 0
    ensures Leftmost(Split(s, p), p)
    decreases |s|
  {
    var segs := Split(s, p);
    if |s| < |p| {
    } else if s[..|p|] == p {
      var rest := Split(s[|p|..], p);
      SplitIsLeftmost(s[|p|..], p);
      forall i | 0 <= i < |segs| ensures NoMatchStartsIn(segs[i], After(segs, i, p), p) {
        if i > 0 {
          assert segs[i] == rest[i - 1] && After(segs, i, p) == After(rest, i - 1, p);
        }
      }
    } else {
      var rest := Split(s[1..], p);
      SplitIsLeftmost(s[1..], p);
      forall i | 0 <= i < |segs| ensures NoMatchStartsIn(segs[i], After(segs, i, p), p) {
        if i == 0 {
          var a := After(segs, 0, p);
          assert a == After(rest, 0, p);
          forall k: nat | k < |segs[0]| ensures !OccursAt(p, segs[0] + a, k) {
            var t := segs[0] + a;
            assert t == [s[0]] + (rest[0] + a);
            if k == 0 {
              SplitHeadIsPrefix(s, p);
            } else {
              assert t[k..] == (rest[0] + a)[k - 1..];
              if OccursAt(p, t, k) {
                assert t[k..k + |p|] == (rest[0] + a)[k - 1..k - 1 + |p|];
                assert OccursAt(p, rest[0] + a, k - 1);
              }
            }
          }
        } else {
          assert segs[i] == rest[i] && After(segs, i, p) == After(rest, i, p);
        }
      }
    }
  }

  /** Text in which the pattern does not occur is left as it is. */
  lemma {:induction false} ReplaceAbsent(s: string, p: string, r: string)
    requires |p| > 0 && !Contains(s, p)
    ensures Replace(s, p, r) == s
    decreases |s|
  {
    if |s| < |p| {
    } else {
      assert !OccursAt(p, s, 0);
      forall k: nat | k <= |s[1..]| ensures !OccursAt(p, s[1..], k) {
        assert !OccursAt(p, s, k + 1);
        if k + |p| <= |s[1..]| {
          assert s[1..][k..k + |p|] == s[k + 1..k + 1 + |p|];
        }
      }
      ReplaceAbsent(s[1..], p, r);
    }
  }
}
