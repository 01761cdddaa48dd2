// key/key.go: the glob algebra that decides which subscriptions hear about
// which writes, and the timestamped keys that a publish to a glob creates.
module Key {
  import opened Common
  import Numerals

  // ---------------------------------------------------------------- matching

  // filepath.Match for a pattern whose only metacharacter is '*'.  Where the
  // path separator is '/', a star stops at it; where it is not (Windows), a
  // star crosses it.
  predicate Wildcard(pattern: string, name: string, crossing: bool)
    decreases |pattern| + |name|
  {
    if pattern == "" then name == ""
    else if pattern[0] == '*' then
      || Wildcard(pattern[1..], name, crossing)
      || (name != "" && (crossing || name[0] != '/') && Wildcard(pattern, name[1..], crossing))
    else
      name != "" && name[0] == pattern[0] && Wildcard(pattern[1..], name[1..], crossing)
  }

  function Count(s: string, c: char): nat {
    if s == "" then 0 else (if s[0] == c then 1 else 0) + Count(s[1..], c)
  }

  // Match as compiled for a platform.
  predicate MatchOn(path: string, key: string, crossing: bool) {
    if path == key then true
    else if '*' !in path then false
    else Wildcard(path, key, crossing) && Count(path, '/') == Count(key, '/')
  }

  predicate Match(path: string, key: string) {
    MatchOn(path, key, false)
  }

  predicate Peer(a: string, b: string) {
    Match(a, b) || Match(b, a)
  }

  // Contains: whether some path in the list peers with the given one.
  method Contains(paths: seq<string>, e: string) returns (found: bool)
    ensures found <==> exists i :: 0 <= i < |paths| && Peer(paths[i], e)
  {
    for i := 0 to |paths|
      invariant forall j :: 0 <= j < i ==> !Peer(paths[j], e)
    {
      if Peer(paths[i], e) {
        return true;
      }
    }
    return false;
  }

  // ------------------------------------------- one meaning on every platform

  // The reference definition: one star-stops-at-slash match per path segment.
  function Split(s: string): (segments: seq<string>)
    ensures |segments| >= 1
  {
    if s == "" then [""]
    else
      var rest := Split(s[1..]);
      if s[0] == '/' then [""] + rest else [[s[0]] + rest[0]] + rest[1..]
  }

  ghost predicate SegmentsMatch(ps: seq<string>, ks: seq<string>) {
    |ps| == |ks| && forall i :: 0 <= i < |ps| ==> Wildcard(ps[i], ks[i], false)
  }

  lemma {:induction false} WildcardReflexive(p: string)
    ensures Wildcard(p, p, false)
  {
    if p != "" {
      WildcardReflexive(p[1..]);
      if p[0] == '*' {
        // The star swallows the literal star, then nothing more.
        assert Wildcard(p, p[1..], false);
      }
    }
  }

  lemma {:induction false} StarFreeWildcard(p: string, k: string)
    requires '*' !in p
    ensures Wildcard(p, k, false) <==> p == k
  {
    if p != "" && k != "" {
      StarFreeWildcard(p[1..], k[1..]);
      assert p == [p[0]] + p[1..] && k == [k[0]] + k[1..];
    }
  }

  // Slashes are conserved along a match: each one in the pattern is spent on
  // one in the name, so a crossing star can only add to the name's count.
  lemma {:induction false} CrossingNeverLosesSlashes(p: string, k: string)
    requires Wildcard(p, k, true)
    ensures Count(p, '/') <= Count(k, '/')
    decreases |p| + |k|
  {
    if p != "" {
      if p[0] == '*' {
        if Wildcard(p[1..], k, true) {
          CrossingNeverLosesSlashes(p[1..], k);
        } else {
          CrossingNeverLosesSlashes(p, k[1..]);
        }
      } else {
        CrossingNeverLosesSlashes(p[1..], k[1..]);
      }
    }
  }

  lemma {:induction false} EqualSlashesStopStars(p: string, k: string)
    requires Wildcard(p, k, true) && Count(p, '/') == Count(k, '/')
    ensures Wildcard(p, k, false)
    decreases |p| + |k|
  {
    if p != "" {
      if p[0] == '*' {
        if Wildcard(p[1..], k, true) {
          EqualSlashesStopStars(p[1..], k);
        } else {
          CrossingNeverLosesSlashes(p, k[1..]);
          EqualSlashesStopStars(p, k[1..]);
        }
      } else {
        EqualSlashesStopStars(p[1..], k[1..]);
      }
    }
  }

  lemma {:induction false} StoppingStarsKeepSlashes(p: string, k: string)
    requires Wildcard(p, k, false)
    ensures Wildcard(p, k, true) && Count(p, '/') == Count(k, '/')
    decreases |p| + |k|
  {
    if p != "" {
      if p[0] == '*' {
        if Wildcard(p[1..], k, false) {
          StoppingStarsKeepSlashes(p[1..], k);
        } else {
          StoppingStarsKeepSlashes(p, k[1..]);
        }
      } else {
        StoppingStarsKeepSlashes(p[1..], k[1..]);
      }
    }
  }

  // The equality shortcut, the star test and the slash count together amount
  // to one wildcard match whose stars stop at '/', whichever separator the
  // platform's filepath.Match has.
  lemma MatchIsPortable(path: string, key: string, crossing: bool)
    ensures MatchOn(path, key, crossing) <==> Wildcard(path, key, false)
  {
    if path == key {
      WildcardReflexive(path);
    } else if '*' !in path {
      StarFreeWildcard(path, key);
    } else {
      if Wildcard(path, key, true) && Count(path, '/') == Count(key, '/') {
        EqualSlashesStopStars(path, key);
      }
      if Wildcard(path, key, false) {
        StoppingStarsKeepSlashes(path, key);
      }
    }
  }

  lemma {:induction false} WildcardBySegments(p: string, k: string)
    ensures Wildcard(p, k, false) <==> SegmentsMatch(Split(p), Split(k))
    decreases |p| + |k|
  {
    var ps, ks := Split(p), Split(k);
    if k != "" {
      assert Split(k) == if k[0] == '/' then [""] + Split(k[1..])
                         else [[k[0]] + Split(k[1..])[0]] + Split(k[1..])[1..];
    }
    if p == "" {
      if k != "" && |ks| == 1 {
        assert !Wildcard(ps[0], ks[0], false);
      }
    } else {
      var rest := Split(p[1..]);
      if p[0] == '/' {
        if k != "" && k[0] == '/' {
          WildcardBySegments(p[1..], k[1..]);
          TailsMatch(ps, ks);
        } else if |ks| == |ps| {
          assert !Wildcard(ps[0], ks[0], false);
        }
      } else {
        assert ps[0][1..] == rest[0] && ps[1..] == rest[1..];
        HeadAndTailMatch(ps, ks);
        HeadAndTailMatch(rest, ks);
        if p[0] == '*' {
          WildcardBySegments(p[1..], k);
        }
        if k != "" && k[0] != '/' {
          var below := Split(k[1..]);
          assert ks[0][1..] == below[0] && ks[1..] == below[1..];
          HeadAndTailMatch(ps, below);
          HeadAndTailMatch(rest, below);
          if p[0] == '*' {
            WildcardBySegments(p, k[1..]);
          } else {
            WildcardBySegments(p[1..], k[1..]);
          }
        }
      }
    }
  }

  lemma HeadAndTailMatch(ps: seq<string>, ks: seq<string>)
    requires ps != [] && ks != []
    ensures SegmentsMatch(ps, ks) <==> Wildcard(ps[0], ks[0], false) && SegmentsMatch(ps[1..], ks[1..])
  {
    if Wildcard(ps[0], ks[0], false) && SegmentsMatch(ps[1..], ks[1..]) {
      forall i | 0 <= i < |ps| ensures Wildcard(ps[i], ks[i], false) {
        if i > 0 {
          assert ps[i] == ps[1..][i - 1] && ks[i] == ks[1..][i - 1];
        }
      }
    }
  }

  lemma TailsMatch(ps: seq<string>, ks: seq<string>)
    requires ps != [] && ks != [] && ps[0] == "" && ks[0] == ""
    ensures SegmentsMatch(ps, ks) <==> SegmentsMatch(ps[1..], ks[1..])
  {
    HeadAndTailMatch(ps, ks);
  }

  lemma MatchBySegments(path: string, key: string, crossing: bool)
    ensures MatchOn(path, key, crossing) <==> SegmentsMatch(Split(path), Split(key))
  {
    MatchIsPortable(path, key, crossing);
    WildcardBySegments(path, key);
  }

  // ----------------------------------------------------------- partial order

  lemma {:induction false} WildcardTransitive(p: string, q: string, k: string)
    requires Wildcard(p, q, false) && Wildcard(q, k, false)
    ensures Wildcard(p, k, false)
    decreases |p| + |q| + |k|
  {
    if p != "" {
      if p[0] == '*' {
        if Wildcard(p[1..], q, false) {
          WildcardTransitive(p[1..], q, k);
        } else if q[0] == '*' {
          if Wildcard(q[1..], k, false) {
            WildcardTransitive(p, q[1..], k);
          } else {
            WildcardTransitive(p, q, k[1..]);
          }
        } else {
          WildcardTransitive(p, q[1..], k[1..]);
        }
      } else {
        WildcardTransitive(p[1..], q[1..], k[1..]);
      }
    }
  }

  // strings.Contains(s, "cc") is false.
  predicate NoPair(s: string, c: char) {
    forall i :: 0 < i < |s| ==> s[i] != c || s[i - 1] != c
  }

  function Literals(s: string): nat {
    if s == "" then 0 else (if s[0] == '*' then 0 else 1) + Literals(s[1..])
  }

  lemma {:induction false} LiteralsGrow(p: string, q: string)
    requires Wildcard(p, q, false)
    ensures Literals(p) <= Literals(q)
    decreases |p| + |q|
  {
    if p != "" {
      if p[0] == '*' {
        if Wildcard(p[1..], q, false) {
          LiteralsGrow(p[1..], q);
        } else {
          LiteralsGrow(p, q[1..]);
        }
      } else {
        LiteralsGrow(p[1..], q[1..]);
      }
    }
  }

  // With as many literals on both sides, a star of p can only cover stars of
  // q, and without "**" at most one of them.
  lemma {:induction false} EqualLiteralsShrink(p: string, q: string)
    requires Wildcard(p, q, false) && Literals(p) == Literals(q) && NoPair(q, '*')
    ensures |q| <= |p|
    ensures |q| == |p| ==> q == p
    decreases |p| + |q|
  {
    if p != "" {
      if p[0] == '*' {
        if Wildcard(p[1..], q, false) {
          EqualLiteralsShrink(p[1..], q);
        } else {
          LiteralsGrow(p, q[1..]);
          assert q[0] == '*';
          if !Wildcard(p[1..], q[1..], false) {
            LiteralsGrow(p, q[1..][1..]);
            assert false;
          }
          EqualLiteralsShrink(p[1..], q[1..]);
          assert p == [p[0]] + p[1..] && q == [q[0]] + q[1..];
        }
      } else {
        EqualLiteralsShrink(p[1..], q[1..]);
        assert p == [p[0]] + p[1..] && q == [q[0]] + q[1..];
      }
    }
  }

  lemma MatchReflexive(p: string, crossing: bool)
    ensures MatchOn(p, p, crossing) && Wildcard(p, p, false)
  {
    WildcardReflexive(p);
  }

  // Pattern subsumption is sound: if p matches q read as a literal, p matches
  // all that q matches.
  lemma MatchTransitive(p: string, q: string, k: string, crossing: bool)
    requires MatchOn(p, q, crossing) && MatchOn(q, k, crossing)
    ensures MatchOn(p, k, crossing)
  {
    MatchIsPortable(p, q, crossing);
    MatchIsPortable(q, k, crossing);
    MatchIsPortable(p, k, crossing);
    WildcardTransitive(p, q, k);
  }

  lemma MatchAntisymmetric(p: string, q: string, crossing: bool)
    requires IsValid(p) && IsValid(q)
    requires MatchOn(p, q, crossing) && MatchOn(q, p, crossing)
    ensures p == q
  {
    MatchIsPortable(p, q, crossing);
    MatchIsPortable(q, p, crossing);
    LiteralsGrow(p, q);
    LiteralsGrow(q, p);
    EqualLiteralsShrink(p, q);
    EqualLiteralsShrink(q, p);
  }

  // What antisymmetry costs without the "**" test.
  lemma DoubleStarBreaksAntisymmetry()
    ensures Match("a*", "a**") && Match("a**", "a*") && !IsValid("a**")
  {
    assert Wildcard("a*", "a**", false) by {
      assert "a*"[1..] == "*" && "a**"[1..] == "**" && "**"[1..] == "*" && "*"[1..] == "";
      assert Wildcard("*", "", false);
      assert Wildcard("*", "*", false);
    }
    assert Wildcard("a**", "a*", false) by {
      assert "a**"[1..] == "**" && "a*"[1..] == "*" && "**"[1..] == "*";
      assert Wildcard("*", "*", false) by { WildcardReflexive("*"); }
    }
    MatchIsPortable("a*", "a**", false);
    MatchIsPortable("a**", "a*", false);
    assert "a**"[2] == '*' && "a**"[2 - 1] == '*';
  }

  // --------------------------------------------------------------- validity

  predicate KeyChar(c: char) {
    'a' <= c <= 'z' || 'A' <= c <= 'Z' || '0' <= c <= '9' || c == '*'
  }

  // GlobRegex.  Its second alternative needs at least three characters, so a
  // key of exactly two characters is rejected.
  predicate MatchesGlobRegex(key: string) {
    || (|key| == 1 && KeyChar(key[0]))
    || (|key| >= 3 && KeyChar(key[0]) && KeyChar(key[|key| - 1])
        && forall i :: 0 < i < |key| - 1 ==> KeyChar(key[i]) || key[i] == '/')
  }

  predicate IsValid(key: string) {
    NoPair(key, '/') && NoPair(key, '*') && MatchesGlobRegex(key)
  }

  // There are valid keys of every length but none and two.
  lemma ValidLengths(n: nat)
    ensures (exists key :: IsValid(key) && |key| == n) <==> n == 1 || n >= 3
  {
    var plain := seq(n, _ => 'a');
    if n == 1 || n >= 3 {
      assert NoPair(plain, '/') && NoPair(plain, '*');
      assert IsValid(plain) && |plain| == n;
    }
  }

  // The key test of a publish: valid, and at most one star, at the end.
  predicate Admissible(key: string) {
    IsValid(key) && Count(key, '*') <= 1 && (Count(key, '*') == 1 ==> key[|key| - 1] == '*')
  }

  lemma {:induction false} CountZero(s: string, c: char)
    ensures Count(s, c) == 0 <==> c !in s
  {
    if s != "" {
      CountZero(s[1..], c);
      assert s == [s[0]] + s[1..];
    }
  }

  lemma {:induction false} CountAppend(s: string, t: string, c: char)
    ensures Count(s + t, c) == Count(s, c) + Count(t, c)
  {
    if s == "" {
      assert s + t == t;
    } else {
      CountAppend(s[1..], t, c);
      assert (s + t)[1..] == s[1..] + t;
    }
  }

  // Admissible keys are the valid ones that are star-free or a star-free prefix
  // and one final star.
  lemma AdmissibleShape(p: string)
    ensures Admissible(p) <==> IsValid(p) && ('*' !in p || (p[|p| - 1] == '*' && '*' !in p[..|p| - 1]))
  {
    CountZero(p, '*');
    if '*' in p {
      var u, last := p[..|p| - 1], p[|p| - 1];
      assert p == u + [last];
      CountAppend(u, [last], '*');
      CountZero(u, '*');
      assert Count([last], '*') == if last == '*' then 1 else 0 by { assert [last][1..] == ""; }
    }
  }

  lemma SegmentsOf(s: string)
    requires s != ""
    ensures var rest := Split(s[1..]); Split(s) == if s[0] == '/' then [""] + rest else [[s[0]] + rest[0]] + rest[1..]
  {
  }

  // Where the segments of a text are empty: at its ends and between two slashes.
  lemma {:induction false} NoEmptySegment(s: string)
    ensures "" !in Split(s)[1..] <==> NoPair(s, '/') && (s != "" ==> s[|s| - 1] != '/')
    ensures Split(s)[0] == "" <==> s == "" || s[0] == '/'
    decreases |s|
  {
    if s != "" {
      var rest := Split(s[1..]);
      SegmentsOf(s);
      NoEmptySegment(s[1..]);
      assert rest == [rest[0]] + rest[1..];
      assert Split(s)[1..] == if s[0] == '/' then rest else rest[1..];
      PairHeadAndTail(s, '/');
    }
  }

  lemma PairHeadAndTail(s: string, c: char)
    requires s != ""
    ensures NoPair(s, c) <==> NoPair(s[1..], c) && !(|s| > 1 && s[0] == c && s[1] == c)
  {
    if NoPair(s[1..], c) && !(|s| > 1 && s[0] == c && s[1] == c) {
      forall i | 0 < i < |s| ensures s[i] != c || s[i - 1] != c {
        assert i > 1 ==> s[1..][i - 1] == s[i] && s[1..][i - 1 - 1] == s[i - 1];
      }
    }
    if NoPair(s, c) {
      forall i | 0 < i < |s[1..]| ensures s[1..][i] != c || s[1..][i - 1] != c {
        assert s[i + 1] != c || s[i + 1 - 1] != c;
      }
    }
  }

  // What the two containment tests and the regular expression come to: segments
  // of letters, digits and stars, none of them empty and no two stars in a row,
  // but not two characters in all.
  lemma ValidBySegments(key: string)
    ensures IsValid(key) <==>
      && |key| != 2 && "" !in Split(key) && NoPair(key, '*')
      && forall c <- key :: 'a' <= c <= 'z' || 'A' <= c <= 'Z' || '0' <= c <= '9' || c == '*' || c == '/'
  {
    NoEmptySegment(key);
    assert Split(key) == [Split(key)[0]] + Split(key)[1..];
    RegexIs(key);
  }

  lemma RegexIs(key: string)
    ensures MatchesGlobRegex(key) <==>
      && key != "" && |key| != 2 && key[0] != '/' && key[|key| - 1] != '/'
      && forall c <- key :: 'a' <= c <= 'z' || 'A' <= c <= 'Z' || '0' <= c <= '9' || c == '*' || c == '/'
  {
    if MatchesGlobRegex(key) {
      forall c | c in key ensures KeyChar(c) || c == '/' {
        var i :| 0 <= i < |key| && key[i] == c;
      }
    }
    if forall c <- key :: KeyChar(c) || c == '/' {
      forall i | 0 <= i < |key| ensures KeyChar(key[i]) || key[i] == '/' {
        assert key[i] in key;
      }
    }
  }

  // -------------------------------------------------------- peer completeness

  // Whether two patterns have a key in common.
  predicate Overlap(p: string, q: string)
    decreases |p| + |q|
  {
    if p == "" && q == "" then true
    else if p != "" && p[0] == '*' then
      || Overlap(p[1..], q)
      || (q != "" && q[0] != '/' && Overlap(p, q[1..]))
    else if q != "" && q[0] == '*' then
      || Overlap(p, q[1..])
      || (p != "" && p[0] != '/' && Overlap(p[1..], q))
    else
      p != "" && q != "" && p[0] == q[0] && Overlap(p[1..], q[1..])
  }

  lemma PrependToStar(p: string, c: char, k: string)
    requires p != "" && p[0] == '*' && c != '/' && Wildcard(p, k, false)
    ensures Wildcard(p, [c] + k, false)
  {
    assert ([c] + k)[1..] == k;
  }

  lemma {:induction false} OverlapHasKey(p: string, q: string) returns (k: string)
    requires Overlap(p, q)
    ensures Wildcard(p, k, false) && Wildcard(q, k, false)
    decreases |p| + |q|
  {
    if p == "" && q == "" {
      k := "";
    } else if p != "" && p[0] == '*' {
      if Overlap(p[1..], q) {
        k := OverlapHasKey(p[1..], q);
      } else {
        k := OverlapHasKey(p, q[1..]);
        if q[0] != '*' {
          PrependToStar(p, q[0], k);
          k := [q[0]] + k;
          assert k[1..] == k[1..];
        }
      }
    } else if q != "" && q[0] == '*' {
      if Overlap(p, q[1..]) {
        k := OverlapHasKey(p, q[1..]);
      } else {
        k := OverlapHasKey(p[1..], q);
        PrependToStar(q, p[0], k);
        k := [p[0]] + k;
      }
    } else {
      k := OverlapHasKey(p[1..], q[1..]);
      k := [p[0]] + k;
    }
  }

  lemma {:induction false} CommonKeyOverlaps(p: string, q: string, k: string)
    requires Wildcard(p, k, false) && Wildcard(q, k, false)
    ensures Overlap(p, q)
    decreases |p| + |q| + |k|
  {
    if p != "" && p[0] == '*' {
      if Wildcard(p[1..], k, false) {
        CommonKeyOverlaps(p[1..], q, k);
      } else if q[0] == '*' {
        if Wildcard(q[1..], k, false) {
          CommonKeyOverlaps(p, q[1..], k);
        } else {
          CommonKeyOverlaps(p, q, k[1..]);
        }
      } else {
        CommonKeyOverlaps(p, q[1..], k[1..]);
      }
    } else if q != "" && q[0] == '*' {
      if Wildcard(q[1..], k, false) {
        CommonKeyOverlaps(p, q[1..], k);
      } else {
        CommonKeyOverlaps(p[1..], q, k[1..]);
      }
    } else if p != "" {
      CommonKeyOverlaps(p[1..], q[1..], k[1..]);
    }
  }

  // Overlap decides exactly whether some key matches both patterns.
  lemma OverlapIffCommonKey(p: string, q: string)
    ensures Overlap(p, q) <==> exists k :: Match(p, k) && Match(q, k)
  {
    if Overlap(p, q) {
      var k := OverlapHasKey(p, q);
      MatchIsPortable(p, k, false);
      MatchIsPortable(q, k, false);
      assert Match(p, k) && Match(q, k);
    }
    if k :| Match(p, k) && Match(q, k) {
      MatchIsPortable(p, k, false);
      MatchIsPortable(q, k, false);
      CommonKeyOverlaps(p, q, k);
    }
  }

  // Peering patterns always have a key in common: the subsumed one itself.
  lemma PeersOverlap(p: string, q: string)
    requires Peer(p, q)
    ensures Overlap(p, q)
  {
    WildcardReflexive(p);
    WildcardReflexive(q);
    MatchIsPortable(p, q, false);
    MatchIsPortable(q, p, false);
    if Match(p, q) {
      CommonKeyOverlaps(p, q, q);
    } else {
      CommonKeyOverlaps(p, q, p);
    }
  }

  // A pattern u* matches exactly the names u + t with no slash in t.
  lemma {:induction false} TrailingStar(u: string, k: string)
    requires '*' !in u
    ensures Wildcard(u + "*", k, false) <==> u <= k && '/' !in k[|u|..]
    decreases |u| + |k|
  {
    if u == "" {
      assert u + "*" == "*" && "*"[1..] == "";
      if k != "" {
        TrailingStar(u, k[1..]);
        assert k == [k[0]] + k[1..];
      }
    } else {
      assert (u + "*")[1..] == u[1..] + "*";
      if k != "" {
        TrailingStar(u[1..], k[1..]);
        assert u == [u[0]] + u[1..] && k == [k[0]] + k[1..];
        if u <= k {
          assert k[1..][|u[1..]|..] == k[|u|..];
        }
      }
    }
  }

  lemma PrefixStarsPeer(u: string, v: string, k: string)
    requires '*' !in u && '*' !in v && |u| <= |v|
    requires Match(u + "*", k) && Match(v + "*", k)
    ensures Match(u + "*", v + "*")
  {
    MatchIsPortable(u + "*", k, false);
    MatchIsPortable(v + "*", k, false);
    MatchIsPortable(u + "*", v + "*", false);
    TrailingStar(u, k);
    TrailingStar(v, k);
    TrailingStar(u, v + "*");
    assert u == k[..|u|] && v == k[..|v|];
    assert u <= v + "*";
    forall i | |u| <= i < |v + "*"| ensures (v + "*")[i] != '/' {
      if i < |v| {
        assert (v + "*")[i] == k[|u|..][i - |u|];
      }
    }
  }

  lemma AdmissibleStarsPeer(p: string, q: string, k: string)
    requires Admissible(p) && Admissible(q) && '*' in p && '*' in q && Match(p, k) && Match(q, k)
    ensures Peer(p, q)
  {
    AdmissibleShape(p);
    AdmissibleShape(q);
    var u, v := p[..|p| - 1], q[..|q| - 1];
    assert p == u + "*" && q == v + "*";
    if |u| <= |v| {
      PrefixStarsPeer(u, v, k);
    } else {
      PrefixStarsPeer(v, u, k);
    }
  }

  // Within the class that publish admits, two patterns with a key in common
  // always peer, so the broadcast of one reaches a pool on the other.
  lemma AdmissiblePeersComplete(p: string, q: string)
    requires Admissible(p) && Admissible(q)
    ensures Peer(p, q) <==> Overlap(p, q)
    ensures Peer(p, q) <==> exists k :: Match(p, k) && Match(q, k)
  {
    OverlapIffCommonKey(p, q);
    if Peer(p, q) {
      PeersOverlap(p, q);
    }
    if Overlap(p, q) {
      var k :| Match(p, k) && Match(q, k);
      if '*' in p && '*' in q {
        AdmissibleStarsPeer(p, q, k);
      }
    }
  }

  // A write to a single key reaches every pool that sees the key, whatever
  // the pool's pattern.
  lemma WriteReachesEveryViewer(pool: string, key: string)
    requires Match(pool, key)
    ensures Peer(pool, key) && Peer(key, pool)
  {
  }

  lemma {:induction false} LiteralEndIsKept(p: string, k: string)
    requires Wildcard(p, k, false) && p != "" && p[|p| - 1] != '*'
    ensures k != "" && k[|k| - 1] == p[|p| - 1]
    decreases |p| + |k|
  {
    if p[0] == '*' {
      if Wildcard(p[1..], k, false) {
        LiteralEndIsKept(p[1..], k);
      } else {
        LiteralEndIsKept(p, k[1..]);
      }
    } else if |p| > 1 {
      LiteralEndIsKept(p[1..], k[1..]);
    }
  }

  // Outside that class the equivalence fails: crossing globs share a key and
  // do not peer.
  lemma CrossingGlobsDoNotPeer()
    ensures IsValid("*/b") && IsValid("a/*")
    ensures Match("*/b", "a/b") && Match("a/*", "a/b") && !Peer("*/b", "a/*")
  {
    MatchIsPortable("*/b", "a/b", false);
    MatchIsPortable("a/*", "a/b", false);
    MatchIsPortable("*/b", "a/*", false);
    MatchIsPortable("a/*", "*/b", false);
    if Wildcard("*/b", "a/*", false) {
      LiteralEndIsKept("*/b", "a/*");
    }
    WildcardReflexive("/b");
    assert "a/b"[1..] == "/b" && "*/b"[1..] == "/b";
    assert Wildcard("*/b", "/b", false);
    TrailingStar("a/", "a/b");
    assert "a/" + "*" == "a/*";
  }

  // -------------------------------------------------------- timestamped keys

  // What follows the last '/', or everything when there is none.
  function LastIndex(key: string): string {
    if key == "" then ""
    else if key[|key| - 1] == '/' then ""
    else LastIndex(key[..|key| - 1]) + [key[|key| - 1]]
  }

  // strings.Replace(s, "/*", with, 1).
  function ReplaceFirstStar(s: string, with: string): string {
    if |s| < 2 then s
    else if s[0] == '/' && s[1] == '*' then with + s[2..]
    else [s[0]] + ReplaceFirstStar(s[1..], with)
  }

  function Build(key: string, now: int): string {
    if '*' !in key then key
    else ReplaceFirstStar(key, "/" + Numerals.FormatInt(now))
  }

  function Decode(key: string): int {
    match Numerals.ParseInt(key)
    case None => 0
    case Some(v) => v
  }

  // What is no number in base 16 counts as time 0.
  lemma NotATime(s: string, i: nat)
    requires 0 < i < |s| && !Numerals.IsHexDigit(s[i])
    ensures Decode(s) == 0
  {
    assert s[1..][i - 1] == s[i];
  }

  lemma {:induction false} ReplaceFinalStar(u: string, with: string)
    requires '*' !in u
    ensures ReplaceFirstStar(u + "/*", with) == u + with
  {
    if u == "" {
      assert u + "/*" == "/*" && "/*"[2..] == "" && u + with == with && with + "" == with;
    } else {
      assert (u + "/*")[1..] == u[1..] + "/*";
      ReplaceFinalStar(u[1..], with);
      assert u + with == [u[0]] + (u[1..] + with);
    }
  }

  lemma {:induction false} LastIndexAfterSlash(u: string, t: string)
    requires '/' !in t
    ensures LastIndex(u + "/" + t) == t
  {
    var s := u + "/" + t;
    if t != "" {
      LastIndexAfterSlash(u, t[..|t| - 1]);
      assert s[..|s| - 1] == u + "/" + t[..|t| - 1];
      assert t == t[..|t| - 1] + [t[|t| - 1]];
    }
  }

  // A publish to u/* at time now.
  lemma BuildAtFinalStar(u: string, now: int)
    requires '*' !in u
    ensures Build(u + "/*", now) == u + "/" + Numerals.FormatInt(now)
  {
    ReplaceFinalStar(u, "/" + Numerals.FormatInt(now));
    assert (u + "/*")[|u| + 1] == '*';
    assert u + ("/" + Numerals.FormatInt(now)) == u + "/" + Numerals.FormatInt(now);
  }

  lemma HexIsKeyText(now: nat)
    ensures var t := Numerals.FormatInt(now);
      t != "" && '*' !in t && '/' !in t && forall i :: 0 <= i < |t| ==> KeyChar(t[i])
  {
    Numerals.FormatNatDigits(now);
  }

  lemma BuiltKeyIsValid(u: string, t: string)
    requires IsValid(u + "/*") && '*' !in u
    requires t != "" && '*' !in t && '/' !in t && forall i :: 0 <= i < |t| ==> KeyChar(t[i])
    ensures IsValid(u + "/" + t)
  {
    var p, s := u + "/*", u + "/" + t;
    assert forall i :: 0 <= i <= |u| ==> s[i] == p[i];
    assert forall i :: |u| < i < |s| ==> s[i] == t[i - |u| - 1];
    assert KeyChar(p[0]) && u != "";
    forall i | 0 < i < |s| ensures (s[i] != '/' || s[i - 1] != '/') && (s[i] != '*' || s[i - 1] != '*') {
      if i <= |u| {
        assert p[i] != '/' || p[i - 1] != '/';
        assert s[i - 1] == u[i - 1];
      }
    }
    assert s[|s| - 1] == t[|t| - 1];
  }

  // The whole life of a published list entry: the built key is valid and
  // star-free, belongs to the published path, and gives the time back.
  lemma PublishedKeyRoundTrip(u: string, now: int)
    requires '*' !in u && IsValid(u + "/*")
    requires 0 <= now < Numerals.TWO_63
    ensures var k := Build(u + "/*", now);
      IsValid(k) && '*' !in k && Match(u + "/*", k) && Decode(LastIndex(k)) == now
  {
    var t := Numerals.FormatInt(now);
    BuildAtFinalStar(u, now);
    HexIsKeyText(now);
    BuiltKeyIsValid(u, t);
    LastIndexAfterSlash(u, t);
    Numerals.ParseFormatInt(now);
    var k := u + "/" + t;
    assert u + "/*" == (u + "/") + "*";
    assert '*' !in u + "/";
    TrailingStar(u + "/", k);
    assert k[|u + "/"|..] == t;
    MatchIsPortable(u + "/*", k, false);
  }

  // Two publishes to the same path collide exactly when they share a time.
  lemma BuildInjective(u: string, now: int, later: int)
    requires '*' !in u
    ensures Build(u + "/*", now) == Build(u + "/*", later) <==> now == later
  {
    BuildAtFinalStar(u, now);
    BuildAtFinalStar(u, later);
    if Build(u + "/*", now) == Build(u + "/*", later) {
      var s, t := Numerals.FormatInt(now), Numerals.FormatInt(later);
      assert (u + "/" + s)[|u| + 1..] == s && (u + "/" + t)[|u| + 1..] == t;
      Numerals.FormatIntInjective(now, later);
    }
  }

  lemma {:induction false} ReplacingShows(s: string, t: string)
    requires exists i :: 0 <= i < |s| - 1 && s[i] == '/' && s[i + 1] == '*'
    requires t != "" && t[0] != '*'
    ensures ReplaceFirstStar(s, "/" + t) != s
  {
    if s[0] == '/' && s[1] == '*' {
      assert ReplaceFirstStar(s, "/" + t)[1] == t[0];
    } else {
      var i :| 0 <= i < |s| - 1 && s[i] == '/' && s[i + 1] == '*';
      assert s[1..][i - 1] == '/' && s[1..][i - 1 + 1] == '*';
      ReplacingShows(s[1..], t);
      assert ReplaceFirstStar(s, "/" + t)[1..] == ReplaceFirstStar(s[1..], "/" + t);
    }
  }

  // A path is its own key exactly when no star of it follows a slash: always when
  // it has no star at all.
  lemma BuildKeepsIff(key: string, now: nat)
    ensures Build(key, now) == key <==> !exists i :: 0 <= i < |key| - 1 && key[i] == '/' && key[i + 1] == '*'
    ensures '*' !in key ==> Build(key, now) == key
  {
    var t := Numerals.FormatInt(now);
    HexIsKeyText(now);
    if i :| 0 <= i < |key| - 1 && key[i] == '/' && key[i + 1] == '*' {
      ReplacingShows(key, t);
    } else {
      NothingToReplace(key, "/" + t);
    }
  }

  // Admission is not enough for the round trip: an admissible path whose star
  // does not stand alone after a slash is stored under its own pattern.
  lemma BuildKeepsAttachedStar(u: string, now: int)
    requires '*' !in u && (u == "" || u[|u| - 1] != '/')
    ensures Build(u + "*", now) == u + "*"
  {
    NothingToReplace(u + "*", "/" + Numerals.FormatInt(now));
  }

  // An admissible pattern gets a fresh key exactly when its star stands alone.
  lemma BuildFreshIffStarAlone(u: string, now: int)
    requires '*' !in u && IsValid(u + "*") && 0 <= now < Numerals.TWO_63
    ensures '*' !in Build(u + "*", now) <==> u != "" && u[|u| - 1] == '/'
  {
    if u != "" && u[|u| - 1] == '/' {
      var v := u[..|u| - 1];
      assert u + "*" == v + "/*";
      PublishedKeyRoundTrip(v, now);
    } else {
      BuildKeepsAttachedStar(u, now);
      assert (u + "*")[|u|] == '*';
    }
  }

  lemma {:induction false} NothingToReplace(s: string, with: string)
    requires forall i :: 0 <= i < |s| - 1 ==> !(s[i] == '/' && s[i + 1] == '*')
    ensures ReplaceFirstStar(s, with) == s
  {
    if |s| >= 2 {
      assert !(s[0] == '/' && s[0 + 1] == '*');
      forall i | 0 <= i < |s[1..]| - 1 ensures !(s[1..][i] == '/' && s[1..][i + 1] == '*') {
        assert !(s[i + 1] == '/' && s[i + 1 + 1] == '*');
      }
      NothingToReplace(s[1..], with);
    }
  }
}
