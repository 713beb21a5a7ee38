/** Interface-name patterns: the backtracking loop of `glob_match`, what it
    accepts on every input, and exactly when that is the documented meaning. */
module Glob {

  type Text = seq<char>

  /** The documented meaning: `*` stands for any run of characters, `?` for
      exactly one, and everything else for itself. */
  predicate Matches(p: Text, n: Text) {
    if p == [] then n == []
    else if p[0] == '*' then
      exists k :: 0 <= k <= |n| && Matches(p[1..], n[k..])
    else
      n != [] && (p[0] == '?' || p[0] == n[0]) && Matches(p[1..], n[1..])
  }

  /** What the loop accepts: as `Matches`, except that a `*` in the pattern
      that faces a `*` in the name is spent on that one character. */
  predicate Accepts(p: Text, n: Text) {
    if p == [] then n == []
    else if n != [] && (p[0] == '?' || p[0] == n[0]) then Accepts(p[1..], n[1..])
    else if p[0] == '*' then
      exists k :: 0 <= k <= |n| && Accepts(p[1..], n[k..])
    else false
  }

  /** Some position at or after `from` accepts `p`. */
  predicate AcceptsFrom(p: Text, n: Text, from: nat) {
    exists k :: from <= k <= |n| && Accepts(p, n[k..])
  }

  /** A stretch of pattern that the loop has matched one character each. */
  ghost predicate Stepped(seg: Text, n: Text, at: nat) {
    at + |seg| <= |n| &&
    forall i :: 0 <= i < |seg| ==> seg[i] == '?' || seg[i] == n[at + i]
  }

  /** One-for-one stretches do not change what is accepted. */
  lemma {:induction false} SteppedAccepts(seg: Text, rest: Text, n: Text, at: nat)
    requires Stepped(seg, n, at)
    ensures Accepts(seg + rest, n[at..]) == Accepts(rest, n[at + |seg|..])
    decreases |seg|
  {
    if seg == [] {
      assert seg + rest == rest;
    } else {
      assert (seg + rest)[1..] == seg[1..] + rest;
      assert n[at..][1..] == n[at + 1..];
      assert (seg + rest)[0] == seg[0] && n[at..][0] == n[at + 0];
      assert forall i :: 0 <= i < |seg[1..]| ==> seg[1..][i] == seg[i + 1];
      SteppedAccepts(seg[1..], rest, n, at + 1);
    }
  }

  /** A stretch matched one for one at `at` cannot be passed earlier when it
      is tried again from any later position. */
  lemma {:induction false} NotEarlier(seg: Text, rest: Text, n: Text, at: nat, k: nat)
    requires Stepped(seg, n, at)
    requires at <= k <= |n| && Accepts(seg + rest, n[k..])
    ensures AcceptsFrom(rest, n, at + |seg|)
    decreases |seg|
  {
    if seg == [] {
      assert seg + rest == rest;
    } else {
      var whole := seg + rest;
      assert whole[1..] == seg[1..] + rest;
      assert whole[0] == seg[0] && (seg[0] == '?' || seg[0] == n[at + 0]);
      assert forall i :: 0 <= i < |seg[1..]| ==> seg[1..][i] == seg[i + 1];
      var k' :| k <= k' <= |n| && (k == at ==> k' == k + 1) && Accepts(whole[1..], n[k'..]) by {
        if k < |n| && (whole[0] == '?' || whole[0] == n[k..][0]) {
          assert n[k..][1..] == n[k + 1..];
        } else {
          var j :| 0 <= j <= |n[k..]| && Accepts(whole[1..], n[k..][j..]);
          assert n[k..][j..] == n[k + j..];
        }
      }
      NotEarlier(seg[1..], rest, n, at + 1, k');
    }
  }

  /** A `*` reached at `at` where the name has none dominates every later try. */
  lemma StarDominates(p: Text, n: Text, at: nat)
    requires p != [] && p[0] == '*' && at < |n| && n[at] != '*'
    ensures Accepts(p, n[at..]) == AcceptsFrom(p, n, at)
    ensures Accepts(p, n[at..]) == AcceptsFrom(p[1..], n, at)
  {
    if k :| at <= k <= |n| && Accepts(p[1..], n[k..]) {
      assert n[at..][k - at..] == n[k..];
    }
    if Accepts(p, n[at..]) {
      var j :| 0 <= j <= |n[at..]| && Accepts(p[1..], n[at..][j..]);
      assert n[at..][j..] == n[at + j..];
    }
    if k :| at <= k <= |n| && Accepts(p, n[k..]) {
      if k < |n| && n[k] == '*' {
        assert n[k..][1..] == n[k + 1..];
      } else {
        var j :| 0 <= j <= |n[k..]| && Accepts(p[1..], n[k..][j..]);
        assert n[k..][j..] == n[k + j..];
      }
    }
  }

  /** What the loop knows between iterations: everything since the saved star
      (at `star`, or none when -1) was matched one for one from `resume`, and
      what is left to decide is equivalent to the whole question. */
  ghost predicate Searching(p: Text, n: Text, pi: nat, ni: nat, star: int, resume: nat) {
    -1 <= star < pi <= |p| && resume <= ni <= |n| &&
    (star >= 0 ==> p[star] == '*') &&
    ni - resume == pi - star - 1 &&
    Stepped(p[star + 1..pi], n, resume) &&
    (star < 0 ==> resume == 0) &&
    (star >= 0 ==> Accepts(p, n) == AcceptsFrom(p[star + 1..], n, resume))
  }

  /** The attempt in progress and, with a star saved, what failing it leaves. */
  lemma Attempt(p: Text, n: Text, pi: nat, ni: nat, star: int, resume: nat)
    requires Searching(p, n, pi, ni, star, resume)
    ensures Accepts(p[star + 1..], n[resume..]) == Accepts(p[pi..], n[ni..])
    ensures star < 0 ==> Accepts(p, n) == Accepts(p[pi..], n[ni..])
    ensures star >= 0 && Accepts(p, n) ==> AcceptsFrom(p[pi..], n, ni)
    ensures star >= 0 && Accepts(p[pi..], n[ni..]) ==> Accepts(p, n)
  {
    var seg := p[star + 1..pi];
    assert p[star + 1..] == seg + p[pi..];
    SteppedAccepts(seg, p[pi..], n, resume);
    if star < 0 {
      assert p[star + 1..] == p && n[resume..] == n;
    } else if k :| resume <= k <= |n| && Accepts(p[star + 1..], n[k..]) {
      NotEarlier(seg, p[pi..], n, resume, k);
    }
  }

  lemma TakeOne(p: Text, n: Text, pi: nat, ni: nat, star: int, resume: nat)
    requires Searching(p, n, pi, ni, star, resume)
    requires pi < |p| && ni < |n| && (p[pi] == '?' || p[pi] == n[ni])
    ensures Searching(p, n, pi + 1, ni + 1, star, resume)
  {
    assert p[star + 1..pi + 1] == p[star + 1..pi] + [p[pi]];
  }

  lemma SaveStar(p: Text, n: Text, pi: nat, ni: nat, star: int, resume: nat)
    requires Searching(p, n, pi, ni, star, resume)
    requires pi < |p| && ni < |n| && p[pi] == '*' && n[ni] != '*'
    ensures Searching(p, n, pi + 1, ni, pi, ni)
  {
    Attempt(p, n, pi, ni, star, resume);
    StarDominates(p[pi..], n, ni);
    assert p[pi..][1..] == p[pi + 1..];
  }

  lemma BackToStar(p: Text, n: Text, pi: nat, ni: nat, star: int, resume: nat)
    requires Searching(p, n, pi, ni, star, resume)
    requires star >= 0 && ni < |n|
    requires !Accepts(p[pi..], n[ni..])
    ensures Searching(p, n, star + 1, resume + 1, star, resume + 1)
  {
    Attempt(p, n, pi, ni, star, resume);
    assert AcceptsFrom(p[star + 1..], n, resume) == AcceptsFrom(p[star + 1..], n, resume + 1);
  }

  /** The loop, with its saved star and resume position. It terminates, and
      its answer is `Accepts`. */
  method GlobMatch(p: Text, n: Text) returns (b: bool)
    ensures b == Accepts(p, n)
  {
    var pi, ni: nat := 0, 0;
    var star, resume: nat := -1, 0;
    while ni < |n|
      invariant Searching(p, n, pi, ni, star, resume)
      decreases |p| - star, |n| - resume, |p| - pi
    {
      if pi < |p| && (p[pi] == '?' || p[pi] == n[ni]) {
        TakeOne(p, n, pi, ni, star, resume);
        pi, ni := pi + 1, ni + 1;
      } else if pi < |p| && p[pi] == '*' {
        SaveStar(p, n, pi, ni, star, resume);
        star, resume, pi := pi, ni, pi + 1;
      } else {
        assert !Accepts(p[pi..], n[ni..]);
        if star >= 0 {
          BackToStar(p, n, pi, ni, star, resume);
          pi, resume := star + 1, resume + 1;
          ni := resume;
        } else {
          Attempt(p, n, pi, ni, star, resume);
          return false;
        }
      }
    }
    b := forall i :: pi <= i < |p| ==> p[i] == '*';
    Attempt(p, n, pi, ni, star, resume);
    OnlyStars(p[pi..]);
    assert n[ni..] == [];
    assert forall i :: pi <= i < |p| ==> p[i] == p[pi..][i - pi];
  }

  /** The empty name is accepted exactly by a run of stars. */
  lemma {:induction false} OnlyStars(p: Text)
    ensures Accepts(p, []) <==> forall i :: 0 <= i < |p| ==> p[i] == '*'
  {
    if p != [] {
      OnlyStars(p[1..]);
      var e: Text := [];
      assert e[0..] == e;
      assert Accepts(p, []) <==> p[0] == '*' && Accepts(p[1..], []);
      assert forall i :: 0 < i < |p| ==> p[i] == p[1..][i - 1];
    }
  }

  /** The loop never accepts a name the documented meaning refuses. */
  lemma {:induction false} AcceptsIsSound(p: Text, n: Text)
    ensures Accepts(p, n) ==> Matches(p, n)
    decreases |p|
  {
    if p != [] && Accepts(p, n) {
      if n != [] && (p[0] == '?' || p[0] == n[0]) {
        AcceptsIsSound(p[1..], n[1..]);
      } else {
        var k :| 0 <= k <= |n| && Accepts(p[1..], n[k..]);
        AcceptsIsSound(p[1..], n[k..]);
      }
    }
  }

  /** On a name without a `*` the two meanings agree for every pattern. */
  lemma {:induction false} PlainNamesAgree(p: Text, n: Text)
    requires '*' !in n
    ensures Accepts(p, n) == Matches(p, n)
    decreases |p|
  {
    AcceptsIsSound(p, n);
    if p != [] && Matches(p, n) {
      if p[0] == '*' {
        var k :| 0 <= k <= |n| && Matches(p[1..], n[k..]);
        PlainNamesAgree(p[1..], n[k..]);
      } else {
        PlainNamesAgree(p[1..], n[1..]);
      }
    }
  }

  function AnyChars(k: nat): (q: Text)
    ensures |q| == k
  {
    seq(k, _ => '?')
  }

  lemma {:induction false} AnyCharsCount(k: nat, n: Text)
    ensures Matches(AnyChars(k), n) == Accepts(AnyChars(k), n) == (|n| == k)
    decreases k
  {
    if k > 0 {
      assert AnyChars(k)[1..] == AnyChars(k - 1);
      if n != [] {
        AnyCharsCount(k - 1, n[1..]);
      }
    }
  }

  /** A literal prefix of the name is passed the same way by both meanings. */
  lemma {:induction false} LiteralPrefix(lit: Text, rest: Text, n: Text)
    requires lit <= n && '*' !in lit
    ensures Matches(lit + rest, n) == Matches(rest, n[|lit|..])
    ensures Accepts(lit + rest, n) == Accepts(rest, n[|lit|..])
    decreases |lit|
  {
    if lit == [] {
      assert lit + rest == rest && n[0..] == n;
    } else {
      assert (lit + rest)[1..] == lit[1..] + rest;
      assert n[1..][|lit| - 1..] == n[|lit|..];
      assert lit[0] in lit;
      LiteralPrefix(lit[1..], rest, n[1..]);
    }
  }

  /** The index of the first `*`. */
  function FirstStar(n: Text): (i: nat)
    requires '*' in n
    ensures i < |n| && n[i] == '*' && '*' !in n[..i]
  {
    if n[0] == '*' then 0
    else
      var i := 1 + FirstStar(n[1..]);
      assert n[..i] == [n[0]] + n[1..][..i - 1];
      i
  }

  /** A pattern on which a name holding a `*` is wrongly refused. */
  function Trap(n: Text): Text
    requires '*' in n
  {
    n[..FirstStar(n)] + ("*" + AnyChars(|n| - FirstStar(n)))
  }

  lemma TrapDisagrees(n: Text)
    requires '*' in n
    ensures Matches(Trap(n), n) && !Accepts(Trap(n), n)
  {
    var i := FirstStar(n);
    var tail := "*" + AnyChars(|n| - i);
    LiteralPrefix(n[..i], tail, n);
    assert tail[1..] == AnyChars(|n| - i);
    var m := n[i..];
    assert m[0..] == m;
    AnyCharsCount(|n| - i, m);
    AnyCharsCount(|n| - i, m[1..]);
    assert Matches(tail, m);
  }

  /** The names on which `glob_match` has its documented meaning for every
      pattern are exactly the names without a `*`. */
  lemma DocumentedMeaningExactly(n: Text)
    ensures (forall p :: Accepts(p, n) == Matches(p, n)) <==> '*' !in n
  {
    if '*' in n {
      TrapDisagrees(n);
    } else {
      forall p ensures Accepts(p, n) == Matches(p, n) {
        PlainNamesAgree(p, n);
      }
    }
  }

  /** One entry of the announce list: a pattern and its tags. */
  datatype Spec = Spec(pat: Text, tags: seq<Text>)
  datatype Ranked = Unlisted | Ranked(rank: nat, tags: seq<Text>)

  /** The first entry that matches decides the rank and the tags. */
  method MatchSpec(spec: seq<Spec>, name: Text) returns (r: Ranked)
    ensures r.Unlisted? <==> forall i :: 0 <= i < |spec| ==> !Accepts(spec[i].pat, name)
    ensures r.Ranked? ==> r.rank < |spec| && r.tags == spec[r.rank].tags
    ensures r.Ranked? ==> Accepts(spec[r.rank].pat, name)
    ensures r.Ranked? ==> forall i :: 0 <= i < r.rank ==> !Accepts(spec[i].pat, name)
  {
    for i := 0 to |spec|
      invariant forall j :: 0 <= j < i ==> !Accepts(spec[j].pat, name)
    {
      var hit := GlobMatch(spec[i].pat, name);
      if hit {
        return Ranked(i, spec[i].tags);
      }
    }
    return Unlisted;
  }
}
