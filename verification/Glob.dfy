/** The rule pattern matcher: a greedy loop with one remembered star. */
module Glob {
  import opened Types

  /** The documented meaning: `*` stands for any byte string. */
  ghost predicate Matches(p: string, v: string)
    decreases |p|
  {
    if p == "" then v == ""
    else if p[0] == '*' then exists k :: 0 <= k <= |v| && Matches(p[1..], v[k..])
    else v != "" && p[0] == v[0] && Matches(p[1..], v[1..])
  }

  ghost predicate AllStars(p: string) {
    forall i :: 0 <= i < |p| ==> p[i] == '*'
  }

  /** What the loop decides: a star that meets a `*` byte of the value takes exactly that byte. */
  ghost predicate Eager(p: string, v: string)
    decreases |p|
  {
    if v == "" then AllStars(p)
    else if p == "" then false
    else if p[0] == v[0] then Eager(p[1..], v[1..])
    else p[0] == '*' && exists k :: 0 <= k <= |v| && Eager(p[1..], v[k..])
  }

  ghost predicate NoInnerStar(v: string) {
    forall i :: 0 <= i < |v| - 1 ==> v[i] != '*'
  }

  /** `star` is the remembered star's index, so an alternative alignment starts right after it. */
  ghost predicate LaterAlignment(pattern: string, value: string, star: Option<nat>, mark: nat) {
    star.Some? && star.value < |pattern| &&
    exists k :: mark < k <= |value| && Eager(pattern[star.value + 1..], value[k..])
  }

  /** What the loop keeps: nothing is decided yet, and since the last star the value was read literally. */
  ghost predicate Tracks(pattern: string, value: string, p: nat, v: nat, star: Option<nat>, mark: nat) {
    && p <= |pattern| && mark <= v <= |value|
    && (star.Some? ==> star.value < p && pattern[star.value] == '*' && pattern[star.value + 1..p] == value[mark..v])
    && (Eager(pattern, value) <==> Eager(pattern[p..], value[v..]) || LaterAlignment(pattern, value, star, mark))
  }

  method WildcardMatch(pattern: string, value: string) returns (r: bool)
    ensures r <==> Eager(pattern, value)
  {
    hide Eager, Tracks;
    var p, v, mark := 0, 0, 0;
    var star: Option<nat> := None;
    NothingRead(pattern, value);
    while v < |value|
      invariant 0 <= p <= |pattern| && 0 <= mark <= v <= |value| && (star.Some? ==> star.value < p)
      invariant Tracks(pattern, value, p, v, star, mark)
      decreases |value| - mark, |value| - v, |pattern| - p
    {
      if p < |pattern| && pattern[p] == value[v] {
        LiteralStep(pattern, value, p, v, star, mark);
        p, v := p + 1, v + 1;
      } else if p < |pattern| && pattern[p] == '*' {
        StarStep(pattern, value, p, v, star, mark);
        star, p, mark := Some(p), p + 1, v;
      } else if star.Some? {
        RetryStep(pattern, value, p, v, star.value, mark);
        p, mark := star.value + 1, mark + 1;
        v := mark;
      } else {
        Stuck(pattern, value, p, v, mark);
        return false;
      }
    }
    OnlyStarsLeft(pattern, value, p, star, mark);
    ghost var p0 := p;
    while p < |pattern| && pattern[p] == '*'
      invariant p0 <= p <= |pattern|
      invariant forall i :: p0 <= i < p ==> pattern[i] == '*'
    {
      p := p + 1;
    }
    assert p < |pattern| ==> pattern[p0..][p - p0] != '*';
    r := p == |pattern|;
  }

  lemma NothingRead(pattern: string, value: string)
    ensures Tracks(pattern, value, 0, 0, None, 0)
  {
    assert pattern[0..] == pattern && value[0..] == value;
  }

  lemma Stuck(pattern: string, value: string, p: nat, v: nat, mark: nat)
    requires Tracks(pattern, value, p, v, None, mark) && v < |value|
    requires p < |pattern| ==> pattern[p] != value[v] && pattern[p] != '*'
    ensures !Eager(pattern, value)
  {
  }

  lemma OnlyStarsLeft(pattern: string, value: string, p: nat, star: Option<nat>, mark: nat)
    requires Tracks(pattern, value, p, |value|, star, mark)
    ensures Eager(pattern, value) <==> AllStars(pattern[p..])
  {
    AtEnd(pattern, value, star, mark, p);
    assert value[|value|..] == "";
  }

  lemma LiteralStep(pattern: string, value: string, p: nat, v: nat, star: Option<nat>, mark: nat)
    requires Tracks(pattern, value, p, v, star, mark) && p < |pattern| && v < |value| && pattern[p] == value[v]
    ensures Tracks(pattern, value, p + 1, v + 1, star, mark)
  {
    assert pattern[p..][1..] == pattern[p + 1..] && value[v..][1..] == value[v + 1..];
    if star.Some? {
      assert pattern[star.value + 1..p + 1] == pattern[star.value + 1..p] + [pattern[p]];
    }
    assert value[mark..v + 1] == value[mark..v] + [value[v]];
  }

  lemma StarStep(pattern: string, value: string, p: nat, v: nat, star: Option<nat>, mark: nat)
    requires Tracks(pattern, value, p, v, star, mark) && p < |pattern| && v < |value| && pattern[p] == '*'
             && value[v] != '*'
    ensures Tracks(pattern, value, p + 1, v, Some(p), v)
  {
    NewStarSubsumesOld(pattern, value, star, mark, p, v);
    assert pattern[p + 1..p + 1] == value[v..v];
  }

  lemma RetryStep(pattern: string, value: string, p: nat, v: nat, s: nat, mark: nat)
    requires Tracks(pattern, value, p, v, Some(s), mark) && v < |value|
    requires p < |pattern| ==> pattern[p] != value[v] && pattern[p] != '*'
    ensures Tracks(pattern, value, s + 1, mark + 1, Some(s), mark + 1)
  {
    RetryNext(pattern, value, s, mark);
    assert !Eager(pattern[p..], value[v..]);
    assert pattern[s + 1..s + 1] == value[mark + 1..mark + 1];
  }

  lemma ShiftLiteral(q: string, v: string, x: nat, n: nat)
    requires 0 < n <= |q| && x + n <= |v| && v[x..x + n] == q[..n]
    ensures q[0] == v[x] && v[x + 1..x + 1 + (n - 1)] == q[1..][..n - 1] && q[1..][n - 1..] == q[n..]
  {
    assert q[0] == q[..n][0] == v[x..x + n][0];
    assert q[1..][..n - 1] == q[..n][1..];
    assert v[x + 1..x + 1 + (n - 1)] == v[x..x + n][1..];
  }

  lemma OpenedStar(q: string, v: string, y: nat) returns (j: nat)
    requires q != "" && y < |v| && q[0] != v[y] && Eager(q, v[y..])
    ensures q[0] == '*' && y <= j <= |v| && Eager(q[1..], v[j..])
  {
    var i :| 0 <= i <= |v[y..]| && Eager(q[1..], v[y..][i..]);
    assert v[y..][i..] == v[y + i..];
    j := y + i;
  }

  /** If q[..n] is read literally at x, any match of q from a later y reaches q[n..] no earlier than x+n. */
  lemma {:induction false} Dominates(q: string, v: string, x: nat, y: nat, n: nat) returns (k: nat)
    requires n <= |q| && x + n <= |v| && x <= y <= |v|
    requires v[x..x + n] == q[..n]
    requires Eager(q, v[y..])
    ensures x + n <= k <= |v| && Eager(q[n..], v[k..])
    decreases n
  {
    if n == 0 {
      k := y;
      assert q[0..] == q;
    } else if y == |v| {
      k := y;
      assert v[y..] == "";
      assert forall i {:trigger q[n..][i]} :: 0 <= i < |q[n..]| ==> q[n..][i] == q[i + n];
    } else {
      ShiftLiteral(q, v, x, n);
      if q[0] == v[y] {
        assert v[y..][1..] == v[y + 1..];
        k := Dominates(q[1..], v, x + 1, y + 1, n - 1);
      } else {
        var j := OpenedStar(q, v, y);
        k := Dominates(q[1..], v, x + 1, j, n - 1);
      }
    }
  }

  /** A leading star lets the rest of the pattern match some suffix, whichever way the star is taken. */
  lemma AfterStar(q: string, v: string, x: nat) returns (k: nat)
    requires q != "" && q[0] == '*' && x <= |v| && Eager(q, v[x..])
    ensures x <= k <= |v| && Eager(q[1..], v[k..])
  {
    if x == |v| {
      k := x;
      assert forall i {:trigger q[1..][i]} :: 0 <= i < |q[1..]| ==> q[1..][i] == q[i + 1];
    } else if v[x] == '*' {
      k := x + 1;
      assert v[x..][1..] == v[x + 1..];
    } else {
      var j :| 0 <= j <= |v[x..]| && Eager(q[1..], v[x..][j..]);
      assert v[x..][j..] == v[x + j..];
      k := x + j;
    }
  }

  lemma OpenStar(q: string, v: string, x: nat, k: nat)
    requires q != "" && q[0] == '*' && x < |v| && v[x] != '*' && x <= k <= |v| && Eager(q[1..], v[k..])
    ensures Eager(q, v[x..])
  {
    assert v[x..][k - x..] == v[k..];
  }

  /** Every later alignment of the remembered star reaches the next star no earlier than the loop did. */
  lemma OldAlignmentReaches(pattern: string, value: string, star: Option<nat>, mark: nat, p: nat, v: nat)
    returns (k: nat)
    requires p <= |pattern| && mark <= v <= |value|
    requires star.Some? && star.value < p && pattern[star.value + 1..p] == value[mark..v]
    requires LaterAlignment(pattern, value, star, mark)
    ensures v <= k <= |value| && Eager(pattern[p..], value[k..])
  {
    var s := star.value;
    var y :| mark < y <= |value| && Eager(pattern[s + 1..], value[y..]);
    var n := p - s - 1;
    assert |value[mark..v]| == n && mark + n == v;
    assert pattern[s + 1..][..n] == pattern[s + 1..p];
    k := Dominates(pattern[s + 1..], value, mark, y, n);
    assert pattern[s + 1..][n..] == pattern[p..];
  }

  lemma NewStarSubsumesOld(pattern: string, value: string, star: Option<nat>, mark: nat, p: nat, v: nat)
    requires p < |pattern| && mark <= v < |value| && pattern[p] == '*' && value[v] != '*'
    requires star.Some? ==> star.value < p && pattern[star.value + 1..p] == value[mark..v]
    ensures (Eager(pattern[p..], value[v..]) || LaterAlignment(pattern, value, star, mark)) <==>
            (Eager(pattern[p + 1..], value[v..]) || LaterAlignment(pattern, value, Some(p), v))
  {
    var q := pattern[p..];
    assert q[1..] == pattern[p + 1..];
    if Eager(q, value[v..]) {
      var k := AfterStar(q, value, v);
      assert k == v || LaterAlignment(pattern, value, Some(p), v);
    } else if LaterAlignment(pattern, value, star, mark) {
      var x := OldAlignmentReaches(pattern, value, star, mark, p, v);
      var k := AfterStar(q, value, x);
      assert k == v || LaterAlignment(pattern, value, Some(p), v);
    }
    if Eager(q[1..], value[v..]) {
      OpenStar(q, value, v, v);
    } else if LaterAlignment(pattern, value, Some(p), v) {
      var k :| v < k <= |value| && Eager(pattern[p + 1..], value[k..]);
      OpenStar(q, value, v, k);
    }
  }

  lemma RetryNext(pattern: string, value: string, s: nat, mark: nat)
    requires s < |pattern| && mark < |value|
    ensures LaterAlignment(pattern, value, Some(s), mark) <==>
            (Eager(pattern[s + 1..], value[mark + 1..]) || LaterAlignment(pattern, value, Some(s), mark + 1))
  {
  }

  lemma AtEnd(pattern: string, value: string, star: Option<nat>, mark: nat, p: nat)
    requires p <= |pattern| && mark <= |value|
    requires star.Some? ==> star.value < p && pattern[star.value + 1..p] == value[mark..|value|]
    ensures LaterAlignment(pattern, value, star, mark) ==> Eager(pattern[p..], value[|value|..])
  {
    if LaterAlignment(pattern, value, star, mark) {
      var k := OldAlignmentReaches(pattern, value, star, mark, p, |value|);
    }
  }

  // ---- The loop against the documented meaning ----

  /** Sound on every input: whatever the matcher accepts, the pattern really matches. */
  lemma {:induction false} EagerImpliesMatches(p: string, v: string)
    requires Eager(p, v)
    ensures Matches(p, v)
    decreases |p|
  {
    if p == "" {
    } else if v == "" {
      assert forall i {:trigger p[1..][i]} :: 0 <= i < |p[1..]| ==> p[1..][i] == p[i + 1];
      EagerImpliesMatches(p[1..], v);
      assert v[0..] == v;
    } else if p[0] == v[0] {
      EagerImpliesMatches(p[1..], v[1..]);
    } else {
      var k :| 0 <= k <= |v| && Eager(p[1..], v[k..]);
      EagerImpliesMatches(p[1..], v[k..]);
    }
  }

  /** Complete when a `*` byte can only be the value's last byte. */
  lemma {:induction false} MatchesImpliesEager(p: string, v: string)
    requires NoInnerStar(v) && Matches(p, v)
    ensures Eager(p, v)
    decreases |p|
  {
    if p == "" {
    } else if p[0] == '*' {
      var k :| 0 <= k <= |v| && Matches(p[1..], v[k..]);
      SuffixNoInnerStar(v, k);
      MatchesImpliesEager(p[1..], v[k..]);
      StarReadsEagerly(p, v, k);
    } else {
      SuffixNoInnerStar(v, 1);
      MatchesImpliesEager(p[1..], v[1..]);
    }
  }

  lemma SuffixNoInnerStar(v: string, k: nat)
    requires NoInnerStar(v) && k <= |v|
    ensures NoInnerStar(v[k..])
  {
    assert forall i {:trigger v[k..][i]} :: 0 <= i < |v[k..]| ==> v[k..][i] == v[k + i];
  }

  lemma StarReadsEagerly(p: string, v: string, k: nat)
    requires p != "" && p[0] == '*' && NoInnerStar(v) && k <= |v| && Eager(p[1..], v[k..])
    ensures Eager(p, v)
  {
    if v == "" {
      assert v[k..] == "";
      assert forall i {:trigger p[i]} :: 0 < i < |p| ==> p[i] == p[1..][i - 1];
    } else if v[0] == '*' {
      assert v == "*" && v[1..] == "";
      OnlyStarsMatchStar(p[1..], v[k..]);
    }
  }

  lemma {:induction false} OnlyStarsMatchStar(p: string, v: string)
    requires (v == "*" || v == "") && Eager(p, v)
    ensures AllStars(p)
    decreases |p|
  {
    if v == "*" && p != "" {
      assert v[1..] == "";
      assert AllStars(p[1..]);
      assert forall i {:trigger p[i]} :: 0 < i < |p| ==> p[i] == p[1..][i - 1];
    }
  }

  lemma {:induction false} LiteralPrefix(u: string, p: string, v: string)
    ensures v != "" ==> (Eager(u + p, u + v) <==> Eager(p, v))
    ensures v != "" && Matches(p, v) && (forall i :: 0 <= i < |u| ==> u[i] != '*') ==> Matches(u + p, u + v)
    decreases |u|
  {
    if u == "" {
      assert u + p == p && u + v == v;
    } else {
      LiteralPrefix(u[1..], p, v);
      assert (u + p)[1..] == u[1..] + p && (u + v)[1..] == u[1..] + v;
    }
  }

  /**
   * The exact boundary: the matcher agrees with the documented meaning for every pattern if and only if the value has
   * no `*` byte before its last byte.
   */
  lemma AgreesExactly(v: string)
    ensures (forall p :: Eager(p, v) <==> Matches(p, v)) <==> NoInnerStar(v)
  {
    if NoInnerStar(v) {
      forall p ensures Eager(p, v) <==> Matches(p, v) {
        if Eager(p, v) { EagerImpliesMatches(p, v); }
        if Matches(p, v) { MatchesImpliesEager(p, v); }
      }
    } else {
      var p := Departure(v);
    }
  }

  /** For any value with an inner `*`, a pattern the documentation accepts and the matcher refuses. */
  lemma Departure(v: string) returns (p: string)
    requires !NoInnerStar(v)
    ensures Matches(p, v) && !Eager(p, v)
  {
    var i := FirstStar(v, 0);
    var u, w := v[..i], v[i..];
    assert v == u + w;
    p := u + "*";
    assert Matches("*", w) by {
      assert w[|w|..] == "";
      assert "*"[1..] == "";
    }
    assert !Eager("*", w) by {
      assert "*"[1..] == "" && w[1..] != "";
    }
    LiteralPrefix(u, "*", w);
  }

  lemma FirstStar(v: string, from: nat) returns (i: nat)
    requires from <= |v| && (forall j :: 0 <= j < from ==> v[j] != '*') && !NoInnerStar(v)
    ensures i < |v| - 1 && v[i] == '*' && forall j :: 0 <= j < i ==> v[j] != '*'
    decreases |v| - from
  {
    if from < |v| && v[from] == '*' { i := from; } else { i := FirstStar(v, from + 1); }
  }

  lemma {:induction false} ItselfEager(v: string)
    ensures Eager(v, v)
  {
    if v != "" { ItselfEager(v[1..]); }
  }

  /** The smallest departure: `*` does not match the two bytes `*a`. */
  lemma StarRefusesStarA()
    ensures Matches("*", "*a") && !Eager("*", "*a")
  {
    assert "*"[1..] == "" && "*a"[2..] == "" && "*a"[1..] == "a";
  }
}
