/** Which secrets are protected in every list they can be in, exactly. For every other secret a leak is built. */
module Leaks {
  import opened Types
  import opened Redaction

  /** In no list that holds it, ordered as lists are, does redaction ever let the secret through. */
  ghost predicate Protected(s: string) {
    forall secrets, text :: Usable(secrets) && LongestFirst(secrets) && s in secrets ==>
      !Contains(Redact(text, secrets), s)
  }

  // ---- Filler that keeps a string out ----

  function Filler(c: char, n: nat): string {
    seq(n, _ => c)
  }

  /** A run of a character the string neither starts nor ends with, as long as the string, is clear of it. */
  lemma FillerClear(s: string, c: char)
    requires s != [] && s[0] != c && s[|s| - 1] != c
    ensures Clear(s, Filler(c, |s|))
  {
    var m := Filler(c, |s|);
    forall o: int ensures !OverlapsAt(s, m, o) {
      assert 0 <= o < |m| ==> s[0] != m[o + 0];
      assert -|s| < o < 0 ==> s[|s| - 1] != m[o + (|s| - 1)];
    }
  }

  /** Some letter is none of the four. */
  lemma OtherLetter(w: char, x: char, y: char, z: char) returns (c: char)
    ensures c != w && c != x && c != y && c != z && 'a' <= c <= 'e'
  {
    c := if 'a' != w && 'a' != x && 'a' != y && 'a' != z then 'a'
         else if 'b' != w && 'b' != x && 'b' != y && 'b' != z then 'b'
         else if 'c' != w && 'c' != x && 'c' != y && 'c' != z then 'c'
         else if 'd' != w && 'd' != x && 'd' != y && 'd' != z then 'd' else 'e';
  }

  // ---- The two sides of a mark that a string laps over ----

  function Left(s: string, o: int): string
    requires -|s| < o
  {
    if o < 0 then s[..-o] else []
  }

  function Right(s: string, m: string, o: int): string
    requires o < |m|
  {
    if o + |s| > |m| then s[|m| - o..] else []
  }

  lemma Sides(s: string, m: string, o: int)
    requires s != [] && m != [] && OverlapsAt(s, m, o)
    ensures var l, r := Left(s, o), Right(s, m, o);
            && |l| < |s| && |r| < |s| && OccursAt(l + m + r, s, if o < 0 then 0 else o)
            && (l != [] ==> s[|l|] == m[0]) && (r != [] ==> s[|s| - |r| - 1] == m[|m| - 1])
  {
    var l, r := Left(s, o), Right(s, m, o);
    var text, at := l + m + r, if o < 0 then 0 else o;
    forall j | 0 <= j < |s| ensures at + j < |text| && text[at + j] == s[j] {
      assert 0 <= o + j < |m| ==> s[j] == m[o + j];
    }
    assert o < 0 ==> s[-o] == m[o + -o];
    assert o + |s| > |m| ==> s[|m| - 1 - o] == m[o + (|m| - 1 - o)];
  }

  // ---- A secret that laps over the first mark ----

  lemma TooShort(text: string, s: string)
    requires |text| < |s|
    ensures !Contains(text, s)
  {
  }

  lemma DiffersAt(text: string, z: string, j: nat, k: nat)
    requires k < |z| && j + k < |text| && text[j + k] != z[k]
    ensures !OccursAt(text, z, j)
  {
  }

  /** Replacing the filler between two short texts, neither touching it with its own character, puts one mark there. */
  lemma FillerReplaced(l: string, c: char, n: nat, r: string)
    requires |l| < n && |r| < n && (l != [] ==> l[|l| - 1] != c)
    ensures Replace(l + Filler(c, n) + r, Filler(c, n)) == l + Bracketed(REDACTED) + r
  {
    hide REDACTED, Bracketed, FindFrom;
    var z := Filler(c, n);
    FillerFirst(l, c, n, r);
    assert (l + z + r)[..|l|] == l && (l + z + r)[|l| + n..] == r;
    TooShort(r, z);
    NotThere(r, z);
  }

  lemma FillerFirst(l: string, c: char, n: nat, r: string)
    requires |l| < n && (l != [] ==> l[|l| - 1] != c)
    ensures FindFrom(l + Filler(c, n) + r, Filler(c, n), 0) == Some(|l|)
  {
    hide FindFrom;
    var z := Filler(c, n);
    var text := l + z + r;
    OccursThere(l, z, r);
    forall j: nat | j < |l| ensures !OccursAt(text, z, j) { DiffersAt(text, z, j, |l| - 1 - j); }
  }

  /** The secret first, then the filler: the mark for the filler completes the secret. */
  lemma MarkLeaks(s: string, o: int) returns (secrets: seq<string>, text: string)
    requires s != [] && OverlapsAt(s, Bracketed(REDACTED), o) && Clean(s)
    ensures Usable(secrets) && LongestFirst(secrets) && s in secrets && Contains(Redact(text, secrets), s)
  {
    var m := Bracketed(REDACTED);
    var l, r := Left(s, o), Right(s, m, o);
    Sides(s, m, o);
    var c := OtherLetter(s[0], s[|s| - 1], if l == [] then s[0] else l[|l| - 1], s[0]);
    var z := Filler(c, |s|);
    secrets, text := [s, z], l + z + r;
    TwoSteps(s, z, text);
    FillerClear(s, c);
    TooShort(l, s);
    TooShort(r, s);
    AcrossClear(l, z, r, s);
    NotThere(text, s);
    FillerReplaced(l, c, |s|, r);
    MarkedClean(s, m, o);
    ScrubClean(l + m + r);
    assert Contains(l + m + r, s);
  }

  lemma TwoSteps(s: string, z: string, text: string)
    requires s != [] && z != []
    ensures Usable([s, z]) && ReplaceAll(text, [s, z]) == Replace(Replace(text, s), z)
  {
    hide Replace;
    var t := Replace(text, s);
    assert [s, z][1..] == [z] && [z][1..] == [];
    assert ReplaceAll(text, [s, z]) == ReplaceAll(t, [z]);
    assert ReplaceAll(t, [z]) == ReplaceAll(Replace(t, z), []);
  }

  /** What is left of a secret without key headers, around the mark, has none either. */
  lemma MarkedClean(s: string, m: string, o: int)
    requires m == Bracketed(REDACTED) && s != [] && OverlapsAt(s, m, o) && Clean(s)
    ensures Clean(Left(s, o) + m + Right(s, m, o))
  {
    hide BEGIN, PRIVATE_KEY, REDACTED, Bracketed, Clean;
    var l, r := Left(s, o), Right(s, m, o);
    PartsClean(s, m, o);
    if l == [] {
      CleanAfterMark(r);
      assert l + m + r == m + r;
    } else if r == [] {
      CleanBeforeMark(l);
      assert l + m + r == l + m;
    } else {
      WholeAround(s, m, o);
    }
  }

  lemma WholeAround(s: string, m: string, o: int)
    requires s != [] && OverlapsAt(s, m, o) && Left(s, o) != [] && Right(s, m, o) != []
    ensures Left(s, o) + m + Right(s, m, o) == s
  {
    var l, r := Left(s, o), Right(s, m, o);
    forall j | 0 <= j < |s| ensures (l + m + r)[j] == s[j] {
      assert 0 <= o + j < |m| ==> s[j] == m[o + j];
    }
  }

  lemma PartsClean(s: string, m: string, o: int)
    requires -|s| < o < |m| && Clean(s)
    ensures Clean(Left(s, o)) && Clean(Right(s, m, o)) && forall k :: 0 <= k <= |Left(s, o)| ==> Clean(Left(s, o)[..k])
  {
    hide Clean;
    var l, r := Left(s, o), Right(s, m, o);
    assert s[0..|l|] == l && s[|s| - |r|..|s|] == r;
    PartClean(s, 0, |l|);
    PartClean(s, |s| - |r|, |s|);
    forall k | 0 <= k <= |l| ensures Clean(l[..k]) {
      assert s[0..k] == l[..k];
      PartClean(s, 0, k);
    }
  }

  lemma PartClean(s: string, a: nat, b: nat)
    requires a <= b <= |s| && Clean(s)
    ensures Clean(s[a..b])
  {
    hide KeyHeader;
    var part := s[a..b];
    assert OccursAt(s, part, a);
    forall k: nat ensures !KeyHeader(part, k) {
      assert !KeyHeader(s, a + k);
      if KeyHeader(part, k) { HeaderWithin(s, part, a, k); }
    }
  }

  lemma MarkShape()
    ensures Clear(BEGIN, Bracketed(REDACTED)) && Clear(PRIVATE_KEY, Bracketed(REDACTED))
    ensures '\n' !in Bracketed(REDACTED) && Bracketed(REDACTED) != []
  {
    PlainClear(BEGIN, REDACTED);
    PlainClear(PRIVATE_KEY, REDACTED);
    TooShort(REDACTED, BEGIN);
    TooShort(REDACTED, PRIVATE_KEY);
  }

  lemma CleanAfterMark(r: string)
    requires Clean(r)
    ensures Clean(Bracketed(REDACTED) + r)
  {
    MarkShape();
    Shapes();
    hide BEGIN, PRIVATE_KEY, REDACTED, Bracketed, KeyHeader, Clear;
    var m := Bracketed(REDACTED);
    var text := m + r;
    assert text[|m|..] == r && [] + m + r == text;
    forall i: nat ensures !KeyHeader(text, i) {
      NoMarkerNoHeader(text, i);
      if OccursAt(text, BEGIN, i) {
        BesideClear([], m, r, BEGIN, i);
        SuffixHeader(text, |m|, i - |m|);
      }
    }
  }

  lemma BesideClear(a: string, m: string, b: string, s: string, i: nat)
    requires Clear(s, m) && OccursAt(a + m + b, s, i)
    ensures OccursAt(a, s, i) || (i >= |a| + |m| && OccursAt(b, s, i - |a| - |m|))
    ensures a == [] ==> i >= |m|
  {
    BesideOrOver(a, m, b, s, i);
    assert !OverlapsAt(s, m, i - |a|);
  }

  lemma CleanBeforeMark(l: string)
    requires Clean(l)
    ensures Clean(l + Bracketed(REDACTED))
  {
    MarkShape();
    hide BEGIN, PRIVATE_KEY, REDACTED, Bracketed, KeyHeader, Clear;
    var m := Bracketed(REDACTED);
    forall i: nat ensures !KeyHeader(l + m, i) {
      NoMarkerNoHeader(l + m, i);
      if OccursAt(l + m, BEGIN, i) {
        assert l + m + [] == l + m;
        BesideClear(l, m, [], BEGIN, i);
        Shapes();
        assert OccursAt(l, BEGIN, i);
        NoWordsBeforeMark(l, m, i);
      }
    }
  }

  lemma NoWordsBeforeMark(l: string, m: string, i: nat)
    requires Clean(l) && OccursAt(l, BEGIN, i) && i < |l| && '\n' !in m && Clear(PRIVATE_KEY, m)
    ensures !KeyHeader(l + m, i)
  {
    TooShort([], PRIVATE_KEY);
    hide BEGIN, PRIVATE_KEY, Clear;
    assert !KeyHeader(l, i);
    var e := LineEnd(l, i);
    if l[e - 1] == '\n' {
      LineEndIs(l + m, i, e);
      assert (l + m)[i..e] == l[i..e];
    } else {
      assert forall k :: i <= k < |l + m| ==> (l + m)[k] != '\n';
      LineEndIs(l + m, i, |l + m|);
      assert (l + m)[i..|l + m|] == l[i..] + m + [] && l[i..e] == l[i..];
      AcrossClear(l[i..], m, [], PRIVATE_KEY);
    }
  }

  // ---- A secret that laps over the key mark ----

  /** Where the last line of a text begins. */
  function LineStart(text: string): (k: nat)
    ensures k <= |text| && (k > 0 ==> text[k - 1] == '\n') && forall j :: k <= j < |text| ==> text[j] != '\n'
  {
    if text == [] || text[|text| - 1] == '\n' then |text| else LineStart(text[..|text| - 1])
  }

  function LastLine(text: string): string {
    text[LineStart(text)..]
  }

  /**
   * Laid over the key mark so, the secret can be completed by it: no marker on the mark's own line comes before it,
   * with which the scrubber would have begun.
   */
  ghost predicate Completes(s: string, o: int) {
    OverlapsAt(s, Bracketed(REDACTED_KEY), o) && !Contains(LastLine(Left(s, o)), BEGIN)
  }

  /**
   * What protects a secret: a key header of its own, or being clear of the first mark and not completed by the second,
   * because it breaks up every key header or because of how it lies over that mark.
   */
  ghost predicate Secure(s: string) {
    !Clean(s) ||
    (Clear(s, Bracketed(REDACTED))
     && (Contains(BEGIN, s) || Contains(PRIVATE_KEY, s) || forall o: int :: !Completes(s, o)))
  }

  // ---- No mark completes a secure secret ----

  lemma KeyMarkShape()
    ensures var m := Bracketed(REDACTED_KEY); Contains(m, PRIVATE_KEY) && '\n' !in m
  {
    assert OccursAt(Bracketed(REDACTED_KEY), PRIVATE_KEY, 10);
  }

  /** A marker on the line that a key mark is on makes a header of it. */
  lemma MarkerBeforeMark(a: string, m: string, b: string, q: nat)
    requires q <= |a| && (forall j :: q <= j < |a| ==> a[j] != '\n') && Contains(a[q..], BEGIN)
    requires '\n' !in m && Contains(m, PRIVATE_KEY)
    ensures !Clean(a + m + b)
  {
    Shapes();
    hide BEGIN, PRIVATE_KEY;
    var text := a + m + b;
    var k: nat :| OccursAt(a[q..], BEGIN, k);
    var i := q + k;
    assert OccursAt(text, BEGIN, i) by { SliceOccurs(a, q, |a|, BEGIN, k); assert a[q..|a|] == a[q..]; }
    LongLine(text, i, |a| + |m|);
    var e := LineEnd(text, i);
    assert text[i..e][|a| - i..|a| - i + |m|] == text[|a|..|a| + |m|];
    assert text[|a|..|a| + |m|] == m;
    PartContains(text[i..e], |a| - i, |a| - i + |m|, PRIVATE_KEY);
    assert KeyHeader(text, i);
  }

  lemma {:induction false} LongLine(text: string, i: nat, e: nat)
    requires i <= e <= |text| && forall k :: i <= k < e ==> text[k] != '\n'
    ensures LineEnd(text, i) >= e
    decreases e - i
  {
    if i < e { LongLine(text, i + 1, e); }
  }

  lemma MarkNeverCompletes(a: string, b: string, s: string)
    requires s != [] && (forall o: int :: !Completes(s, o)) && !Contains(a, s) && !Contains(b, s)
    requires Clean(a + Bracketed(REDACTED_KEY) + b)
    ensures !Contains(a + Bracketed(REDACTED_KEY) + b, s)
  {
    KeyMarkShape();
    hide BEGIN, PRIVATE_KEY, REDACTED_KEY, Bracketed, Clean;
    var m := Bracketed(REDACTED_KEY);
    if i: nat :| OccursAt(a + m + b, s, i) {
      BesideOrOver(a, m, b, s, i);
      var o := i - |a|;
      assert OverlapsAt(s, m, o);
      assert !Completes(s, o);
      var l := Left(s, o);
      assert |l| <= |a| && forall j :: 0 <= j < |l| ==> l[j] == s[j] == (a + m + b)[i + j] == a[|a| - |l| + j];
      var q := |a| - |l| + LineStart(l);
      assert a[q..] == LastLine(l);
      MarkerBeforeMark(a, m, b, q);
    }
  }

  lemma {:induction false} ScrubNeverCompletes(u: string, text: string, s: string)
    requires s != [] && (forall o: int :: !Completes(s, o)) && !Contains(u + text, s) && Clean(u + Scrub(text))
    ensures !Contains(u + Scrub(text), s)
    decreases |text|
  {
    hide BEGIN, END, PRIVATE_KEY, REDACTED_KEY, Contains, OccursAt, LineEnd, BlockEnd, Bracketed, Scrub, Clean,
      Completes;
    var found := FindFrom(text, BEGIN, 0);
    if found.None? {
      NothingFound(text, 0);
      assert text[0..] == text;
    } else {
      var start := found.value;
      BeginFound(text, start);
      ScrubUnfolds(text, start);
      var e := LineEnd(text, start);
      if !Contains(text[start..e], PRIVATE_KEY) {
        Regroup(u, text[..e], u + text[..e], [], text[e..]);
        assert text[..e] + text[e..] == text;
        Regroup(u, text[..e], u + text[..e], [], Scrub(text[e..]));
        ScrubNeverCompletes(u + text[..e], text[e..], s);
      } else {
        var end := BlockEnd(text, e);
        var b := Scrub(text[end..]);
        ScrubKeepsOutMark(u, text, s, start, end);
        Regroup(u, text[..start], u + text[..start], Bracketed(REDACTED_KEY), b);
        ScrubIsClean(text[end..]);
        assert [] + b == b && [] + text[end..] == text[end..];
        ScrubNeverCompletes([], text[end..], s);
        MarkNeverCompletes(u + text[..start], b, s);
      }
    }
  }

  lemma SecureProtected(s: string)
    requires s != [] && Secure(s)
    ensures Protected(s)
  {
    hide BEGIN, PRIVATE_KEY, Contains, Clean, Clear, Scrub, Completes, ReplaceAll;
    forall secrets, text | Usable(secrets) && LongestFirst(secrets)
      && s in secrets ensures !Contains(Redact(text, secrets), s) {
      var i :| 0 <= i < |secrets| && secrets[i] == s;
      if !Clean(s) {
        HeaderNeverShown(text, secrets, s);
      } else if Robust(s) {
        SecretNeverShown(text, secrets, i);
      } else {
        NotCompleted(text, secrets, i);
      }
    }
  }

  lemma NotCompleted(text: string, secrets: seq<string>, i: nat)
    requires Usable(secrets) && i < |secrets| && Clear(secrets[i], Bracketed(REDACTED))
             && forall o: int :: !Completes(secrets[i], o)
    ensures !Contains(Redact(text, secrets), secrets[i])
  {
    hide Contains, Clean, Scrub, Completes, ReplaceAll, OverlapsAt;
    var t := ReplaceAll(text, secrets);
    ReplaceAllRemoves(text, secrets, i);
    ScrubIsClean(t);
    assert [] + t == t && [] + Scrub(t) == Scrub(t);
    ScrubNeverCompletes([], t, secrets[i]);
  }

  // ---- A key block in front of which a secret's left side stands ----

  /** Whole lines without a key header stay, and what follows them is scrubbed by itself. */
  lemma {:induction false} ScrubPast(text: string, from: nat, end: nat)
    requires from <= end <= |text| && (end > 0 ==> text[end - 1] == '\n') && forall i: nat :: i < end ==>
             !KeyHeader(text, i)
    ensures text[..from] + Scrub(text[from..]) == text[..end] + Scrub(text[end..])
    decreases end - from
  {
    hide BEGIN, END, PRIVATE_KEY, REDACTED_KEY, Bracketed, Scrub, Contains;
    var found := FindFrom(text, BEGIN, from);
    if found.Some? && found.value < end {
      var start := found.value;
      var e := LineEnd(text, start);
      assert e <= end;
      assert !KeyHeader(text, start);
      KeptStep(text, from, start, e);
      ScrubPast(text, e, end);
    } else {
      FoundLater(text, from, end);
      if found.None? {
        NothingFound(text, from);
        NothingFound(text, end);
        assert text[..from] + text[from..] == text[..end] + text[end..];
      } else {
        BeginFound(text, found.value);
        var e := LineEnd(text, found.value);
        if Contains(text[found.value..e], PRIVATE_KEY) {
          DroppedStep(text, from, found.value, BlockEnd(text, e));
          DroppedStep(text, end, found.value, BlockEnd(text, e));
        } else {
          KeptStep(text, from, found.value, e);
          KeptStep(text, end, found.value, e);
        }
      }
    }
  }

  lemma {:induction false} FoundLater(text: string, from: nat, end: nat)
    requires from <= end <= |text|
    requires FindFrom(text, BEGIN, from).Some? ==> FindFrom(text, BEGIN, from).value >= end
    ensures FindFrom(text, BEGIN, end) == FindFrom(text, BEGIN, from)
    decreases end - from
  {
    hide BEGIN;
    if from < end { FoundLater(text, from + 1, end); }
  }

  lemma ScrubAfter(l: string, z: string)
    requires Clean(l) && (l != [] ==> l[|l| - 1] == '\n')
    ensures Scrub(l + z) == l + Scrub(z)
  {
    hide BEGIN, PRIVATE_KEY, Scrub;
    var text := l + z;
    forall i: nat | i < |l| ensures !KeyHeader(text, i) { LineInside(l, z, i); }
    ScrubPast(text, 0, |l|);
    assert text[0..] == text && text[..0] == [] && text[..|l|] == l && text[|l|..] == z;
    assert [] + Scrub(text) == Scrub(text);
  }

  lemma LineInside(l: string, z: string, i: nat)
    requires Clean(l) && i < |l| && l[|l| - 1] == '\n'
    ensures !KeyHeader(l + z, i)
  {
    Shapes();
    hide BEGIN, PRIVATE_KEY;
    assert !KeyHeader(l, i);
    var e := LineEnd(l, i);
    LineEndIs(l + z, i, e);
    assert (l + z)[i..e] == l[i..e];
    if OccursAt(l + z, BEGIN, i) {
      MarkerOnLine(l + z, BEGIN, i);
      assert OccursAt(l, BEGIN, i);
    }
  }

  /** Every neighbour of the filler keeps the secret out. */
  lemma Between(a: string, c: char, b: string, s: string)
    requires s != [] && s[0] != c && s[|s| - 1] != c && !Contains(a, s) && !Contains(b, s)
    ensures !Contains(a + Filler(c, |s|) + b, s)
  {
    FillerClear(s, c);
    AcrossClear(a, Filler(c, |s|), b, s);
  }

  /**
   * The left side runs into the header without completing the secret, since the secret goes on with a bracket there.
   */
  lemma LeftHeader(s: string, l: string)
    requires s != [] && |l| < |s| && !Contains(BEGIN, s) && (l != [] ==> s[|l|] == '[')
    ensures !Contains(l + BEGIN, s)
  {
    Shapes();
    hide BEGIN;
    if l == [] {
      assert l + BEGIN == BEGIN;
    } else {
      forall i: nat ensures !OccursAt(l + BEGIN, s, i) {
        assert i + |s| <= |l + BEGIN| ==> (l + BEGIN)[i + |l|] in BEGIN;
      }
    }
  }

  /** The first header is where it was put: neither in the text before it nor across its edge. */
  lemma HeaderFirst(l: string, rest: string)
    requires !Contains(l, BEGIN)
    ensures FindFrom(l + BEGIN + rest, BEGIN, 0) == Some(|l|)
  {
    var text := l + BEGIN + rest;
    BeginEnds();
    hide BEGIN;
    assert forall k :: 0 <= k < |BEGIN| ==> text[|l| + k] == BEGIN[k];
    assert OccursAt(text, BEGIN, |l|);
    forall j: nat | j < |l| ensures !OccursAt(text, BEGIN, j) {
      if j + |BEGIN| <= |l| {
        assert forall k {:trigger BEGIN[k]} :: 0 <= k < |BEGIN| ==> text[j + k] == l[j + k];
        assert OccursAt(text, BEGIN, j) ==> OccursAt(l, BEGIN, j);
      } else {
        DiffersAt(text, BEGIN, j, 10);
      }
    }
  }

  lemma BeginEnds()
    ensures |BEGIN| == 11 && BEGIN[10] == ' ' && forall k :: 0 <= k < 10 ==> BEGIN[k] != ' '
  {
  }

  /** A block without an end line runs to the end of the text. */
  lemma OpenBlockScrubbed(l: string, x: string)
    requires !Contains(l, BEGIN) && '\n' !in x && Contains(x, PRIVATE_KEY)
    ensures Scrub(l + BEGIN + x) == l + Bracketed(REDACTED_KEY)
  {
    Shapes();
    EndShape();
    OpenLine(l, BEGIN, x);
    hide BEGIN, END, PRIVATE_KEY, REDACTED_KEY, Bracketed, Scrub, Contains, LineEnd;
    var text := l + BEGIN + x;
    HeaderFirst(l, x);
    PartContains(text[|l|..|text|], |BEGIN|, |BEGIN| + |x|, PRIVATE_KEY);
    ScrubUnfolds(text, |l|);
    NothingAfter(text);
    ScrubNothing();
    assert l + Bracketed(REDACTED_KEY) + [] == l + Bracketed(REDACTED_KEY);
  }

  lemma OpenLine(l: string, h: string, x: string)
    requires h != [] && '\n' !in h && '\n' !in x
    ensures var text := l + h + x;
            LineEnd(text, |l|) == |text| && text[..|l|] == l && text[|l|..|text|][|h|..|h| + |x|] == x
  {
    hide LineEnd;
    var text := l + h + x;
    assert forall k :: |l| <= k < |text| ==> text[k] in h || text[k] in x;
    LineEndIs(text, |l|, |text|);
    assert text[|l|..|text|] == h + x && (h + x)[|h|..|h| + |x|] == x;
  }

  lemma NothingAfter(text: string)
    ensures BlockEnd(text, |text|) == |text| && text[|text|..] == []
  {
    EndShape();
    assert |END| > 0 && text[|text|..] == [];
    assert FindFrom(text, END, |text|).None? by { assert !OccursAt(text, END, |text|); }
  }

  function Header(x: string): string {
    BEGIN + x + ['\n']
  }

  function Footer(y: string): string {
    y + END + y + ['\n']
  }

  /** A line put into a text is found there. */
  lemma LineWithin(l: string, h: string, rest: string)
    requires h != [] && h[|h| - 1] == '\n' && forall k :: 0 <= k < |h| - 1 ==> h[k] != '\n'
    ensures LineEnd(l + h + rest, |l|) == |l| + |h| && (l + h + rest)[|l|..|l| + |h|] == h
  {
    hide LineEnd;
    var text := l + h + rest;
    assert text[|l|..|l| + |h|] == h;
    assert forall k :: |l| <= k < |l| + |h| ==> text[k] == h[k - |l|];
    LineEndIs(text, |l|, |l| + |h|);
  }

  lemma HeaderShape(p: string, x: string)
    requires '\n' !in p && '\n' !in x
    ensures var h := p + x + ['\n'];
            (forall k :: 0 <= k < |h| - 1 ==> h[k] != '\n') && h[|h| - 1] == '\n' && h[|p|..|p| + |x|] == x
  {
    var h := p + x + ['\n'];
    assert forall k :: 0 <= k < |h| - 1 ==> h[k] in p || h[k] in x;
  }

  lemma HeaderLine(l: string, x: string, rest: string)
    requires '\n' !in x && Contains(x, PRIVATE_KEY)
    ensures var text, e := l + Header(x) + rest, |l| + |Header(x)|;
            LineEnd(text, |l|) == e && Contains(text[|l|..e], PRIVATE_KEY)
  {
    Shapes();
    hide BEGIN, PRIVATE_KEY, LineEnd, Contains;
    var h := Header(x);
    HeaderShape(BEGIN, x);
    PartContains(h, |BEGIN|, |BEGIN| + |x|, PRIVATE_KEY);
    hide Header;
    LineWithin(l, h, rest);
  }

  lemma FirstAfter(a: string, y: string, e: string, tail: string)
    requires e != [] && e[0] !in y
    ensures FindFrom(a + y + e + tail, e, |a|) == Some(|a| + |y|)
  {
    hide FindFrom, OccursAt;
    var text, at := a + y + e + tail, |a| + |y|;
    OccursThere(a + y, e, tail);
    Assoc(a + y, e, tail);
    forall j: nat | |a| <= j < at ensures !OccursAt(text, e, j) {
      CharOf(a, y, e + tail, j);
      DiffersAt(text, e, j, 0);
    }
  }

  lemma CharOf(a: string, y: string, b: string, j: nat)
    requires |a| <= j < |a| + |y|
    ensures (a + y + b)[j] in y
  {
    assert (a + y + b)[j] == y[j - |a|];
  }

  lemma OccursThere(a: string, e: string, tail: string)
    ensures OccursAt(a + e + tail, e, |a|)
  {
  }

  lemma Assoc(a: string, b: string, c: string)
    ensures a + (b + c) == a + b + c
  {
  }

  lemma FooterEnd(a: string, y: string, r: string)
    requires '\n' !in y && '-' !in y
    ensures BlockEnd(a + Footer(y) + r, |a|) == |a| + |Footer(y)|
  {
    var tail := y + ['\n'];
    EndDash();
    FooterParts(a, y, END, tail, r);
    Assoc(y + END, y, ['\n']);
    assert Footer(y) == y + END + tail;
    hide END;
    EndsThere(a + Footer(y) + r, a, y, r);
  }

  lemma EndsThere(text: string, a: string, y: string, r: string)
    requires '\n' !in y && '-' !in y
    requires var tail := y + ['\n']; text == a + y + (END + tail) + r && text == a + y + END + (tail + r)
    ensures BlockEnd(text, |a|) == |a| + |y| + |END| + |y| + 1
  {
    EndDash();
    hide END, LineEnd, FindFrom, BlockEnd;
    FirstAfter(a, y, END, y + ['\n'] + r);
    EndLine(a + y, y, r);
    BlockEndIs(text, |a|, |a| + |y|);
  }

  lemma EndLine(a: string, y: string, r: string)
    requires '\n' !in y
    ensures LineEnd(a + (END + (y + ['\n'])) + r, |a|) == |a| + |END| + |y| + 1
  {
    EndShape();
    HeaderShape(END, y);
    hide END, LineEnd;
    Assoc(END, y, ['\n']);
    LineWithin(a, END + y + ['\n'], r);
  }

  lemma BlockEndIs(text: string, e: nat, at: nat)
    requires e <= |text| && FindFrom(text, END, e) == Some(at)
    ensures at <= |text| && BlockEnd(text, e) == LineEnd(text, at)
  {
  }

  lemma FooterParts(a: string, y: string, e: string, nl: string, r: string)
    ensures a + (y + e + nl) + r == (a + y) + (e + nl) + r && a + (y + e + nl) + r == a + y + e + (nl + r)
  {
    Assoc(y, e, nl);
    Assoc(a, y, e + nl);
    Assoc(a + y, e, nl);
    Assoc(a + y + e, nl, r);
  }

  lemma EndDash()
    ensures |END| > 0 && END[0] == '-' && ']' !in END
  {
  }

  lemma BlockParts(l: string, b: string, x: string, nl: string, f: string, r: string)
    ensures l + (b + x + nl) + f + r == l + b + (x + nl + f + r)
            && l + (b + x + nl) + f + r == l + (b + x + nl) + (f + r)
  {
    Assoc(b, x, nl);
    Assoc(l, b, x + nl);
    Assoc(l + b, x + nl, f);
    Assoc(l + b, x + nl + f, r);
    Assoc(l + (b + x + nl), f, r);
  }

  /** A whole block becomes one mark between what comes before and after. */
  lemma BlockScrubbed(l: string, x: string, y: string, r: string)
    requires !Contains(l, BEGIN) && Clean(r)
    requires '\n' !in x && Contains(x, PRIVATE_KEY) && '\n' !in y && '-' !in y
    ensures Scrub(l + Header(x) + Footer(y) + r) == l + Bracketed(REDACTED_KEY) + r
  {
    hide BEGIN, END, PRIVATE_KEY, REDACTED_KEY, Bracketed, Scrub, LineEnd, BlockEnd, Footer, Contains, FindFrom, Clean;
    var h, f := Header(x), Footer(y);
    var text := l + h + f + r;
    BlockParts(l, BEGIN, x, ['\n'], f, r);
    HeaderFirst(l, x + ['\n'] + f + r);
    HeaderLine(l, x, f + r);
    FooterEnd(l + h, y, r);
    ScrubUnfolds(text, |l|);
    assert text[..|l|] == l && text[|l + h| + |f|..] == r;
    ScrubClean(r);
  }

  lemma PartHasChar(text: string, s: string, c: char)
    requires c in s && c !in text
    ensures !Contains(text, s)
  {
    var k :| 0 <= k < |s| && s[k] == c;
    forall i: nat ensures !OccursAt(text, s, i) {
      assert i + |s| <= |text| ==> text[i + k] in text;
    }
  }

  /** The right side does not complete the secret after a line break, since a bracket comes before it in the secret. */
  lemma RightLine(s: string, r: string)
    requires |r| < |s| && s[|s| - |r| - 1] == ']'
    ensures !Contains(['\n'] + r, s)
  {
    forall i: nat ensures !OccursAt(['\n'] + r, s, i) {
      if i + |s| <= |r| + 1 { DiffersAt(['\n'] + r, s, i, 0); }
    }
  }

  lemma FillerText(c: char, n: nat)
    requires 'a' <= c <= 'e'
    ensures '\n' !in Filler(c, n) && '-' !in Filler(c, n)
  {
  }

  lemma KeyWords()
    ensures '\n' !in PRIVATE_KEY && ']' !in PRIVATE_KEY && ']' !in BEGIN
  {
  }

  /** The text around the filler, for a secret that stays inside the mark on the right. */
  lemma OpenText(s: string, l: string, c: char)
    requires s != [] && 'a' <= c <= 'e' && s[0] != c && s[|s| - 1] != c && |l| < |s| && (l != [] ==> s[|l|] == '[')
    requires !Contains(BEGIN, s) && !Contains(PRIVATE_KEY, s)
    ensures var x := Filler(c, |s|) + PRIVATE_KEY;
            !Contains(l + BEGIN + x, s) && '\n' !in x && Contains(x, PRIVATE_KEY)
  {
    KeyWords();
    FillerText(c, |s|);
    hide BEGIN, PRIVATE_KEY;
    LeftHeader(s, l);
    Between(l + BEGIN, c, PRIVATE_KEY, s);
    Assoc(l + BEGIN, Filler(c, |s|), PRIVATE_KEY);
    OccursThere(Filler(c, |s|), PRIVATE_KEY, []);
    assert Filler(c, |s|) + PRIVATE_KEY + [] == Filler(c, |s|) + PRIVATE_KEY;
  }

  /** ... and for one that goes on behind it. */
  lemma ClosedText(s: string, l: string, r: string, c: char)
    requires s != [] && 'a' <= c <= 'e' && s[0] != c && s[|s| - 1] != c && |l| < |s| && (l != [] ==> s[|l|] == '[')
    requires |r| < |s| && s[|s| - |r| - 1] == ']' && !Contains(BEGIN, s) && !Contains(PRIVATE_KEY, s)
    ensures var y := Filler(c, |s|);
            var x := y + PRIVATE_KEY + y;
            !Contains(l + Header(x) + Footer(y) + r, s) && '\n' !in x && Contains(x, PRIVATE_KEY)
  {
    KeyWords();
    EndDash();
    FillerText(c, |s|);
    hide BEGIN, END, PRIVATE_KEY, Filler, Contains;
    var y := Filler(c, |s|);
    OccursThere(y, PRIVATE_KEY, y);
    FoundAt(y + PRIVATE_KEY + y, PRIVATE_KEY, |y|);
    LeftHeader(s, l);
    Between(l + BEGIN, c, PRIVATE_KEY, s);
    var t1 := l + BEGIN + y + PRIVATE_KEY;
    PartHasChar(['\n'], s, ']');
    Between(t1, c, ['\n'], s);
    var t2 := t1 + y + ['\n'];
    PartHasChar(END, s, ']');
    Between(t2, c, END, s);
    var t3 := t2 + y + END;
    RightLine(s, r);
    Between(t3, c, ['\n'] + r, s);
    Joined(l, y, PRIVATE_KEY, r);
  }

  lemma FoundAt(text: string, s: string, i: nat)
    requires OccursAt(text, s, i)
    ensures Contains(text, s)
  {
  }

  lemma Joined(l: string, y: string, k: string, r: string)
    ensures l + Header(y + k + y) + Footer(y) + r == l + BEGIN + y + k + y + ['\n'] + y + END + y + (['\n'] + r)
  {
    hide BEGIN, END;
    var nl := ['\n'];
    HeaderParts(l, BEGIN, y, k, nl);
    var a := l + Header(y + k + y);
    Assoc(a, y + END + y, nl);
    Assoc(a, y + END, y);
    Assoc(a, y, END);
    assert a + Footer(y) == a + y + END + y + nl;
    Assoc(a + y + END + y, nl, r);
  }

  lemma HeaderParts(l: string, b: string, y: string, k: string, nl: string)
    ensures l + (b + (y + k + y) + nl) == l + b + y + k + y + nl
  {
    Assoc(b, y + k, y);
    Assoc(b, y, k);
    Assoc(l, b + y + k + y, nl);
    Assoc(l, b + y + k, y);
    Assoc(l, b + y, k);
    Assoc(l, b, y);
  }

  lemma OnlyScrubbed(text: string, s: string)
    requires s != [] && !Contains(text, s)
    ensures Usable([s]) && Redact(text, [s]) == Scrub(text)
  {
    hide Contains, Scrub;
    Untouched(text, [s]);
  }

  /** A key block between the two sides: its mark completes the secret. */
  lemma KeyMarkLeaks(s: string, o: int) returns (text: string)
    requires s != [] && Completes(s, o) && Clean(s) && !Contains(BEGIN, s) && !Contains(PRIVATE_KEY, s)
    ensures Usable([s]) && Contains(Redact(text, [s]), s)
  {
    var m := Bracketed(REDACTED_KEY);
    var l, r := Left(s, o), Right(s, m, o);
    Sides(s, m, o);
    assert m[0] == '[' && m[|m| - 1] == ']';
    PartsClean(s, m, o);
    var c := OtherLetter(s[0], s[|s| - 1], s[0], s[0]);
    FillerText(c, |s|);
    hide BEGIN, END, PRIVATE_KEY, REDACTED_KEY, Bracketed, Scrub, Filler, Left, Right, OverlapsAt, Clean;
    var y := Filler(c, |s|);
    if r == [] {
      OpenText(s, l, c);
      text := l + BEGIN + (y + PRIVATE_KEY);
      OpenLeak(l, y + PRIVATE_KEY);
      assert l + m + r == l + m;
    } else {
      ClosedText(s, l, r, c);
      text := l + Header(y + PRIVATE_KEY + y) + Footer(y) + r;
      ClosedLeak(l, y + PRIVATE_KEY + y, y, r);
    }
    OnlyScrubbed(text, s);
    FoundAt(l + m + r, s, if o < 0 then 0 else o);
  }

  lemma OpenLeak(l: string, x: string)
    requires Clean(l[..LineStart(l)]) && !Contains(LastLine(l), BEGIN) && '\n' !in x && Contains(x, PRIVATE_KEY)
    ensures Scrub(l + BEGIN + x) == l + Bracketed(REDACTED_KEY)
  {
    hide BEGIN, PRIVATE_KEY, REDACTED_KEY, Bracketed, Scrub, Clean, Contains;
    var before, last := l[..LineStart(l)], LastLine(l);
    assert before + last == l;
    OpenBlockScrubbed(last, x);
    ScrubAfter(before, last + BEGIN + x);
    assert before + (last + BEGIN + x) == l + BEGIN + x;
    assert before + (last + Bracketed(REDACTED_KEY)) == l + Bracketed(REDACTED_KEY);
  }

  lemma ClosedLeak(l: string, x: string, y: string, r: string)
    requires Clean(l[..LineStart(l)]) && !Contains(LastLine(l), BEGIN) && Clean(r)
    requires '\n' !in x && Contains(x, PRIVATE_KEY) && '\n' !in y && '-' !in y
    ensures Scrub(l + Header(x) + Footer(y) + r) == l + Bracketed(REDACTED_KEY) + r
  {
    hide BEGIN, PRIVATE_KEY, REDACTED_KEY, Bracketed, Scrub, Clean, Contains, Header, Footer;
    var before, last := l[..LineStart(l)], LastLine(l);
    assert before + last == l;
    BlockScrubbed(last, x, y, r);
    ScrubAfter(before, last + Header(x) + Footer(y) + r);
    assert before + (last + Header(x) + Footer(y) + r) == l + Header(x) + Footer(y) + r;
    assert before + (last + Bracketed(REDACTED_KEY) + r) == l + Bracketed(REDACTED_KEY) + r;
  }

  // ---- Exactly the secure ones ----

  lemma NotProtected(s: string)
    requires s != [] && !Secure(s)
    ensures !Protected(s)
  {
    hide BEGIN, PRIVATE_KEY, REDACTED, REDACTED_KEY, Bracketed, Contains, Redact, OverlapsAt, Completes, Clean;
    if o: int :| OverlapsAt(s, Bracketed(REDACTED), o) {
      var secrets, text := MarkLeaks(s, o);
      assert Usable(secrets) && LongestFirst(secrets) && s in secrets && Contains(Redact(text, secrets), s);
    } else {
      var o: int :| Completes(s, o);
      var text := KeyMarkLeaks(s, o);
      assert Usable([s]) && LongestFirst([s]) && s in [s] && Contains(Redact(text, [s]), s);
    }
  }

  /** Every secret, whatever it holds: it is protected in every list exactly when it is secure. */
  lemma ProtectedExactly(s: string)
    requires s != []
    ensures Protected(s) <==> Secure(s)
  {
    hide Protected, Secure;
    if Secure(s) { SecureProtected(s); } else { NotProtected(s); }
  }

  /** A bracket alone does no harm. */
  lemma BracketedRobust()
    ensures Robust("a[b")
  {
    NoLap(REDACTED);
    NoLap(REDACTED_KEY);
  }

  lemma NoLap(inner: string)
    requires inner != [] && inner[0] == 'R' && 'a' !in inner
    ensures Clear("a[b", Bracketed(inner))
  {
    var s, m := "a[b", Bracketed(inner);
    assert 'a' !in m && m[0] == '[' && m[1] == 'R';
    forall o: int ensures !OverlapsAt(s, m, o) {
      assert 0 <= o < |m| ==> s[0] != m[o + 0];
      assert o == -1 ==> s[2] != m[o + 2];
      assert o == -2 ==> s[2] != m[o + 2];
    }
  }
}
