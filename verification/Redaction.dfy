/** Secret redaction: replacement of configured secrets, then an in-place scrubber for private key blocks. */
module Redaction {
  import opened Types

  // ---- Searching ----

  predicate OccursAt(text: string, s: string, i: nat) {
    i + |s| <= |text| && forall k :: 0 <= k < |s| ==> text[i + k] == s[k]
  }

  ghost predicate Contains(text: string, s: string) {
    exists i: nat :: OccursAt(text, s, i)
  }

  /** The first occurrence at or after `from`, as `text[from..].find(s)` reports it. */
  function FindFrom(text: string, s: string, from: nat): (r: Option<nat>)
    requires from <= |text|
    ensures r.Some? ==>
            from <= r.value && OccursAt(text, s, r.value) && forall j: nat :: from <= j < r.value ==>
              !OccursAt(text, s, j)
    ensures r.None? ==> forall j: nat :: from <= j ==> !OccursAt(text, s, j)
    decreases |text| - from
  {
    if OccursAt(text, s, from) then Some(from)
    else if from == |text| then None
    else FindFrom(text, s, from + 1)
  }

  lemma PartContains(text: string, i: nat, j: nat, s: string)
    requires i <= j <= |text| && Contains(text[i..j], s)
    ensures Contains(text, s)
  {
    var k: nat :| OccursAt(text[i..j], s, k);
    assert OccursAt(text, s, i + k);
  }

  lemma ContainsTransitive(text: string, mid: string, s: string)
    requires Contains(text, mid) && Contains(mid, s)
    ensures Contains(text, s)
  {
    var i: nat :| OccursAt(text, mid, i);
    var j: nat :| OccursAt(mid, s, j);
    forall k | 0 <= k < |s| ensures text[i + j + k] == s[k] {
      assert text[i + (j + k)] == mid[j + k];
    }
    assert OccursAt(text, s, i + j);
  }

  // ---- Bracketed marks ----

  const REDACTED := "REDACTED"
  const REDACTED_KEY := "REDACTED PRIVATE KEY"

  function Bracketed(inner: string): string {
    ['['] + inner + [']']
  }

  predicate NoBrackets(s: string) {
    '[' !in s && ']' !in s
  }

  /** A string without brackets is found beside a mark or within it, never across its edge. */
  lemma AcrossMark(a: string, inner: string, b: string, s: string)
    requires NoBrackets(s) && s != []
    ensures Contains(a + Bracketed(inner) + b, s) <==> Contains(a, s) || Contains(inner, s) || Contains(b, s)
  {
    var text := a + Bracketed(inner) + b;
    var p, q := |a| + 1, |a| + 1 + |inner|;
    assert text[..|a|] == a && text[p..q] == inner && text[q + 1..|text|] == b;
    if Contains(a, s) { PartContains(text, 0, |a|, s); }
    if Contains(inner, s) { PartContains(text, p, q, s); }
    if Contains(b, s) { PartContains(text, q + 1, |text|, s); }
    if i: nat :| OccursAt(text, s, i) {
      OccursBeside(a, inner, b, s, i);
    }
  }

  lemma OccursBeside(a: string, inner: string, b: string, s: string, i: nat)
    requires NoBrackets(s) && s != [] && OccursAt(a + Bracketed(inner) + b, s, i)
    ensures OccursAt(a, s, i) || (i >= |a| + 1 && OccursAt(inner, s, i - |a| - 1))
            || (i >= |a| + 2 + |inner| && OccursAt(b, s, i - |a| - 2 - |inner|))
  {
    var text := a + Bracketed(inner) + b;
    var q := |a| + 1 + |inner|;
    assert text[|a|] == '[' && text[q] == ']';
    assert forall k :: i <= k < i + |s| ==> text[k] == s[k - i] && s[k - i] in s;
  }

  // ---- Strings that cannot overlap a mark ----

  /** Laid at offset o of m, s agrees with it on every common position, and there is one. */
  predicate OverlapsAt(s: string, m: string, o: int) {
    -|s| < o < |m| && forall j :: 0 <= j < |s| && 0 <= o + j < |m| ==> s[j] == m[o + j]
  }

  /**
   * However s and m are laid over each other, they differ: neither contains the other, and no
   * end of one begins the other.
   */
  ghost predicate Clear(s: string, m: string) {
    s != [] && forall o: int :: !OverlapsAt(s, m, o)
  }

  /** A string clear of m is found beside m only. */
  lemma AcrossClear(a: string, m: string, b: string, s: string)
    requires Clear(s, m)
    ensures Contains(a + m + b, s) <==> Contains(a, s) || Contains(b, s)
  {
    var text := a + m + b;
    Outer(a, m, b);
    if Contains(a, s) { PartContains(text, 0, |a|, s); }
    if Contains(b, s) { PartContains(text, |a| + |m|, |text|, s); }
    if i: nat :| OccursAt(text, s, i) {
      hide OverlapsAt, OccursAt;
      NotOver(s, m, i - |a|);
      BesideOrOver(a, m, b, s, i);
    }
  }

  lemma Outer(a: string, m: string, b: string)
    ensures var text := a + m + b; text[0..|a|] == a && text[|a| + |m|..|text|] == b
  {
    assert a + m + b == a + (m + b);
  }

  lemma NotOver(s: string, m: string, o: int)
    requires Clear(s, m)
    ensures s != [] && !OverlapsAt(s, m, o)
  {
    hide OverlapsAt;
  }

  lemma BesideOrOver(a: string, m: string, b: string, s: string, i: nat)
    requires s != [] && OccursAt(a + m + b, s, i)
    ensures OccursAt(a, s, i) || OverlapsAt(s, m, i - |a|) || (i >= |a| + |m| && OccursAt(b, s, i - |a| - |m|))
  {
    var text := a + m + b;
    assert forall j {:trigger s[j]} :: 0 <= j < |s| ==> text[i + j] == s[j];
  }

  /** Without brackets that comes to not being part of what the brackets hold. */
  lemma PlainClear(s: string, inner: string)
    requires s != [] && NoBrackets(s)
    ensures Clear(s, Bracketed(inner)) <==> !Contains(inner, s)
  {
    var m := Bracketed(inner);
    if i: nat :| OccursAt(inner, s, i) {
      assert forall j {:trigger s[j]} :: 0 <= j < |s| ==> m[i + 1 + j] == inner[i + j];
      assert OverlapsAt(s, m, i + 1);
    }
    forall o: int | OverlapsAt(s, m, o) ensures Contains(inner, s) {
      EdgeOrInside(s, inner, o);
    }
  }

  lemma EdgeOrInside(s: string, inner: string, o: int)
    requires OverlapsAt(s, Bracketed(inner), o)
    ensures o <= 0 ==> '[' in s
    ensures o + |s| >= |inner| + 2 ==> ']' in s
    ensures o > 0 && o + |s| < |inner| + 2 ==> OccursAt(inner, s, o - 1)
  {
    var m := Bracketed(inner);
    assert m[0] == '[' && m[|m| - 1] == ']';
    assert o <= 0 ==> s[-o] == m[0];
    assert o + |s| >= |m| ==> s[|m| - 1 - o] == m[|m| - 1];
    assert forall j {:trigger s[j]} :: 0 <= j < |s| && 0 < o + j < |m| - 1 ==> m[o + j] == inner[o - 1 + j];
  }

  // ---- Replacing one secret, and all of them ----

  /** `str::replace`: leftmost occurrences, not overlapping. */
  function Replace(text: string, s: string): string
    requires s != []
    decreases |text|
  {
    var i := FindFrom(text, s, 0);
    if i.None? then text else text[..i.value] + Bracketed(REDACTED) + Replace(text[i.value + |s|..], s)
  }

  ghost predicate Usable(secrets: seq<string>) {
    forall i :: 0 <= i < |secrets| ==> secrets[i] != []
  }

  function ReplaceAll(text: string, secrets: seq<string>): string
    requires Usable(secrets)
    decreases |secrets|
  {
    if secrets == [] then text else ReplaceAll(Replace(text, secrets[0]), secrets[1..])
  }

  lemma {:induction false} ReplaceKeepsOut(text: string, s: string, other: string)
    requires s != [] && Clear(other, Bracketed(REDACTED)) && !Contains(text, other)
    ensures !Contains(Replace(text, s), other)
    decreases |text|
  {
    hide REDACTED, Bracketed, Clear, Contains;
    var i := FindFrom(text, s, 0);
    if i.Some? {
      var rest := text[i.value + |s|..];
      if Contains(rest, other) { assert rest == text[i.value + |s|..|text|];
        PartContains(text, i.value + |s|, |text|, other); }
      if Contains(text[..i.value], other) { PartContains(text, 0, i.value, other); }
      ReplaceKeepsOut(rest, s, other);
      AcrossClear(text[..i.value], Bracketed(REDACTED), Replace(rest, s), other);
    }
  }

  lemma {:induction false} ReplaceRemoves(text: string, s: string)
    requires s != [] && Clear(s, Bracketed(REDACTED))
    ensures !Contains(Replace(text, s), s)
    decreases |text|
  {
    var i := FindFrom(text, s, 0);
    if i.Some? {
      if j: nat :| OccursAt(text[..i.value], s, j) {
        assert OccursAt(text, s, j);
      }
      ReplaceRemoves(text[i.value + |s|..], s);
      AcrossClear(text[..i.value], Bracketed(REDACTED), Replace(text[i.value + |s|..], s), s);
    }
  }

  /** Secrets without brackets. */
  ghost predicate Plain(secrets: seq<string>) {
    forall i :: 0 <= i < |secrets| ==> secrets[i] != [] && NoBrackets(secrets[i])
  }

  ghost predicate NoneIn(text: string, secrets: seq<string>) {
    forall i :: 0 <= i < |secrets| ==> !Contains(text, secrets[i])
  }

  lemma {:induction false} ReplaceAllKeepsOut(text: string, secrets: seq<string>, other: string)
    requires Usable(secrets) && Clear(other, Bracketed(REDACTED)) && !Contains(text, other)
    ensures !Contains(ReplaceAll(text, secrets), other)
    decreases |secrets|
  {
    if secrets != [] {
      ReplaceKeepsOut(text, secrets[0], other);
      ReplaceAllKeepsOut(Replace(text, secrets[0]), secrets[1..], other);
    }
  }

  /** No later replacement recreates an earlier secret that is clear of the mark, whatever the other secrets are. */
  lemma {:induction false} ReplaceAllRemoves(text: string, secrets: seq<string>, i: nat)
    requires Usable(secrets) && i < |secrets| && Clear(secrets[i], Bracketed(REDACTED))
    ensures !Contains(ReplaceAll(text, secrets), secrets[i])
    decreases |secrets|
  {
    hide REDACTED, Bracketed, Clear, Contains, Replace;
    var next := Replace(text, secrets[0]);
    if i == 0 {
      ReplaceRemoves(text, secrets[0]);
      ReplaceAllKeepsOut(next, secrets[1..], secrets[0]);
    } else {
      assert secrets[1..][i - 1] == secrets[i];
      ReplaceAllRemoves(next, secrets[1..], i - 1);
    }
  }

  // ---- The private key scrubber ----

  const BEGIN := "-----BEGIN "
  const END := "-----END "
  const PRIVATE_KEY := "PRIVATE KEY"

  /** One past the end of the line that `i` is on. */
  function LineEnd(text: string, i: nat): (e: nat)
    requires i <= |text|
    ensures i <= e <= |text|
    ensures forall k :: i <= k < e - 1 ==> text[k] != '\n'
    ensures e < |text| ==> i < e && text[e - 1] == '\n'
    decreases |text| - i
  {
    if i == |text| then i
    else if text[i] == '\n' then i + 1
    else LineEnd(text, i + 1)
  }

  /** A marker at `i` with the key words on the rest of its line. */
  ghost predicate KeyHeader(text: string, i: nat) {
    OccursAt(text, BEGIN, i) && Contains(text[i..LineEnd(text, i)], PRIVATE_KEY)
  }

  /** What the scrubber is for: no private key header is left. */
  ghost predicate Clean(text: string) {
    forall i: nat :: !KeyHeader(text, i)
  }

  /** The end of the block whose header ends at `headerEnd`: through the END line, or all the rest. */
  function BlockEnd(text: string, headerEnd: nat): (e: nat)
    requires headerEnd <= |text|
    ensures headerEnd <= e <= |text|
  {
    var end := FindFrom(text, END, headerEnd);
    if end.None? then |text| else LineEnd(text, end.value)
  }

  ghost function Scrub(text: string): string
    decreases |text|
  {
    var start := FindFrom(text, BEGIN, 0);
    if start.None? then text
    else
      var headerEnd := LineEnd(text, start.value);
      if !Contains(text[start.value..headerEnd], PRIVATE_KEY) then text[..headerEnd] + Scrub(text[headerEnd..])
      else text[..start.value] + Bracketed(REDACTED_KEY) + Scrub(text[BlockEnd(text, headerEnd)..])
  }

  // ---- The scrubber cleans, and leaves clean text alone ----

  lemma {:induction false} ScrubClean(text: string)
    requires Clean(text)
    ensures Scrub(text) == text
    decreases |text|
  {
    var start := FindFrom(text, BEGIN, 0);
    if start.Some? {
      var headerEnd := LineEnd(text, start.value);
      assert !KeyHeader(text, start.value);
      var rest := text[headerEnd..];
      forall i: nat ensures !KeyHeader(rest, i) {
        SuffixHeader(text, headerEnd, i);
      }
      ScrubClean(rest);
      assert text[..headerEnd] + rest == text;
    }
  }

  lemma {:induction false} LineEndSuffix(text: string, from: nat, i: nat)
    requires from + i <= |text|
    ensures LineEnd(text, from + i) == from + LineEnd(text[from..], i)
    decreases |text| - i
  {
    if from + i < |text| && text[from + i] != '\n' { LineEndSuffix(text, from, i + 1); }
  }

  /** A header of a suffix is a header of the text. */
  lemma SuffixHeader(text: string, from: nat, i: nat)
    requires from <= |text|
    ensures KeyHeader(text[from..], i) <==> KeyHeader(text, from + i)
  {
    var rest := text[from..];
    assert OccursAt(rest, BEGIN, i) <==> OccursAt(text, BEGIN, from + i);
    if from + i <= |text| {
      LineEndSuffix(text, from, i);
      assert rest[i..LineEnd(rest, i)] == text[from + i..LineEnd(text, from + i)];
    }
  }

  lemma Shapes()
    ensures |BEGIN| == 11 && BEGIN[0] == '-' && NoBrackets(BEGIN) && '\n' !in BEGIN
    ensures '-' !in REDACTED_KEY && NoBrackets(REDACTED) && NoBrackets(REDACTED_KEY)
  {
  }

  /** Behind a mark only the headers of what follows are headers. */
  lemma MarkClean(a: string, b: string)
    requires (forall i: nat :: !OccursAt(a, BEGIN, i)) && Clean(b)
    ensures Clean(a + Bracketed(REDACTED_KEY) + b)
  {
    Shapes();
    hide BEGIN, PRIVATE_KEY, REDACTED_KEY;
    var text, from := a + Bracketed(REDACTED_KEY) + b, |a| + 2 + |REDACTED_KEY|;
    assert text[from..] == b;
    forall i: nat ensures !KeyHeader(text, i) {
      if OccursAt(text, BEGIN, i) {
        OccursBeside(a, REDACTED_KEY, b, BEGIN, i);
        FirstCharIn(REDACTED_KEY, BEGIN);
        SuffixHeader(text, from, i - from);
      }
    }
  }

  lemma FirstCharIn(text: string, s: string)
    requires s != [] && s[0] !in text
    ensures forall i: nat :: !OccursAt(text, s, i)
  {
    forall i: nat ensures !OccursAt(text, s, i) {
      assert i + |s| <= |text| ==> text[i + 0] in text;
    }
  }

  lemma LineEndIs(text: string, i: nat, e: nat)
    requires i < e <= |text| && (forall k :: i <= k < e - 1 ==> text[k] != '\n') && (e < |text| ==> text[e - 1] == '\n')
    ensures LineEnd(text, i) == e
  {
  }

  /** On the lines up to and including a header without the key words there is no key header. */
  lemma LineClean(r: string, start: nat, e: nat, i: nat)
    requires start < e <= |r| && !Contains(r[start..e], PRIVATE_KEY) && start <= i < e
    requires (forall k :: start <= k < e - 1 ==> r[k] != '\n') && (e < |r| ==> r[e - 1] == '\n')
    ensures !KeyHeader(r, i)
  {
    hide BEGIN, PRIVATE_KEY;
    LineEndIs(r, i, e);
    if Contains(r[i..e], PRIVATE_KEY) {
      assert r[start..e][i - start..e - start] == r[i..e];
      PartContains(r[start..e], i - start, e - start, PRIVATE_KEY);
    }
  }

  /** ... whatever follows them. */
  lemma LinesClean(text: string, start: nat, e: nat, tail: string)
    requires start < |text| && e == LineEnd(text, start) && !Contains(text[start..e], PRIVATE_KEY)
    requires (forall j: nat :: j < start ==> !OccursAt(text, BEGIN, j)) && Clean(tail) && (e == |text| ==> tail == [])
    ensures Clean(text[..e] + tail)
  {
    hide BEGIN, PRIVATE_KEY, KeyHeader, LineEnd, Contains;
    var r := text[..e] + tail;
    assert r[e..] == tail && r[start..e] == text[start..e] && (e == |text| ==> r == text);
    forall i: nat ensures !KeyHeader(r, i) {
      if i >= e {
        if i <= |r| { SuffixHeader(r, e, i - e); } else { NoMarkerNoHeader(r, i); }
      } else if i >= start {
        LineClean(r, start, e, i);
      } else {
        BeforeLine(text, e, i, r);
        NoMarkerNoHeader(r, i);
      }
    }
  }

  lemma NoMarkerNoHeader(r: string, i: nat)
    ensures !OccursAt(r, BEGIN, i) ==> !KeyHeader(r, i)
  {
  }

  lemma BeforeLine(text: string, e: nat, i: nat, r: string)
    requires 0 < e <= |text| && e <= |r| && text[..e] == r[..e] && i < e
    requires e < |text| ==> text[e - 1] == '\n'
    requires e == |text| ==> r == text
    ensures OccursAt(r, BEGIN, i) ==> OccursAt(text, BEGIN, i)
  {
    Shapes();
    hide BEGIN;
    if OccursAt(r, BEGIN, i) {
      assert forall k :: i <= k < i + |BEGIN| ==> r[k] == BEGIN[k - i] && BEGIN[k - i] in BEGIN;
      assert forall k :: 0 <= k < e ==> r[k] == r[..e][k] == text[..e][k] == text[k];
      assert i + |BEGIN| <= e || e == |text|;
      assert OccursAt(text, BEGIN, i);
    }
  }

  lemma PrefixFree(text: string, start: nat)
    requires start <= |text| && forall j: nat :: j < start ==> !OccursAt(text, BEGIN, j)
    ensures forall j: nat :: !OccursAt(text[..start], BEGIN, j)
  {
    Shapes();
    hide BEGIN;
    forall j: nat ensures !OccursAt(text[..start], BEGIN, j) {
      assert OccursAt(text[..start], BEGIN, j) ==> j < start && OccursAt(text, BEGIN, j);
    }
  }

  lemma {:induction false} ScrubIsClean(text: string)
    ensures Clean(Scrub(text))
    decreases |text|
  {
    var start := FindFrom(text, BEGIN, 0);
    if start.None? {
      assert forall i: nat :: !OccursAt(text, BEGIN, i);
    } else {
      var headerEnd := LineEnd(text, start.value);
      if !Contains(text[start.value..headerEnd], PRIVATE_KEY) {
        ScrubIsClean(text[headerEnd..]);
        LinesClean(text, start.value, headerEnd, Scrub(text[headerEnd..]));
      } else {
        ScrubIsClean(text[BlockEnd(text, headerEnd)..]);
        PrefixFree(text, start.value);
        MarkClean(text[..start.value], Scrub(text[BlockEnd(text, headerEnd)..]));
      }
    }
  }

  /** A second run changes nothing. */
  lemma ScrubIdempotent(text: string)
    ensures Scrub(Scrub(text)) == Scrub(text)
  {
    ScrubIsClean(text);
    ScrubClean(Scrub(text));
  }

  // ---- What is kept, what is dropped ----

  datatype Piece = Kept(text: string) | Dropped(block: string)

  function Original(pieces: seq<Piece>): string {
    if pieces == [] then []
    else (match pieces[0] case Kept(t) => t case Dropped(b) => b) + Original(pieces[1..])
  }

  function Rewritten(pieces: seq<Piece>): string {
    if pieces == [] then []
    else (match pieces[0] case Kept(t) => t case Dropped(_) => Bracketed(REDACTED_KEY)) + Rewritten(pieces[1..])
  }

  /** No end marker follows the block's first line. */
  ghost predicate Unclosed(block: string) {
    forall j: nat :: LineEnd(block, 0) <= j ==> !OccursAt(block, END, j)
  }

  /** A block starts with a key header; the first end marker behind that line, if there is one, is on its last line. */
  ghost predicate KeyBlock(block: string) {
    && KeyHeader(block, 0)
    && (Unclosed(block) ||
        exists end: nat ::
          && LineEnd(block, 0) <= end < |block| && OccursAt(block, END, end)
          && (forall k :: end <= k < |block| - 1 ==> block[k] != '\n')
          && forall j: nat :: LineEnd(block, 0) <= j < end ==> !OccursAt(block, END, j))
  }

  /** Only key blocks are dropped, and one that is not closed is dropped with all the rest. */
  ghost predicate BlocksOnly(pieces: seq<Piece>) {
    forall i :: 0 <= i < |pieces| && pieces[i].Dropped? ==>
      KeyBlock(pieces[i].block) && (Unclosed(pieces[i].block) ==> Original(pieces[i + 1..]) == [])
  }

  ghost function Pieces(text: string): seq<Piece>
    decreases |text|
  {
    var start := FindFrom(text, BEGIN, 0);
    if start.None? then [Kept(text)]
    else
      var headerEnd := LineEnd(text, start.value);
      if !Contains(text[start.value..headerEnd], PRIVATE_KEY) then [Kept(text[..headerEnd])] + Pieces(text[headerEnd..])
      else
        var end := BlockEnd(text, headerEnd);
        [Kept(text[..start.value]), Dropped(text[start.value..end])] + Pieces(text[end..])
  }

  lemma OnePiece(p: Piece, rest: seq<Piece>)
    requires BlocksOnly(rest) && (p.Dropped? ==> KeyBlock(p.block) && (Unclosed(p.block) ==> Original(rest) == []))
    ensures BlocksOnly([p] + rest)
    ensures Original([p] + rest) == (match p case Kept(t) => t case Dropped(b) => b) + Original(rest)
    ensures Rewritten([p] + rest)
            == (match p case Kept(t) => t case Dropped(_) => Bracketed(REDACTED_KEY)) + Rewritten(rest)
  {
    hide KeyBlock, Unclosed, Bracketed, Original;
    var pieces := [p] + rest;
    forall i | 0 <= i < |pieces| && pieces[i].Dropped?
      ensures KeyBlock(pieces[i].block) && (Unclosed(pieces[i].block) ==> Original(pieces[i + 1..]) == [])
    {
      if i == 0 {
        assert pieces[1..] == rest;
      } else {
        assert pieces[i] == rest[i - 1] && pieces[i + 1..] == rest[i..];
      }
    }
    OriginalUnfolds(p, rest);
    assert pieces[1..] == rest;
  }

  lemma OriginalUnfolds(p: Piece, rest: seq<Piece>)
    ensures Original([p] + rest) == (match p case Kept(t) => t case Dropped(b) => b) + Original(rest)
  {
    assert ([p] + rest)[1..] == rest;
  }

  lemma TwoPieces(p: Piece, q: Piece, rest: seq<Piece>)
    ensures [p, q] + rest == [p] + ([q] + rest)
  {
  }

  ghost predicate Cut(text: string, pieces: seq<Piece>, result: string) {
    Original(pieces) == text && Rewritten(pieces) == result && BlocksOnly(pieces)
  }

  lemma KeptFirst(text: string, i: nat, rest: seq<Piece>, result: string)
    requires i <= |text| && Cut(text[i..], rest, result)
    ensures Cut(text, [Kept(text[..i])] + rest, text[..i] + result)
  {
    hide BlocksOnly, Original, Rewritten;
    OnePiece(Kept(text[..i]), rest);
    assert text[..i] + text[i..] == text;
  }

  lemma DroppedFirst(text: string, i: nat, rest: seq<Piece>, result: string)
    requires i <= |text| && Cut(text[i..], rest, result) && KeyBlock(text[..i])
    requires Unclosed(text[..i]) ==> i == |text|
    ensures Cut(text, [Dropped(text[..i])] + rest, Bracketed(REDACTED_KEY) + result)
  {
    hide BlocksOnly, Original, Rewritten, Bracketed, REDACTED_KEY, KeyBlock, Unclosed;
    OnePiece(Dropped(text[..i]), rest);
    assert text[..i] + text[i..] == text;
  }

  lemma BeginFound(text: string, i: nat)
    requires OccursAt(text, BEGIN, i)
    ensures i < |text| && i < LineEnd(text, i)
  {
  }

  /** The text is cut into pieces that are kept in order, except that each private key block becomes one mark. */
  lemma {:induction false} ScrubKeepsTheRest(text: string)
    ensures Cut(text, Pieces(text), Scrub(text))
    decreases |text|
  {
    hide BEGIN, PRIVATE_KEY, REDACTED_KEY, Contains, Cut, Bracketed, OccursAt, LineEnd;
    var found := FindFrom(text, BEGIN, 0);
    if found.None? {
      NoPieces();
      assert text[|text|..] == [] && text[..|text|] == text && text + [] == text && [Kept(text)] + [] == [Kept(text)];
      KeptFirst(text, |text|, [], []);
    } else {
      var start := found.value;
      BeginFound(text, start);
      var headerEnd := LineEnd(text, start);
      if !Contains(text[start..headerEnd], PRIVATE_KEY) {
        ScrubKeepsTheRest(text[headerEnd..]);
        KeptFirst(text, headerEnd, Pieces(text[headerEnd..]), Scrub(text[headerEnd..]));
      } else {
        ScrubKeepsTheRest(text[BlockEnd(text, headerEnd)..]);
        CutBlock(text, start);
      }
    }
  }

  lemma CutBlock(text: string, start: nat)
    requires start < |text| && KeyHeader(text, start) && FindFrom(text, BEGIN, 0) == Some(start)
    requires var rest := text[BlockEnd(text, LineEnd(text, start))..]; Cut(rest, Pieces(rest), Scrub(rest))
    ensures Cut(text, Pieces(text), Scrub(text))
  {
    var end := BlockEnd(text, LineEnd(text, start));
    PiecesUnfold(text, start);
    ScrubUnfolds(text, start);
    BlockIsKeyBlock(text, start);
    hide BEGIN, PRIVATE_KEY, REDACTED_KEY, Contains, Cut, Bracketed, OccursAt, LineEnd, Scrub, Pieces, BlockEnd,
      KeyBlock, FindFrom, Unclosed;
    CutTogether(text, start, end, Pieces(text[end..]), Scrub(text[end..]));
  }

  lemma CutTogether(text: string, start: nat, end: nat, rest: seq<Piece>, result: string)
    requires start <= end <= |text| && KeyBlock(text[start..end]) && Cut(text[end..], rest, result)
    requires Unclosed(text[start..end]) ==> end == |text|
    ensures Cut(text, [Kept(text[..start]), Dropped(text[start..end])] + rest,
            text[..start] + Bracketed(REDACTED_KEY) + result)
  {
    hide Cut, KeyBlock, Unclosed, Bracketed, REDACTED_KEY;
    SliceAgain(text, start, start, end);
    DroppedFirst(text[start..], end - start, rest, result);
    KeptFirst(text, start, [Dropped(text[start..end])] + rest, Bracketed(REDACTED_KEY) + result);
    TwoPieces(Kept(text[..start]), Dropped(text[start..end]), rest);
    Regroup(text[..start], Bracketed(REDACTED_KEY), text[..start] + Bracketed(REDACTED_KEY), [], result);
  }

  lemma PiecesUnfold(text: string, start: nat)
    requires start < |text| && KeyHeader(text, start) && FindFrom(text, BEGIN, 0) == Some(start)
    ensures var end := BlockEnd(text, LineEnd(text, start));
            Pieces(text) == [Kept(text[..start]), Dropped(text[start..end])] + Pieces(text[end..])
  {
    hide BEGIN, PRIVATE_KEY, Contains, OccursAt, LineEnd, BlockEnd;
  }

  lemma NoPieces()
    ensures Cut([], [], [])
  {
  }

  lemma MarkerOnLine(text: string, s: string, i: nat)
    requires OccursAt(text, s, i) && '\n' !in s && i < |text|
    ensures i + |s| <= LineEnd(text, i)
  {
    assert forall k :: i <= k < i + |s| ==> text[k] == s[k - i] && s[k - i] in s;
  }

  lemma SliceOccurs(text: string, a: nat, b: nat, s: string, j: nat)
    requires a <= b <= |text|
    ensures OccursAt(text[a..b], s, j) <==> a + j + |s| <= b && OccursAt(text, s, a + j)
  {
    assert forall k {:trigger s[k]} :: 0 <= k < |s| && a + j + |s| <= b ==>
      text[a + (j + k)] == text[a..b][j + k] && a + (j + k) == a + j + k;
  }

  lemma SliceLine(text: string, a: nat, b: nat, i: nat)
    requires a <= i <= b <= |text| && LineEnd(text, i) <= b
    ensures LineEnd(text[a..b], i - a) == LineEnd(text, i) - a
  {
    if i < b { LineEndIs(text[a..b], i - a, LineEnd(text, i) - a); }
  }

  lemma EndShape()
    ensures END != [] && '\n' !in END
  {
  }

  lemma BlockIsKeyBlock(text: string, start: nat)
    requires start < |text| && KeyHeader(text, start)
    ensures var end := BlockEnd(text, LineEnd(text, start));
            KeyBlock(text[start..end]) && (Unclosed(text[start..end]) ==> end == |text|)
  {
    Shapes();
    hide BEGIN, END, PRIVATE_KEY, REDACTED_KEY, REDACTED, OccursAt, FindFrom, LineEnd, Contains, BlockEnd, KeyBlock,
      Unclosed;
    var headerEnd := LineEnd(text, start);
    var end := BlockEnd(text, headerEnd);
    var block := text[start..end];
    MarkerOnLine(text, BEGIN, start);
    SliceOccurs(text, start, end, BEGIN, 0);
    SliceLine(text, start, end, start);
    assert block[0..headerEnd - start] == text[start..headerEnd];
    BlockEndInside(text, start, headerEnd);
    assert KeyHeader(block, 0);
    ClosedBlock(block);
    ClosedInside(text, start, headerEnd);
  }

  lemma ClosedBlock(block: string)
    requires KeyHeader(block, 0) && BlockEnd(block, LineEnd(block, 0)) == |block|
    ensures KeyBlock(block)
  {
    EndShape();
    hide BEGIN, END, PRIVATE_KEY, Contains, LineEnd;
    var found := FindFrom(block, END, LineEnd(block, 0));
    if found.Some? {
      OccursInside(block, END, found.value);
      assert LineEnd(block, found.value) == |block|;
    }
  }

  /** A block that holds no end marker behind its header ends where the text does. */
  lemma ClosedInside(text: string, start: nat, headerEnd: nat)
    requires start < |text| && headerEnd == LineEnd(text, start)
    ensures var end := BlockEnd(text, headerEnd); Unclosed(text[start..end]) ==> end == |text|
  {
    EndShape();
    hide END, LineEnd, OccursAt;
    var end := BlockEnd(text, headerEnd);
    var block := text[start..end];
    SliceLine(text, start, end, start);
    var found := FindFrom(text, END, headerEnd);
    if found.Some? {
      OccursInside(text, END, found.value);
      MarkerOnLine(text, END, found.value);
      SliceOccurs(text, start, end, END, found.value - start);
      assert OccursAt(block, END, found.value - start);
    }
  }

  lemma BlockEndInside(text: string, start: nat, headerEnd: nat)
    requires start <= headerEnd <= |text|
    ensures var end := BlockEnd(text, headerEnd); BlockEnd(text[start..end], headerEnd - start) == end - start
  {
    EndShape();
    hide END, OccursAt, LineEnd;
    var end := BlockEnd(text, headerEnd);
    var block := text[start..end];
    forall j: nat ensures OccursAt(block, END, j) <==> start + j + |END| <= end && OccursAt(text, END, start + j) {
      SliceOccurs(text, start, end, END, j);
    }
    var found, inBlock := FindFrom(text, END, headerEnd), FindFrom(block, END, headerEnd - start);
    if found.Some? {
      OccursInside(text, END, found.value);
      MarkerOnLine(text, END, found.value);
      assert OccursAt(block, END, found.value - start);
      assert inBlock == Some(found.value - start);
      SliceLine(text, start, end, found.value);
    }
  }

  lemma OccursInside(text: string, s: string, i: nat)
    requires OccursAt(text, s, i) && s != []
    ensures i < |text|
  {
  }

  // ---- The scrubber as the program runs it ----

  method ContainsText(text: string, s: string) returns (r: bool)
    ensures r <==> Contains(text, s)
  {
    r := FindFrom(text, s, 0).Some?;
  }

  /** Edits the text in place while a search position moves on. */
  method RedactPrivateKeyBlocks(input: string) returns (text: string)
    ensures text == Scrub(input)
  {
    hide BEGIN, END, PRIVATE_KEY, REDACTED_KEY, Contains, Scrub, LineEnd, FindFrom, Bracketed;
    text := input;
    var searchFrom: nat := 0;
    var start := FindFrom(text, BEGIN, searchFrom);
    assert text[..0] + Scrub(text[0..]) == Scrub(input) by { assert text[0..] == input; }
    while start.Some?
      invariant searchFrom <= |text| && start == FindFrom(text, BEGIN, searchFrom)
      invariant text[..searchFrom] + Scrub(text[searchFrom..]) == Scrub(input)
      decreases |text| - searchFrom
    {
      BeginFound(text, start.value);
      var headerEnd := LineEnd(text, start.value);
      var key := ContainsText(text[start.value..headerEnd], PRIVATE_KEY);
      if !key {
        KeptStep(text, searchFrom, start.value, headerEnd);
        searchFrom := headerEnd;
      } else {
        DroppedStep(text, searchFrom, start.value, BlockEnd(text, headerEnd));
        var end := FindFrom(text, END, headerEnd);
        if end.None? {
          ScrubNothing();
          assert text[|text|..] == []
            && text[..start.value] + Bracketed(REDACTED_KEY) + [] == text[..start.value] + Bracketed(REDACTED_KEY);
          text := text[..start.value] + Bracketed(REDACTED_KEY);
          return;
        }
        var blockEnd := LineEnd(text, end.value);
        ghost var before := text;
        text := text[..start.value] + Bracketed(REDACTED_KEY) + text[blockEnd..];
        searchFrom := start.value + |Bracketed(REDACTED_KEY)|;
        assert text[..searchFrom] == before[..start.value] + Bracketed(REDACTED_KEY)
          && text[searchFrom..] == before[blockEnd..];
      }
      start := FindFrom(text, BEGIN, searchFrom);
    }
    NothingFound(text, searchFrom);
    assert text[..searchFrom] + text[searchFrom..] == text;
  }

  lemma ScrubNothing()
    ensures Scrub([]) == []
  {
  }

  /** One unfolding of the specification. */
  lemma ScrubUnfolds(text: string, start: nat)
    requires FindFrom(text, BEGIN, 0) == Some(start)
    ensures var e := LineEnd(text, start);
            Scrub(text) == if !Contains(text[start..e], PRIVATE_KEY) then text[..e] + Scrub(text[e..])
                           else text[..start] + Bracketed(REDACTED_KEY) + Scrub(text[BlockEnd(text, e)..])
  {
    hide BEGIN, END, PRIVATE_KEY, REDACTED_KEY, Contains, Bracketed;
  }

  lemma SliceAgain(text: string, a: nat, b: nat, c: nat)
    requires a <= b <= c <= |text|
    ensures text[a..][b - a..c - a] == text[b..c] && text[a..][c - a..] == text[c..]
            && text[..a] + text[a..][..c - a] == text[..c]
  {
  }

  lemma Regroup(p: string, q: string, pq: string, mark: string, t: string)
    requires p + q == pq
    ensures p + (q + t) == pq + t && p + (q + mark + t) == pq + mark + t
  {
  }

  /** One turn of the loop against it, past a header without the key words ... */
  lemma KeptStep(text: string, from: nat, start: nat, e: nat)
    requires from <= |text| && FindFrom(text, BEGIN, from) == Some(start) && start < |text| && e == LineEnd(text, start)
    requires !Contains(text[start..e], PRIVATE_KEY)
    ensures text[..from] + Scrub(text[from..]) == text[..e] + Scrub(text[e..])
  {
    hide *;
    SuffixParts(text, from, start);
    KeptTogether(text, from, start, e, text[from..]);
  }

  /** ... and past a block. */
  lemma DroppedStep(text: string, from: nat, start: nat, end: nat)
    requires from <= |text| && FindFrom(text, BEGIN, from) == Some(start) && start < |text|
             && end == BlockEnd(text, LineEnd(text, start))
    requires Contains(text[start..LineEnd(text, start)], PRIVATE_KEY)
    ensures text[..from] + Scrub(text[from..]) == text[..start] + Bracketed(REDACTED_KEY) + Scrub(text[end..])
  {
    hide *;
    SuffixParts(text, from, start);
    DroppedTogether(text, from, start, LineEnd(text, start), end, text[from..]);
  }

  /** The first header of a suffix, its line and its block are those of the text. */
  ghost predicate SameParts(text: string, from: nat, start: nat, e: nat, rest: string) {
    && from <= start <= e <= |text| && rest == text[from..]
    && FindFrom(rest, BEGIN, 0) == Some(start - from) && LineEnd(rest, start - from) == e - from
    && BlockEnd(rest, e - from) == BlockEnd(text, e) - from
    && (Contains(rest[start - from..e - from], PRIVATE_KEY) <==> Contains(text[start..e], PRIVATE_KEY))
  }

  lemma SuffixParts(text: string, from: nat, start: nat)
    requires from <= |text| && FindFrom(text, BEGIN, from) == Some(start) && start < |text|
    ensures SameParts(text, from, start, LineEnd(text, start), text[from..])
  {
    hide BEGIN, END, PRIVATE_KEY, Contains, BlockEnd, OccursAt, LineEnd, FindFrom;
    var e := LineEnd(text, start);
    SuffixFind(text, from, BEGIN, from);
    LineEndSuffix(text, from, start - from);
    SuffixBlockEnd(text, from, e);
    SamePiece(text, from, start, e, text[from..]);
  }

  lemma SamePiece(text: string, from: nat, start: nat, e: nat, rest: string)
    requires from <= start <= e <= |text| && rest == text[from..]
    ensures rest[start - from..e - from] == text[start..e]
  {
  }

  lemma KeptTogether(text: string, from: nat, start: nat, e: nat, rest: string)
    requires from <= start <= e <= |text| && SameParts(text, from, start, e, rest)
    requires !Contains(text[start..e], PRIVATE_KEY)
    ensures text[..from] + Scrub(rest) == text[..e] + Scrub(text[e..])
  {
    hide BEGIN, PRIVATE_KEY, Contains, Scrub, OccursAt, LineEnd, FindFrom;
    UnfoldsKept(rest, start - from, e - from);
    SliceAgain(text, from, e, e);
    Regroup(text[..from], rest[..e - from], text[..e], [], Scrub(text[e..]));
  }

  lemma DroppedTogether(text: string, from: nat, start: nat, e: nat, end: nat, rest: string)
    requires from <= start <= e <= end <= |text| && SameParts(text, from, start, e, rest)
    requires BlockEnd(text, e) == end && Contains(text[start..e], PRIVATE_KEY)
    ensures text[..from] + Scrub(rest) == text[..start] + Bracketed(REDACTED_KEY) + Scrub(text[end..])
  {
    hide BEGIN, END, PRIVATE_KEY, REDACTED_KEY, Contains, Bracketed, Scrub, BlockEnd, OccursAt, LineEnd, FindFrom;
    UnfoldsDropped(rest, start - from, e - from, end - from);
    SliceAgain(text, from, start, start);
    SliceAgain(text, from, end, end);
    Regroup(text[..from], rest[..start - from], text[..start], Bracketed(REDACTED_KEY), Scrub(text[end..]));
  }

  lemma UnfoldsKept(text: string, start: nat, e: nat)
    requires FindFrom(text, BEGIN, 0) == Some(start) && start <= e <= |text| && e == LineEnd(text, start)
    requires !Contains(text[start..e], PRIVATE_KEY)
    ensures Scrub(text) == text[..e] + Scrub(text[e..])
  {
    hide BEGIN, END, PRIVATE_KEY, REDACTED_KEY, Contains, Bracketed, Scrub, BlockEnd, OccursAt, LineEnd, FindFrom;
    ScrubUnfolds(text, start);
  }

  lemma UnfoldsDropped(text: string, start: nat, e: nat, end: nat)
    requires FindFrom(text, BEGIN, 0) == Some(start) && start <= e <= |text| && e == LineEnd(text, start)
    requires end == BlockEnd(text, e) && Contains(text[start..e], PRIVATE_KEY)
    ensures start <= end <= |text|
    ensures Scrub(text) == text[..start] + Bracketed(REDACTED_KEY) + Scrub(text[end..])
  {
    hide BEGIN, END, PRIVATE_KEY, REDACTED_KEY, Contains, Bracketed, Scrub, BlockEnd, OccursAt, LineEnd, FindFrom;
    ScrubUnfolds(text, start);
  }

  lemma {:induction false} SuffixFind(text: string, from: nat, s: string, i: nat)
    requires from <= i <= |text|
    ensures FindFrom(text[from..], s, i - from) == var r := FindFrom(text, s, i);
            if r.Some? then Some(r.value - from) else None
    decreases |text| - i
  {
    SliceOccurs(text, from, |text|, s, i - from);
    assert text[from..|text|] == text[from..];
    if i < |text| { SuffixFind(text, from, s, i + 1); }
  }

  lemma SuffixBlockEnd(text: string, from: nat, e: nat)
    requires from <= e <= |text|
    ensures BlockEnd(text[from..], e - from) == BlockEnd(text, e) - from
  {
    EndShape();
    hide END;
    SuffixFind(text, from, END, e);
    var end := FindFrom(text, END, e);
    if end.Some? { LineEndSuffix(text, from, end.value - from); }
  }

  lemma NothingFound(text: string, from: nat)
    requires from <= |text| && FindFrom(text, BEGIN, from).None?
    ensures Scrub(text[from..]) == text[from..]
  {
    SuffixFind(text, from, BEGIN, from);
  }

  // ---- Redaction ----

  ghost function Redact(text: string, secrets: seq<string>): string
    requires Usable(secrets)
  {
    Scrub(ReplaceAll(text, secrets))
  }

  method RedactText(input: string, secrets: seq<string>) returns (text: string)
    requires Usable(secrets)
    ensures text == Redact(input, secrets)
  {
    hide Replace, Scrub;
    text := input;
    for i := 0 to |secrets|
      invariant ReplaceAll(text, secrets[i..]) == ReplaceAll(input, secrets)
    {
      assert secrets[i..][1..] == secrets[i + 1..];
      text := Replace(text, secrets[i]);
    }
    text := RedactPrivateKeyBlocks(text);
  }

  /** Scrubbing brings in no string without brackets, unless the key mark itself has it. */
  lemma {:induction false} ScrubKeepsOut(u: string, text: string, s: string)
    requires Clear(s, Bracketed(REDACTED_KEY)) && !Contains(u + text, s)
    ensures !Contains(u + Scrub(text), s)
    decreases |text|
  {
    hide BEGIN, END, PRIVATE_KEY, REDACTED_KEY, Contains, OccursAt, LineEnd, BlockEnd, Bracketed, Scrub, Clear;
    var found := FindFrom(text, BEGIN, 0);
    if found.None? {
      NothingFound(text, 0);
      assert text[0..] == text;
    } else {
      var start := found.value;
      BeginFound(text, start);
      ScrubUnfolds(text, start);
      var e := LineEnd(text, start);
      if !Contains(text[start..e], PRIVATE_KEY) {
        Regroup(u, text[..e], u + text[..e], [], text[e..]);
        assert text[..e] + text[e..] == text;
        ScrubKeepsOut(u + text[..e], text[e..], s);
        Regroup(u, text[..e], u + text[..e], [], Scrub(text[e..]));
      } else {
        var end := BlockEnd(text, e);
        ScrubKeepsOutMark(u, text, s, start, end);
        ScrubKeepsOut([], text[end..], s);
        MarkKeepsOut(u, text[..start], Scrub(text[end..]), s);
      }
    }
  }

  lemma MarkKeepsOut(u: string, a: string, tail: string, s: string)
    requires Clear(s, Bracketed(REDACTED_KEY)) && !Contains(u + a, s) && !Contains([] + tail, s)
    ensures !Contains(u + (a + Bracketed(REDACTED_KEY) + tail), s)
  {
    assert [] + tail == tail;
    hide REDACTED_KEY, Contains, Bracketed, Clear;
    AcrossClear(u + a, Bracketed(REDACTED_KEY), tail, s);
    Regroup(u, a, u + a, Bracketed(REDACTED_KEY), tail);
  }

  lemma SumParts(u: string, text: string, k: nat)
    requires k <= |text|
    ensures (u + text)[0..|u| + k] == u + text[..k] && (u + text)[|u| + k..|u + text|] == text[k..]
  {
    var a, b := u + text[..k], text[k..];
    assert text == text[..k] + b;
    assert u + text == a + b;
  }

  lemma ScrubKeepsOutMark(u: string, text: string, s: string, start: nat, end: nat)
    requires start <= end <= |text| && !Contains(u + text, s)
    ensures !Contains(u + text[..start], s) && !Contains([] + text[end..], s)
  {
    hide Contains;
    SumParts(u, text, start);
    SumParts(u, text, end);
    assert [] + text[end..] == text[end..];
    if Contains(u + text[..start], s) { PartContains(u + text, 0, |u| + start, s); }
    if Contains([] + text[end..], s) { PartContains(u + text, |u| + end, |u + text|, s); }
  }

  /** A secret that no mark can bring back: clear of both, or clear of the first and breaking up every key header. */
  ghost predicate Robust(s: string) {
    && Clear(s, Bracketed(REDACTED))
    && (Clear(s, Bracketed(REDACTED_KEY)) || Contains(BEGIN, s) || Contains(PRIVATE_KEY, s))
  }

  /** A robust secret is in no output, whatever the text and whatever the other secrets are. */
  lemma SecretNeverShown(text: string, secrets: seq<string>, i: nat)
    requires Usable(secrets) && i < |secrets| && Robust(secrets[i])
    ensures !Contains(Redact(text, secrets), secrets[i])
  {
    hide BEGIN, PRIVATE_KEY, REDACTED, REDACTED_KEY, Contains, Scrub, Replace, Clear, Bracketed;
    var s, t := secrets[i], ReplaceAll(text, secrets);
    ReplaceAllRemoves(text, secrets, i);
    if Clear(s, Bracketed(REDACTED_KEY)) {
      assert [] + t == t && [] + Scrub(t) == Scrub(t);
      ScrubKeepsOut([], t, s);
    } else {
      NoHeaderWithout(t, s);
      ScrubClean(t);
    }
  }

  /** Nor is a secret that holds a whole private key header itself. */
  lemma HeaderNeverShown(text: string, secrets: seq<string>, s: string)
    requires Usable(secrets) && !Clean(s)
    ensures !Contains(Redact(text, secrets), s)
  {
    ScrubIsClean(ReplaceAll(text, secrets));
    var r := Redact(text, secrets);
    hide Scrub, ReplaceAll, BEGIN, PRIVATE_KEY;
    if i: nat :| OccursAt(r, s, i) {
      var k: nat :| KeyHeader(s, k);
      HeaderWithin(r, s, i, k);
    }
  }

  /** A header of a part is a header of the whole, whose line is at least as long. */
  lemma HeaderWithin(text: string, s: string, i: nat, k: nat)
    requires OccursAt(text, s, i) && KeyHeader(s, k)
    ensures KeyHeader(text, i + k)
  {
    hide BEGIN, PRIVATE_KEY;
    assert text[i..i + |s|] == s;
    SliceOccurs(text, i, i + |s|, BEGIN, k);
    var e, e' := LineEnd(s, k), LineEnd(text, i + k);
    LongerLine(text, s, i, k);
    SliceOfSlice(text, i, i + |s|, i + k, i + e);
    SliceOfSlice(text, i + k, e', i + k, i + e);
    PartContains(text[i + k..e'], 0, e - k, PRIVATE_KEY);
  }

  lemma SliceOfSlice(text: string, a: nat, b: nat, c: nat, d: nat)
    requires a <= c <= d <= b <= |text|
    ensures text[a..b][c - a..d - a] == text[c..d]
  {
    var part := text[a..b];
    assert forall j {:trigger part[j]} :: 0 <= j < |part| ==> part[j] == text[a + j];
    assert forall j {:trigger part[c - a..d - a][j]} :: 0 <= j < d - c ==> part[c - a..d - a][j] == part[c - a + j];
  }

  lemma {:induction false} LongerLine(text: string, s: string, i: nat, k: nat)
    requires OccursAt(text, s, i) && k <= |s|
    ensures i + LineEnd(s, k) <= LineEnd(text, i + k)
    decreases |s| - k
  {
    if k < |s| {
      assert text[i + k] == s[k];
      if s[k] != '\n' { LongerLine(text, s, i, k + 1); }
    }
  }

  /** What makes a list of secrets without brackets safe against the marks that redaction writes itself. */
  ghost predicate Safe(secrets: seq<string>) {
    && NoneIn(REDACTED, secrets)
    && (NoneIn(REDACTED_KEY, secrets)
        || exists i :: 0 <= i < |secrets| && (Contains(BEGIN, secrets[i]) || Contains(PRIVATE_KEY, secrets[i])))
  }

  lemma SafeRedaction(text: string, secrets: seq<string>)
    requires Plain(secrets) && Safe(secrets)
    ensures NoneIn(Redact(text, secrets), secrets)
  {
    hide BEGIN, PRIVATE_KEY, REDACTED, REDACTED_KEY, Contains, Redact, Clear;
    forall i | 0 <= i < |secrets| ensures !Contains(Redact(text, secrets), secrets[i]) {
      PlainClear(secrets[i], REDACTED);
      PlainClear(secrets[i], REDACTED_KEY);
      if NoneIn(REDACTED_KEY, secrets) {
        SecretNeverShown(text, secrets, i);
      } else {
        var k :| 0 <= k < |secrets| && (Contains(BEGIN, secrets[k]) || Contains(PRIVATE_KEY, secrets[k]));
        PlainClear(secrets[k], REDACTED);
        BrokenHeaders(text, secrets, k, i);
      }
    }
  }

  /** One secret that breaks up every key header keeps the key mark out for all. */
  lemma BrokenHeaders(text: string, secrets: seq<string>, k: nat, i: nat)
    requires Usable(secrets) && k < |secrets| && i < |secrets|
    requires Clear(secrets[k], Bracketed(REDACTED))
             && (Contains(BEGIN, secrets[k]) || Contains(PRIVATE_KEY, secrets[k]))
    requires Clear(secrets[i], Bracketed(REDACTED))
    ensures !Contains(Redact(text, secrets), secrets[i])
  {
    hide BEGIN, PRIVATE_KEY, REDACTED, Contains, Clear, Bracketed, Scrub, Replace;
    ReplaceAllRemoves(text, secrets, k);
    ReplaceAllRemoves(text, secrets, i);
    NoHeaderWithout(ReplaceAll(text, secrets), secrets[k]);
    ScrubClean(ReplaceAll(text, secrets));
  }

  lemma NoHeaderWithout(t: string, s: string)
    requires !Contains(t, s) && (Contains(BEGIN, s) || Contains(PRIVATE_KEY, s))
    ensures Clean(t)
  {
    hide BEGIN, PRIVATE_KEY, OccursAt, LineEnd;
    forall i: nat ensures !KeyHeader(t, i) {
      if KeyHeader(t, i) {
        if Contains(BEGIN, s) {
          ContainsTransitive(t, BEGIN, s);
        } else {
          ContainsTransitive(t[i..LineEnd(t, i)], PRIVATE_KEY, s);
          PartContains(t, i, LineEnd(t, i), s);
        }
      }
    }
  }

  // ---- The unsafe lists ----

  lemma MarkContains(a: string, inner: string, b: string)
    ensures Contains(a + Bracketed(inner) + b, inner)
  {
    assert OccursAt(a + Bracketed(inner) + b, inner, |a| + 1);
  }

  lemma ReplaceMarks(t: string, x: string)
    requires x != [] && (Contains(t, REDACTED) || Contains(t, x))
    ensures Contains(Replace(t, x), REDACTED)
  {
    hide REDACTED, Bracketed;
    var i := FindFrom(t, x, 0);
    if i.Some? {
      MarkContains(t[..i.value], REDACTED, Replace(t[i.value + |x|..], x));
    }
  }

  /** Once a mark is in the text it stays, and a text that is a secret gets one. */
  lemma {:induction false} ReplaceAllMarks(t: string, secrets: seq<string>)
    requires Usable(secrets) && (Contains(t, REDACTED) || t in secrets)
    ensures Contains(ReplaceAll(t, secrets), REDACTED)
    decreases |secrets|
  {
    hide REDACTED, Contains, Replace;
    if secrets == [] {
    } else {
      var x := secrets[0];
      NotThere(t, x);
      WholeContains(t);
      if Contains(t, REDACTED) || Contains(t, x) { ReplaceMarks(t, x); }
      assert t != x ==> t in secrets ==> t in secrets[1..];
      ReplaceAllMarks(Replace(t, x), secrets[1..]);
    }
  }

  lemma WholeContains(t: string)
    ensures Contains(t, t)
  {
    assert OccursAt(t, t, 0);
  }

  lemma NotThere(t: string, x: string)
    requires x != []
    ensures !Contains(t, x) ==> Replace(t, x) == t
  {
  }

  lemma {:induction false} ReplaceAlphabet(t: string, x: string)
    requires x != [] && '-' !in t
    ensures '-' !in Replace(t, x)
    decreases |t|
  {
    MarkAlphabet();
    hide FindFrom, REDACTED, Bracketed;
    var i := FindFrom(t, x, 0);
    if i.Some? { ReplaceAlphabet(t[i.value + |x|..], x); }
  }

  lemma MarkAlphabet()
    ensures '-' !in Bracketed(REDACTED)
  {
  }

  lemma {:induction false} ReplaceAllAlphabet(t: string, secrets: seq<string>)
    requires Usable(secrets) && '-' !in t
    ensures '-' !in ReplaceAll(t, secrets)
    decreases |secrets|
  {
    hide Replace;
    if secrets != [] {
      ReplaceAlphabet(t, secrets[0]);
      ReplaceAllAlphabet(Replace(t, secrets[0]), secrets[1..]);
    }
  }

  lemma DashFree(t: string)
    requires '-' !in t
    ensures Scrub(t) == t
  {
    Shapes();
    FirstCharIn(t, BEGIN);
  }

  lemma PartOfRedacted(s: string)
    requires Contains(REDACTED, s)
    ensures '-' !in s
  {
    var i: nat :| OccursAt(REDACTED, s, i);
    assert forall k :: 0 <= k < |s| ==> s[k] == REDACTED[i + k] && REDACTED[i + k] in REDACTED;
  }

  /** A secret that is part of the mark survives on its own. */
  lemma MarkLeaks(secrets: seq<string>, i: nat)
    requires Plain(secrets) && i < |secrets| && Contains(REDACTED, secrets[i])
    ensures Contains(Redact(secrets[i], secrets), secrets[i])
  {
    var s := secrets[i];
    hide REDACTED, Contains, Replace, Scrub;
    PartOfRedacted(s);
    ReplaceAllMarks(s, secrets);
    ReplaceAllAlphabet(s, secrets);
    DashFree(ReplaceAll(s, secrets));
    ContainsTransitive(ReplaceAll(s, secrets), REDACTED, s);
  }

  function KeyLine(): string {
    BEGIN + Bracketed([]) + PRIVATE_KEY
  }

  lemma {:induction false} Untouched(t: string, secrets: seq<string>)
    requires Usable(secrets) && NoneIn(t, secrets)
    ensures ReplaceAll(t, secrets) == t
    decreases |secrets|
  {
    hide Contains, Replace;
    if secrets != [] {
      NotThere(t, secrets[0]);
      assert forall i :: 0 <= i < |secrets[1..]| ==> secrets[1..][i] == secrets[i + 1];
      Untouched(t, secrets[1..]);
    }
  }

  lemma KeyLineScrubbed()
    ensures Contains(Scrub(KeyLine()), REDACTED_KEY)
  {
    var text := KeyLine();
    assert OccursAt(text, BEGIN, 0);
    assert FindFrom(text, BEGIN, 0) == Some(0);
    KeyLineShape();
    ScrubUnfolds(text, 0);
    MarkContains(text[..0], REDACTED_KEY, Scrub(text[BlockEnd(text, LineEnd(text, 0))..]));
  }

  lemma KeyLineShape()
    ensures LineEnd(KeyLine(), 0) == |KeyLine()| && Contains(KeyLine()[0..|KeyLine()|], PRIVATE_KEY)
  {
    LineEndIs(KeyLine(), 0, |KeyLine()|);
    assert OccursAt(KeyLine()[0..|KeyLine()|], PRIVATE_KEY, |BEGIN| + 2);
  }

  /** So does one that is part of the key mark, when no secret breaks up the header. */
  lemma KeyMarkLeaks(secrets: seq<string>, i: nat)
    requires Plain(secrets) && i < |secrets| && Contains(REDACTED_KEY, secrets[i])
    requires NoneIn(BEGIN, secrets) && NoneIn(PRIVATE_KEY, secrets)
    ensures Contains(Redact(KeyLine(), secrets), secrets[i])
  {
    hide BEGIN, PRIVATE_KEY, REDACTED_KEY, Contains, Scrub, Replace, ReplaceAll;
    forall k | 0 <= k < |secrets| ensures !Contains(KeyLine(), secrets[k]) {
      NothingInNothing(secrets[k]);
      AcrossMark(BEGIN, [], PRIVATE_KEY, secrets[k]);
    }
    Untouched(KeyLine(), secrets);
    KeyLineScrubbed();
    ContainsTransitive(Scrub(KeyLine()), REDACTED_KEY, secrets[i]);
  }

  lemma NothingInNothing(s: string)
    requires s != []
    ensures !Contains([], s)
  {
  }

  /**
   * For secrets without brackets: redaction never lets one through, whatever the text, exactly when the list is safe.
   */
  lemma RedactionExact(secrets: seq<string>)
    requires Plain(secrets)
    ensures (forall text :: NoneIn(Redact(text, secrets), secrets)) <==> Safe(secrets)
  {
    hide BEGIN, PRIVATE_KEY, REDACTED, REDACTED_KEY, Contains, Redact, KeyLine;
    if Safe(secrets) {
      forall text ensures NoneIn(Redact(text, secrets), secrets) { SafeRedaction(text, secrets); }
    } else if i :| 0 <= i < |secrets| && Contains(REDACTED, secrets[i]) {
      MarkLeaks(secrets, i);
      assert !NoneIn(Redact(secrets[i], secrets), secrets);
    } else {
      var i :| 0 <= i < |secrets| && Contains(REDACTED_KEY, secrets[i]);
      KeyMarkLeaks(secrets, i);
      assert !NoneIn(Redact(KeyLine(), secrets), secrets);
    }
  }

  /**
   * Brackets in a secret void the guarantee: the mark written for one secret can complete another
   * that was looked for before.
   */
  lemma BracketLeaks()
    ensures Contains(Redact("ax", ["]x", "a"]), "]x")
  {
    var text := "ax";
    FirstCharIn(text, "]x");
    NotThere(text, "]x");
    assert OccursAt(text, "a", 0);
    assert Replace(text, "a") == Bracketed(REDACTED) + "x";
    assert ReplaceAll(text, ["]x", "a"]) == Bracketed(REDACTED) + "x";
    DashFree(Bracketed(REDACTED) + "x");
    assert OccursAt(Bracketed(REDACTED) + "x", "]x", 9);
  }

  // ---- Whole JSON values ----

  datatype Json =
    | Null
    | Bool(b: bool)
    | Number(n: int)
    | Text(text: string)
    | Array(items: seq<Json>)
    | Object(fields: seq<(string, Json)>)

  /** Redacts every string value in place; field names and everything else stay. */
  ghost function RedactValue(v: Json, secrets: seq<string>): Json
    requires Usable(secrets)
    decreases v
  {
    match v
    case Text(t) => Text(Redact(t, secrets))
    case Array(items) => Array(seq(|items|, i requires 0 <= i < |items| => RedactValue(items[i], secrets)))
    case Object(fields) =>
      Object(seq(|fields|, i requires 0 <= i < |fields| => (fields[i].0, RedactValue(fields[i].1, secrets))))
    case _ => v
  }

  datatype Step = Item(i: nat) | Field(i: nat)

  /** What a path through a value leads to. */
  function At(v: Json, path: seq<Step>): Option<Json>
    decreases |path|
  {
    if path == [] then Some(v)
    else
      match (v, path[0])
      case (Array(items), Item(i)) => if i < |items| then At(items[i], path[1..]) else None
      case (Object(fields), Field(i)) => if i < |fields| then At(fields[i].1, path[1..]) else None
      case _ => None
  }

  lemma {:induction false} RedactedAt(v: Json, secrets: seq<string>, path: seq<Step>)
    requires Usable(secrets)
    ensures At(RedactValue(v, secrets), path)
            == (match At(v, path) case None => None case Some(x) => Some(RedactValue(x, secrets)))
    decreases |path|
  {
    hide Redact, Usable;
    if path != [] {
      match (v, path[0])
      case (Array(items), Item(i)) => if i < |items| { RedactedAt(items[i], secrets, path[1..]); }
      case (Object(fields), Field(i)) => if i < |fields| { RedactedAt(fields[i].1, secrets, path[1..]); }
      case _ =>
    }
  }

  /** Wherever a string stands in a value, the redacted value has its redaction there, free of every robust secret. */
  lemma RedactedStrings(v: Json, secrets: seq<string>, path: seq<Step>)
    requires Usable(secrets)
    ensures var before, after := At(v, path), At(RedactValue(v, secrets), path);
            && (before.Some? <==> after.Some?)
            && (before.Some? && before.value.Text? <==> after.Some? && after.value.Text?)
            && (after.Some? && after.value.Text? ==>
                  && after.value.text == Redact(before.value.text, secrets)
                  && forall i :: 0 <= i < |secrets| && Robust(secrets[i]) ==> !Contains(after.value.text, secrets[i]))
  {
    RedactedAt(v, secrets, path);
    hide Redact, Robust, Contains;
    if At(v, path).Some? && At(v, path).value.Text? {
      forall i | 0 <= i < |secrets|
        && Robust(secrets[i]) ensures !Contains(Redact(At(v, path).value.text, secrets), secrets[i]) {
        SecretNeverShown(At(v, path).value.text, secrets, i);
      }
    }
  }

  // ---- Collecting secrets ----

  /** Empty values are never collected. */
  function NonEmpty(values: seq<string>): (r: seq<string>)
    ensures forall x :: x in r <==> x in values && x != []
  {
    if values == [] then [] else (if values[0] == [] then [] else [values[0]]) + NonEmpty(values[1..])
  }

  predicate LongestFirst(s: seq<string>) {
    forall i, j :: 0 <= i < j < |s| ==> |s[i]| >= |s[j]|
  }

  /** A stable sort puts a value after those at least as long. */
  function Insert(sorted: seq<string>, v: string): (r: seq<string>)
    requires LongestFirst(sorted)
    ensures LongestFirst(r) && (forall x :: x in r <==> x in sorted || x == v)
  {
    if sorted == [] then [v]
    else if |sorted[0]| >= |v| then
      var rest := Insert(sorted[1..], v);
      assert forall i :: 0 <= i < |rest| ==> rest[i] in rest;
      [sorted[0]] + rest
    else [v] + sorted
  }

  function SortByLength(values: seq<string>): (r: seq<string>)
    ensures LongestFirst(r) && (forall x :: x in r <==> x in values)
  {
    if values == [] then [] else
      var last := |values| - 1;
      assert values == values[..last] + [values[last]];
      Insert(SortByLength(values[..last]), values[last])
  }

  /** Drops a value equal to the one before it. */
  function Dedup(s: seq<string>): (r: seq<string>)
    requires LongestFirst(s)
    ensures LongestFirst(r) && (forall x :: x in r <==> x in s)
  {
    if |s| < 2 then s
    else
      var rest := Dedup(s[1..]);
      assert forall i :: 0 <= i < |rest| ==> rest[i] in s[1..];
      if s[0] == s[1] then rest else [s[0]] + rest
  }

  function Collect(values: seq<string>): seq<string> {
    Dedup(SortByLength(NonEmpty(values)))
  }

  /** Exactly the non-empty values are replaced, and none before a longer one that has it as a part. */
  lemma CollectsEverything(values: seq<string>)
    ensures Usable(Collect(values)) && (forall x :: x in Collect(values) <==> x in values && x != [])
    ensures var secrets := Collect(values);
            forall i, j :: 0 <= i < j < |secrets| && Contains(secrets[j], secrets[i]) ==> secrets[i] == secrets[j]
  {
    hide Dedup, SortByLength, NonEmpty;
    var secrets := Collect(values);
    assert forall i :: 0 <= i < |secrets| ==> secrets[i] in secrets;
    forall i, j | 0 <= i < j < |secrets| && Contains(secrets[j], secrets[i]) ensures secrets[i] == secrets[j] {
      var k: nat :| OccursAt(secrets[j], secrets[i], k);
    }
  }
}
