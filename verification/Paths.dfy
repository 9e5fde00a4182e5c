/** Lexical path normalisation and the containment test of the path policy. */
module Paths {
  import opened Types

  /** The components of a text between its slashes; n slashes give n + 1 components. */
  function Split(s: string): (parts: seq<string>)
    ensures parts != []
    ensures forall i :: 0 <= i < |parts| ==> '/' !in parts[i]
  {
    if s == "" then [""] else Prepend(s[0], Split(s[1..]))
  }

  function Prepend(c: char, parts: seq<string>): seq<string>
    requires parts != []
  {
    if c == '/' then [""] + parts else [[c] + parts[0]] + parts[1..]
  }

  function Join(parts: seq<string>): string {
    if parts == [] then ""
    else if |parts| == 1 then parts[0]
    else parts[0] + "/" + Join(parts[1..])
  }

  predicate Proper(part: string) {
    part != "" && part != "." && part != ".." && '/' !in part
  }

  predicate Clean(parts: seq<string>) {
    forall i :: 0 <= i < |parts| ==> Proper(parts[i])
  }

  /** One step of a walk down the tree from the directory `at`; `..` at the root stays there. */
  function Enter(at: seq<string>, part: string): seq<string> {
    if part == "" || part == "." then at
    else if part == ".." then (if at == [] then at else at[..|at| - 1])
    else at + [part]
  }

  /** The directory reached by walking a list of components from the directory `at`. */
  function Walk(at: seq<string>, parts: seq<string>): seq<string>
    decreases |parts|
  {
    if parts == [] then at else Walk(Enter(at, parts[0]), parts[1..])
  }

  function Components(path: string): seq<string> {
    Walk([], Split(path))
  }

  predicate Absolute(path: string) {
    path != "" && path[0] == '/'
  }

  function Normal(path: string): string {
    "/" + Join(Components(path))
  }

  method NormalizeRemotePath(path: string) returns (r: Result<string, Error>)
    ensures r.Ok? <==> Absolute(path)
    ensures r.Ok? ==> r.value == Normal(path)
  {
    if path == "" || path[0] != '/' {
      return Err(PolicyDenied("policy-restricted remote path must be absolute"));
    }
    var components := Split(path);
    var parts: seq<string> := [];
    var i := 0;
    while i < |components|
      invariant 0 <= i <= |components|
      invariant Walk(parts, components[i..]) == Components(path)
    {
      assert components[i..][1..] == components[i + 1..];
      var part := components[i];
      if part == "" || part == "." {
      } else if part == ".." {
        if parts != [] { parts := parts[..|parts| - 1]; }
      } else {
        parts := parts + [part];
      }
      i := i + 1;
    }
    r := Ok("/" + Join(parts));
  }

  lemma {:induction false} WalkClean(at: seq<string>, parts: seq<string>)
    requires Clean(at) && forall i :: 0 <= i < |parts| ==> '/' !in parts[i]
    ensures Clean(Walk(at, parts))
    decreases |parts|
  {
    if parts != [] {
      WalkClean(Enter(at, parts[0]), parts[1..]);
    }
  }

  /** Normalisation leaves no empty, `.` or `..` component. */
  lemma ComponentsClean(path: string)
    ensures Clean(Components(path))
  {
    WalkClean([], Split(path));
  }

  lemma {:induction false} WalkProper(at: seq<string>, parts: seq<string>)
    requires Clean(parts)
    ensures Walk(at, parts) == at + parts
    decreases |parts|
  {
    if parts == [] {
      assert at + parts == at;
    } else {
      assert Proper(parts[0]);
      WalkProper(Enter(at, parts[0]), parts[1..]);
      assert at + [parts[0]] + parts[1..] == at + parts;
    }
  }

  lemma {:induction false} SplitConcat(a: string, b: string)
    requires '/' !in a
    ensures Split(a + "/" + b) == [a] + Split(b)
    ensures Split(a) == [a]
    decreases |a|
  {
    if a == "" {
      assert a + "/" + b == "/" + b;
      assert ("/" + b)[1..] == b;
    } else {
      SplitConcat(a[1..], b);
      assert (a + "/" + b)[1..] == a[1..] + "/" + b;
      assert [a[0]] + a[1..] == a;
    }
  }

  /** Splitting undoes joining, for any non-empty list of slash-free parts. */
  lemma {:induction false} SplitJoin(parts: seq<string>)
    requires parts != [] && forall i :: 0 <= i < |parts| ==> '/' !in parts[i]
    ensures Split(Join(parts)) == parts
    decreases |parts|
  {
    assert '/' !in parts[0];
    if |parts| == 1 {
      SplitConcat(parts[0], "");
      assert parts == [parts[0]];
    } else {
      SplitJoin(parts[1..]);
      SplitConcat(parts[0], Join(parts[1..]));
      assert parts == [parts[0]] + parts[1..];
    }
  }

  lemma SplitRooted(parts: seq<string>)
    requires Clean(parts) && parts != []
    ensures Split("/" + Join(parts)) == [""] + parts
  {
    assert forall i :: 0 <= i < |parts| ==> Proper(parts[i]) && '/' !in parts[i];
    SplitJoin(parts);
    SplitConcat("", Join(parts));
    assert "" + "/" + Join(parts) == "/" + Join(parts);
  }

  lemma ComponentsOfRooted(parts: seq<string>)
    requires Clean(parts)
    ensures Components("/" + Join(parts)) == parts
  {
    if parts == [] {
      assert Split("/") == ["", ""];
      assert Walk([], ["", ""]) == Walk([], [""]) by { assert ["", ""][1..] == [""]; }
    } else {
      SplitRooted(parts);
      assert ([""] + parts)[1..] == parts;
      WalkProper([], parts);
      assert [] + parts == parts;
    }
  }

  /** A normal path names the same directory and is its own normal form. */
  lemma NormalIdempotent(path: string)
    ensures Absolute(Normal(path)) && Components(Normal(path)) == Components(path)
    ensures Normal(Normal(path)) == Normal(path)
  {
    ComponentsClean(path);
    ComponentsOfRooted(Components(path));
  }

  // ---- What a normal form is of ----

  predicate SlashFree(parts: seq<string>) {
    forall i :: 0 <= i < |parts| ==> '/' !in parts[i]
  }

  lemma ComponentsOf(parts: seq<string>)
    requires SlashFree(parts)
    ensures Components("/" + Join(parts)) == Walk([], parts)
  {
    if parts == [] {
      ComponentsOfRooted([]);
    } else {
      SplitJoin(parts);
      SplitConcat("", Join(parts));
      assert "" + "/" + Join(parts) == "/" + Join(parts);
      assert ([""] + parts)[1..] == parts;
    }
  }

  lemma {:induction false} WalkAppend(at: seq<string>, a: seq<string>, b: seq<string>)
    ensures Walk(at, a + b) == Walk(Walk(at, a), b)
    decreases |a|
  {
    if a == [] {
      assert a + b == b;
    } else {
      WalkAppend(Enter(at, a[0]), a[1..], b);
      assert (a + b)[1..] == a[1..] + b;
    }
  }

  /** `..` undoes the component before it, wherever the two stand. */
  lemma UpUndoes(a: seq<string>, x: string, b: seq<string>)
    requires SlashFree(a) && SlashFree(b) && Proper(x)
    ensures Normal("/" + Join(a + [x, ".."] + b)) == Normal("/" + Join(a + b))
  {
    ComponentsOf(a + [x, ".."] + b);
    ComponentsOf(a + b);
    WalkAppend([], a + [x, ".."], b);
    WalkAppend([], a, [x, ".."]);
    WalkAppend([], a, b);
    var at := Walk([], a);
    assert [x, ".."][1..] == [".."] && [".."][1..] == [];
    assert (at + [x])[..|at|] == at;
    assert Walk(at, [x, ".."]) == Walk(at + [x], [".."]) == Walk(at, []);
  }

  /** At the root `..` stays there. */
  lemma UpAtRoot(b: seq<string>)
    requires SlashFree(b)
    ensures Normal("/" + Join([".."] + b)) == Normal("/" + Join(b))
  {
    ComponentsOf([".."] + b);
    ComponentsOf(b);
    assert ([".."] + b)[1..] == b;
  }

  /** `.` and empty components vanish. */
  lemma DotVanishes(a: seq<string>, dot: string, b: seq<string>)
    requires SlashFree(a) && SlashFree(b) && (dot == "." || dot == "")
    ensures Normal("/" + Join(a + [dot] + b)) == Normal("/" + Join(a + b))
  {
    ComponentsOf(a + [dot] + b);
    ComponentsOf(a + b);
    WalkAppend([], a + [dot], b);
    WalkAppend([], a, [dot]);
    WalkAppend([], a, b);
    assert [dot][1..] == [];
  }

  /** What has neither is its own normal form. With the three laws this decides every absolute path. */
  lemma CleanIsNormal(parts: seq<string>)
    requires Clean(parts)
    ensures Normal("/" + Join(parts)) == "/" + Join(parts)
  {
    ComponentsOfRooted(parts);
  }

  /** The string test that decides containment, on two normal paths. */
  predicate Within(root: string, path: string) {
    root == "/" || path == root || root + "/" <= path
  }

  lemma {:induction false} JoinConcat(a: seq<string>, b: seq<string>)
    requires a != [] && b != []
    ensures Join(a + b) == Join(a) + "/" + Join(b)
    decreases |a|
  {
    if |a| == 1 {
      assert (a + b)[1..] == b;
    } else {
      JoinConcat(a[1..], b);
      assert (a + b)[1..] == a[1..] + b;
    }
  }

  lemma {:induction false} SplitAppend(s: string, t: string)
    requires s != "" && '/' == s[|s| - 1]
    ensures Split(s + t) == Split(s[..|s| - 1]) + Split(t)
    decreases |s|
  {
    var n := |s| - 1;
    assert (s + t)[1..] == s[1..] + t;
    if n == 0 {
      assert s[1..] + t == t && s[..n] == "";
    } else {
      SplitAppend(s[1..], t);
      assert s[..n][1..] == s[1..][..n - 1];
      PrependAppend(s[0], Split(s[..n][1..]), Split(t));
    }
  }

  lemma PrependAppend(c: char, a: seq<string>, b: seq<string>)
    requires a != []
    ensures Prepend(c, a + b) == Prepend(c, a) + b
  {
    assert (a + b)[1..] == a[1..] + b;
  }

  lemma CancelHead(head: string, p: seq<string>, r: seq<string>, rest: seq<string>)
    requires [head] + p == [head] + r + rest
    ensures p == r + rest
  {
    assert p == ([head] + p)[1..];
    assert r + rest == ([head] + r + rest)[1..];
  }

  lemma PrefixOfParts(r: seq<string>, p: seq<string>, t: string)
    requires Clean(r) && Clean(p) && r != []
    requires "/" + Join(r) + "/" + t == "/" + Join(p)
    ensures r <= p
  {
    var s := "/" + Join(r) + "/";
    assert s[..|s| - 1] == "/" + Join(r);
    SplitAppend(s, t);
    SplitRooted(r);
    assert p != [];
    SplitRooted(p);
    CancelHead("", p, r, Split(t));
  }

  lemma PrefixOfString(r: seq<string>, p: seq<string>)
    requires Clean(r) && Clean(p) && r != []
    requires "/" + Join(r) + "/" <= "/" + Join(p)
    ensures r <= p
  {
    PrefixOfParts(r, p, ("/" + Join(p))[|"/" + Join(r) + "/"|..]);
  }

  lemma StringOfPrefix(r: seq<string>, p: seq<string>)
    requires r != [] && r <= p && r != p
    ensures "/" + Join(r) + "/" <= "/" + Join(p)
  {
    JoinConcat(r, p[|r|..]);
    assert r + p[|r|..] == p;
    assert "/" + Join(p) == "/" + Join(r) + "/" + Join(p[|r|..]);
  }

  lemma RootedIsNotSlash(parts: seq<string>)
    requires parts != [] && Clean(parts)
    ensures "/" + Join(parts) != "/"
  {
    assert Proper(parts[0]);
    assert Join(parts) != "";
  }

  /** The string test is exactly the component-wise prefix test: `/var/logs` is not inside `/var/log`. */
  lemma WithinIsPrefix(root: string, path: string)
    ensures Within(Normal(root), Normal(path)) <==> Components(root) <= Components(path)
  {
    var r, p := Components(root), Components(path);
    ComponentsClean(root);
    ComponentsClean(path);
    if r == [] {
      assert Normal(root) == "/";
    } else {
      RootedIsNotSlash(r);
      if Normal(path) == Normal(root) {
        ComponentsOfRooted(r);
        ComponentsOfRooted(p);
      } else if Normal(root) + "/" <= Normal(path) {
        PrefixOfString(r, p);
      }
      if r <= p && r != p {
        StringOfPrefix(r, p);
      }
    }
  }

  /** No configured roots means no restriction; a root that is not absolute admits nothing. */
  ghost predicate PathAllowed(allowed: seq<string>, path: string) {
    allowed == [] ||
    (Absolute(path)
     && exists i :: 0 <= i < |allowed| && Absolute(allowed[i]) && Components(allowed[i]) <= Components(path))
  }

  /** The path is absolute and its normal form inside the normal form of an absolute root. */
  lemma Roots(allowed: seq<string>, path: string)
    ensures PathAllowed(allowed, path) <==>
            allowed == []
            || ("/" <= path && exists root :: root in allowed && "/" <= root && Within(Normal(root), Normal(path)))
  {
    hide Normal, Within, Components;
    forall i | 0 <= i < |allowed|
      ensures Within(Normal(allowed[i]), Normal(path)) <==> Components(allowed[i]) <= Components(path)
    {
      WithinIsPrefix(allowed[i], path);
    }
  }

  method RequirePath(allowed: seq<string>, path: string) returns (r: Result<(), Error>)
    ensures r.Ok? <==> PathAllowed(allowed, path)
    ensures allowed == [] ==> r.Ok?
    ensures allowed != [] ==>
              (r.Ok? <==>
                 && "/" <= path
                 && exists root :: root in allowed && "/" <= root && Within(Normal(root), Normal(path)))
  {
    Roots(allowed, path);
    if allowed == [] { return Ok(()); }
    var normalized := NormalizeRemotePath(path);
    if normalized.Err? { return Err(normalized.error); }
    for i := 0 to |allowed|
      invariant forall j :: 0 <= j < i ==> !(Absolute(allowed[j]) && Components(allowed[j]) <= Components(path))
    {
      var root := NormalizeRemotePath(allowed[i]);
      WithinIsPrefix(allowed[i], path);
      if root.Ok? && Within(root.value, normalized.value) {
        return Ok(());
      }
    }
    r := Err(PolicyDenied("path is outside allowed roots"));
  }

  /** A path that climbs out of the only root is refused, whatever it enters then. */
  lemma ClimbingRefused(root: seq<string>, rest: seq<string>)
    requires Clean(root) && Clean(rest) && root != [] && rest != [] && rest[0] != root[|root| - 1]
    ensures !PathAllowed(["/" + Join(root)], "/" + Join(root + [".."] + rest))
  {
    var top := root[..|root| - 1];
    Climbed(top, root[|root| - 1], rest);
    assert root == top + [root[|root| - 1]];
    ComponentsOfRooted(root);
    hide Components, Clean;
    assert (top + rest)[|top|] == rest[0];
  }

  lemma Climbed(top: seq<string>, x: string, rest: seq<string>)
    requires Clean(top) && Proper(x) && Clean(rest)
    ensures Components("/" + Join(top + [x] + [".."] + rest)) == top + rest
  {
    assert SlashFree(top) && SlashFree(rest) && Clean(top + rest);
    assert top + [x] + [".."] + rest == top + [x, ".."] + rest;
    hide Components, Clean, Proper;
    UpUndoes(top, x, rest);
    ComponentsOfRooted(top + rest);
    NormalIdempotent("/" + Join(top + [x, ".."] + rest));
    NormalIdempotent("/" + Join(top + rest));
  }
}
