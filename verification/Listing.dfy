/** How a storage root lists its repositories (`walk_repos`): a walk of the directory tree under
    `manifests/`, where a directory is a repository if it has a child called `tags` or `digests`, and
    those two names are never descended into. */
module Listing {
  import opened Content
  import opened Volumes

  datatype Tree = Dir(kids: seq<Entry>)

  /** A subdirectory; files play no part in the walk. */
  datatype Entry = Entry(name: string, tree: Tree)

  predicate Reserved(name: string) { name == "tags" || name == "digests" }

  predicate IsRepo(t: Tree) { exists i :: 0 <= i < |t.kids| && Reserved(t.kids[i].name) }

  /** The directory at path `p` exists below `t` and holds manifests. */
  ghost predicate Present(t: Tree, p: seq<string>)
    decreases |p|
  {
    if p == [] then IsRepo(t)
       else exists i :: 0 <= i < |t.kids| && t.kids[i].name == p[0] && Present(t.kids[i].tree, p[1..])
  }

  /** ... and the walk gets there. */
  ghost predicate Walkable(t: Tree, p: seq<string>)
    decreases |p|
  {
    if p == [] then IsRepo(t)
    else !Reserved(p[0]) && exists i :: 0 <= i < |t.kids| && t.kids[i].name == p[0] && Walkable(t.kids[i].tree, p[1..])
  }

  ghost predicate Below(t: Tree, path: seq<string>, q: seq<string>) { path <= q && Walkable(t, q[|path|..]) }

  /** The children of `t` seen so far. */
  ghost predicate BelowSome(kids: seq<Entry>, path: seq<string>, q: seq<string>) {
    exists j :: 0 <= j < |kids| && Below(kids[j].tree, path + [kids[j].name], q)
  }

  lemma BelowIs(t: Tree, path: seq<string>, open: seq<Entry>, q: seq<string>)
    requires forall x :: x in open <==> x in t.kids && !Reserved(x.name)
    ensures Below(t, path, q) <==> (q == path && IsRepo(t)) || BelowSome(open, path, q)
  {
    if Below(t, path, q) && q != path {
      var rest := q[|path|..];
      var i :| 0 <= i < |t.kids| && t.kids[i].name == rest[0] && Walkable(t.kids[i].tree, rest[1..]);
      assert t.kids[i] in open;
      var j :| 0 <= j < |open| && open[j] == t.kids[i];
      assert rest[1..] == q[|path| + 1..];
      assert path + [open[j].name] <= q;
    }
    if BelowSome(open, path, q) {
      var j :| 0 <= j < |open| && Below(open[j].tree, path + [open[j].name], q);
      assert open[j] in t.kids;
      var rest := q[|path|..];
      assert rest[1..] == q[|path| + 1..] && rest[0] == open[j].name;
    }
  }

  /** `walk_repos`: exactly the paths it can get to are reported. */
  method WalkRepos(t: Tree, path: seq<string>) returns (out: seq<seq<string>>)
    ensures forall q :: q in out <==> q != [] && Below(t, path, q)
    decreases t
  {
    hide Below;
    var isRepo, children := false, [];
    for i := 0 to |t.kids|
      invariant isRepo <==> exists j :: 0 <= j < i && Reserved(t.kids[j].name)
      invariant forall x :: x in children <==> x in t.kids[..i] && !Reserved(x.name)
    {
      if Reserved(t.kids[i].name) { isRepo := true; } else { children := children + [t.kids[i]]; }
    }
    assert t.kids[..|t.kids|] == t.kids;
    out := if isRepo && path != [] then [path] else [];
    ghost var first := out;
    for i := 0 to |children|
      invariant forall q :: q in out <==> q in first || (q != [] && BelowSome(children[..i], path, q))
    {
      assert children[i] in t.kids;
      var more := WalkRepos(children[i].tree, path + [children[i].name]);
      out := out + more;
      forall q ensures BelowSome(children[..i + 1], path, q) <==>
                         BelowSome(children[..i], path, q) || Below(children[i].tree, path + [children[i].name], q) {
        BelowSnoc(children, i, path, q);
      }
    }
    assert children[..|children|] == children;
    forall q ensures Below(t, path, q) <==> (q == path && isRepo) || BelowSome(children, path, q) {
      BelowIs(t, path, children, q);
    }
  }

  lemma BelowSnoc(kids: seq<Entry>, i: nat, path: seq<string>, q: seq<string>)
    requires i < |kids|
    ensures BelowSome(kids[..i + 1], path, q) <==>
            BelowSome(kids[..i], path, q) || Below(kids[i].tree, path + [kids[i].name], q)
  {
    hide Below;
    if Below(kids[i].tree, path + [kids[i].name], q) { assert kids[..i + 1][i] == kids[i]; }
    if BelowSome(kids[..i], path, q) {
      var j :| 0 <= j < i && Below(kids[..i][j].tree, path + [kids[..i][j].name], q);
      assert kids[..i + 1][j] == kids[..i][j];
    }
    if BelowSome(kids[..i + 1], path, q) {
      var j :| 0 <= j < i + 1 && Below(kids[..i + 1][j].tree, path + [kids[..i + 1][j].name], q);
      assert j < i ==> kids[..i][j] == kids[..i + 1][j];
    }
  }

  /** A stored repository is listed if and only if no component of its name is reserved. */
  lemma {:induction false} ListedIffNotReserved(t: Tree, p: seq<string>)
    ensures Walkable(t, p) <==> Present(t, p) && forall c :: c in p ==> !Reserved(c)
    decreases |p|
  {
    if p != [] {
      assert p == [p[0]] + p[1..];
      forall i | 0 <= i < |t.kids|
        ensures Walkable(t.kids[i].tree, p[1..]) <==>
                Present(t.kids[i].tree, p[1..]) && forall c :: c in p[1..] ==> !Reserved(c)
      {
        ListedIffNotReserved(t.kids[i].tree, p[1..]);
      }
    }
  }

  // ---- The same condition on the name ----------------------------------------------------

  /** A repository name between slashes. */
  function Slashed(p: seq<string>): string { if p == [] then "/" else "/" + p[0] + Slashed(p[1..]) }

  predicate Components(p: seq<string>) { forall c :: c in p ==> '/' !in c }

  lemma SlashedStarts(p: seq<string>)
    ensures Slashed(p) != "" && Slashed(p)[0] == '/'
  {
  }

  lemma AtStart(p: seq<string>, c: string)
    requires p != [] && Components(p) && '/' !in c
    ensures "/" + c + "/" <= Slashed(p) <==> p[0] == c
  {
    var s, part, head := Slashed(p), "/" + c + "/", p[0];
    SlashedStarts(p[1..]);
    assert head in p;
    assert s[|head| + 1] == '/' && forall i :: 0 <= i < |head| ==> s[i + 1] == head[i];
    assert part[|c| + 1] == '/' && forall i :: 0 <= i < |c| ==> part[i + 1] == c[i];
    assert (forall i :: 1 <= i <= |head| ==> s[i] != '/') && (forall i :: 1 <= i <= |c| ==> part[i] != '/');
    if part <= s {
      assert forall i :: 0 <= i < |part| ==> s[i] == part[i];
      assert s[|c| + 1] == part[|c| + 1] == '/';
      assert |c| >= |head|;
      assert part[|head| + 1] == s[|head| + 1] == '/';
      assert |c| == |head|;
      assert forall i :: 0 <= i < |c| ==> c[i] == part[i + 1] == s[i + 1] == head[i];
    }
    if head == c { assert s[..|part|] == part; }
  }

  lemma {:induction false} OccursIff(p: seq<string>, c: string)
    requires Components(p) && '/' !in c
    ensures Contains(Slashed(p), "/" + c + "/") <==> c in p
    decreases |p|
  {
    var part, s := "/" + c + "/", Slashed(p);
    if p == [] {
      assert forall i :: 0 <= i <= |s| ==> |s[i..]| < |part|;
    } else {
      OccursIff(p[1..], c);
      AtStart(p, c);
      assert p[0] in p && p == [p[0]] + p[1..];
      HeadOrTail(p[0], Slashed(p[1..]), part);
    }
  }

  lemma HeadOrTail(head: string, tail: string, part: string)
    requires '/' !in head && part != "" && part[0] == '/'
    ensures Contains("/" + head + tail, part) <==> part <= "/" + head + tail || Contains(tail, part)
  {
    var s, n := "/" + head + tail, |head| + 1;
    assert s[0..] == s;
    assert forall i :: 1 <= i < n ==> s[i] == head[i - 1];
    forall i | n <= i <= |s| ensures s[i..] == tail[i - n..] { }
    if Contains(tail, part) {
      var i :| 0 <= i <= |tail| && part <= tail[i..];
      assert s[i + n..] == tail[i..];
    }
    if i :| 0 <= i <= |s| && part <= s[i..] {
      assert s[i..][0] == s[i];
      assert i == 0 || i >= n;
      assert i >= n ==> part <= tail[i - n..];
    }
  }

  /** `Listable` of a name is the condition on its components. */
  lemma ListableIff(repo: string, p: seq<string>)
    requires Components(p) && Slashed(p) == "/" + repo + "/"
    ensures Listable(repo) <==> forall c :: c in p ==> !Reserved(c)
  {
    OccursIff(p, "tags");
    OccursIff(p, "digests");
    assert "/" + "tags" + "/" == "/tags/" && "/" + "digests" + "/" == "/digests/";
  }
}
