/** Names, lookup and path printing in the cgroup hierarchy. */
module CgroupPath {
  import opened CgroupTree
  import opened Options

  datatype Error = InvalidInput | AlreadyExists | NotFound | DirectoryNotEmpty | ResourceBusy

  datatype Directory = Directory(tree: Tree, name: map<Node, string>, children: map<Node, map<string, Node>>)

  predicate ValidName(name: string) {
    name != "" && name != "." && name != ".." && '/' !in name
  }

  function Lookup(d: Directory, n: Node, name: string): Option<Node> {
    if n in d.children && name in d.children[n] then Some(d.children[n][name]) else None
  }

  /** The root has no name. */
  function NameOf(d: Directory, n: Node): string {
    if n in d.name then d.name[n] else ""
  }

  /** Names obey the rules, and a child is filed under its own name at its own parent. */
  ghost predicate NamesOk(d: Directory) {
    && (forall n :: n in d.tree.parent ==> n in d.name && ValidName(d.name[n]))
    && (forall n, x: string :: Lookup(d, n, x).Some? ==>
          var c := Lookup(d, n, x).value; c in d.tree.parent && d.tree.parent[c] == n && d.name[c] == x)
  }

  /** `n` can be found by walking down from the root. */
  ghost predicate Findable(d: Directory, n: Node)
    decreases n
  {
    n == ROOT ||
    (&& n in d.name && HasLiveParent(d.tree, n) && Lookup(d, d.tree.parent[n], d.name[n]) == Some(n)
     && Findable(d, d.tree.parent[n]))
  }

  // ---- Strings ----

  function Join(parts: seq<string>): string {
    if parts == [] then "" else if |parts| == 1 then parts[0] else parts[0] + "/" + Join(parts[1..])
  }

  function Split(s: string): seq<string>
    decreases |s|
  {
    if '/' !in s then [s]
    else var i := FirstSlash(s); [s[..i]] + Split(s[i + 1..])
  }

  function FirstSlash(s: string): (i: nat)
    requires '/' in s
    ensures i < |s| && s[i] == '/' && '/' !in s[..i]
  {
    if s[0] == '/' then 0 else
      assert s == [s[0]] + s[1..];
      var j := FirstSlash(s[1..]);
      assert s[..j + 1] == [s[0]] + s[1..][..j];
      1 + j
  }

  /** The components of an absolute path; `/` has none. */
  function Components(path: string): seq<string>
    requires path != "" && path[0] == '/'
  {
    if path == "/" then [] else Split(path[1..])
  }

  /** A component that `/` neither starts, ends nor splits. */
  predicate Plain(part: string) {
    part != "" && '/' !in part
  }

  ghost predicate AllPlain(parts: seq<string>) {
    forall i :: 0 <= i < |parts| ==> Plain(parts[i])
  }

  lemma SplitFirst(head: string, rest: string)
    requires '/' !in head
    ensures Split(head + "/" + rest) == [head] + Split(rest)
  {
    var s := head + "/" + rest;
    SlashAfter(head, rest);
    assert s[|head| + 1..] == rest && s[..|head|] == head;
  }

  lemma {:induction false} SplitJoin(parts: seq<string>)
    requires parts != [] && AllPlain(parts)
    ensures Split(Join(parts)) == parts && Join(parts) != ""
  {
    if |parts| > 1 {
      SplitJoin(parts[1..]);
      SplitFirst(parts[0], Join(parts[1..]));
    }
  }

  lemma SlashAfter(head: string, rest: string)
    requires '/' !in head
    ensures '/' in head + "/" + rest && FirstSlash(head + "/" + rest) == |head|
  {
    var s := head + "/" + rest;
    assert s[|head|] == '/';
    var i := FirstSlash(s);
    assert forall k :: 0 <= k < |head| ==> s[k] == head[k];
    assert forall k :: 0 <= k < i ==> s[k] == s[..i][k];
  }

  lemma {:induction false} JoinSnoc(parts: seq<string>, part: string)
    ensures Join(parts + [part]) == if parts == [] then part else Join(parts) + "/" + part
  {
    if |parts| > 0 {
      assert (parts + [part])[1..] == parts[1..] + [part];
      JoinSnoc(parts[1..], part);
    }
  }

  /** What follows a slash after plain components is split on its own. */
  lemma {:induction false} SplitAfter(parts: seq<string>, rest: string)
    requires parts != [] && AllPlain(parts)
    ensures Split(Join(parts) + "/" + rest) == parts + Split(rest)
  {
    if |parts| == 1 {
      SplitFirst(parts[0], rest);
      FirstAndRest(parts, Split(rest));
    } else {
      SplitAfter(parts[1..], rest);
      SplitHead(parts, rest, Split(rest));
    }
  }

  lemma SplitHead(parts: seq<string>, rest: string, more: seq<string>)
    requires |parts| > 1 && AllPlain(parts)
    requires Split(Join(parts[1..]) + "/" + rest) == parts[1..] + more
    ensures Split(Join(parts) + "/" + rest) == parts + more
  {
    var tail := Join(parts[1..]) + "/" + rest;
    JoinRest(parts, rest, tail);
    SplitFirst(parts[0], tail);
    FirstAndRest(parts, more);
  }

  lemma JoinRest(parts: seq<string>, rest: string, tail: string)
    requires |parts| > 1 && tail == Join(parts[1..]) + "/" + rest
    ensures Join(parts) + "/" + rest == parts[0] + "/" + tail
  {
    Regroup(parts[0], Join(parts[1..]), rest);
  }

  lemma Regroup(a: string, b: string, rest: string)
    ensures a + "/" + b + "/" + rest == a + "/" + (b + "/" + rest)
  {
  }

  lemma FirstAndRest(parts: seq<string>, more: seq<string>)
    requires parts != []
    ensures [parts[0]] + (parts[1..] + more) == parts + more
  {
  }

  lemma {:induction false} JoinEnd(parts: seq<string>)
    requires parts != [] && AllPlain(parts)
    ensures Join(parts) != "" && Join(parts)[|Join(parts)| - 1] != '/'
  {
    if |parts| == 1 {
      assert parts[0][|parts[0]| - 1] in parts[0];
    } else {
      JoinEnd(parts[1..]);
    }
  }

  // ---- Resolution ----

  /** `..` goes to the parent, a name to the child. */
  function Follow(d: Directory, n: Node, part: string): Option<Node> {
    if part != ".." then Lookup(d, n, part) else if HasLiveParent(d.tree, n) then Some(d.tree.parent[n]) else None
  }

  /** Follow components from `n`, one after another. */
  function Resolve(d: Directory, n: Node, parts: seq<string>): Option<Node>
    decreases |parts|
  {
    if parts == [] then Some(n)
    else
      var next := Follow(d, n, parts[0]);
      if next.None? then None else Resolve(d, next.value, parts[1..])
  }

  function Ups(k: nat): seq<string> {
    if k == 0 then [] else [".."] + Ups(k - 1)
  }

  /** Names on the way down a walk, from position `j` to its start. */
  function Downs(d: Directory, path: seq<Node>, j: nat): seq<string>
    requires j <= |path|
  {
    if j == 0 then [] else [NameOf(d, path[j - 1])] + Downs(d, path, j - 1)
  }

  lemma {:induction false} ResolveAppend(d: Directory, n: Node, a: seq<string>, b: seq<string>)
    ensures Resolve(d, n, a + b) == if Resolve(d, n, a).None? then None else Resolve(d, Resolve(d, n, a).value, b)
    decreases |a|
  {
    if a == [] {
      assert a + b == b;
    } else {
      assert (a + b)[1..] == a[1..] + b;
      var next := Follow(d, n, a[0]);
      if next.Some? { ResolveAppend(d, next.value, a[1..], b); }
    }
  }

  lemma {:induction false} ResolveUps(d: Directory, n: Node, k: nat)
    requires k < |Ancestry(d.tree, n)|
    ensures Resolve(d, n, Ups(k)) == Some(Ancestry(d.tree, n)[k])
    decreases k
  {
    if k > 0 {
      assert Ups(k)[1..] == Ups(k - 1);
      ResolveUps(d, d.tree.parent[n], k - 1);
    }
  }

  lemma {:induction false} FindableWalk(d: Directory, n: Node, k: nat)
    requires Findable(d, n) && k < |Ancestry(d.tree, n)|
    ensures Findable(d, Ancestry(d.tree, n)[k])
    ensures ROOT in Ancestry(d.tree, n)
    decreases n
  {
    if n != ROOT {
      FindableWalk(d, d.tree.parent[n], if k > 0 then k - 1 else 0);
    }
  }

  lemma ResolvePastTop(d: Directory, n: Node, rest: seq<string>)
    ensures Resolve(d, n, Ups(|Ancestry(d.tree, n)|) + rest) == None
  {
    var k := |Ancestry(d.tree, n)| - 1;
    var top := Ancestry(d.tree, n)[k];
    ResolveUps(d, n, k);
    UpsSnoc(k);
    assert Ups(k + 1) + rest == Ups(k) + ([".."] + rest);
    ResolveAppend(d, n, Ups(k), [".."] + rest);
    AncestryAt(d.tree, n, k);
    assert !HasLiveParent(d.tree, top);
  }

  /** `c` is `k` parents above `n`, alive or not. */
  ghost predicate Above(tree: Tree, n: Node, k: nat, c: Node)
    decreases k
  {
    if k == 0 then n == c else n in tree.parent && Above(tree, tree.parent[n], k - 1, c)
  }

  lemma {:induction false} AboveSnoc(tree: Tree, n: Node, k: nat, c: Node)
    requires Above(tree, n, k, c) && c in tree.parent
    ensures Above(tree, n, k + 1, tree.parent[c])
    decreases k
  {
    if k > 0 { AboveSnoc(tree, tree.parent[n], k - 1, c); }
  }

  lemma {:induction false} AboveIsOne(tree: Tree, n: Node, k: nat, a: Node, b: Node)
    requires Above(tree, n, k, a) && Above(tree, n, k, b)
    ensures a == b
    decreases k
  {
    if k > 0 { AboveIsOne(tree, tree.parent[n], k - 1, a, b); }
  }

  lemma {:induction false} AboveOnWalk(tree: Tree, n: Node, k: nat)
    requires k < |Ancestry(tree, n)|
    ensures Above(tree, n, k, Ancestry(tree, n)[k])
    decreases k
  {
    if k > 0 { AboveOnWalk(tree, tree.parent[n], k - 1); }
  }

  /** Names only lead down, so where they lead to tells where they started. */
  lemma {:induction false} NamesLeadDown(d: Directory, n: Node, parts: seq<string>)
    requires NamesOk(d) && ".." !in parts && Resolve(d, n, parts).Some?
    ensures Above(d.tree, Resolve(d, n, parts).value, |parts|, n)
    decreases |parts|
  {
    if parts != [] {
      var c := Lookup(d, n, parts[0]).value;
      NamesLeadDown(d, c, parts[1..]);
      AboveSnoc(d.tree, Resolve(d, n, parts).value, |parts| - 1, c);
    }
  }

  /** `n` is on its parent's list under its own name. */
  ghost predicate Listed(d: Directory, n: Node) {
    n in d.tree.parent && Lookup(d, d.tree.parent[n], NameOf(d, n)) == Some(n)
  }

  lemma NextOnWalk(tree: Tree, n: Node, k: nat)
    requires k + 1 < |Ancestry(tree, n)|
    ensures HasLiveParent(tree, Ancestry(tree, n)[k]) && tree.parent[Ancestry(tree, n)[k]] == Ancestry(tree, n)[k + 1]
  {
    AncestryAt(tree, n, k);
    assert Ancestry(tree, n)[k..][1] == Ancestry(tree, n)[k + 1];
  }

  lemma {:induction false} DownsHaveNoUps(d: Directory, n: Node, j: nat)
    requires NamesOk(d) && j < |Ancestry(d.tree, n)|
    ensures ".." !in Downs(d, Ancestry(d.tree, n), j) && |Downs(d, Ancestry(d.tree, n), j)| == j
    decreases j
  {
    if j > 0 {
      NextOnWalk(d.tree, n, j - 1);
      DownsHaveNoUps(d, n, j - 1);
    }
  }

  /** Following the names of a walk down from position `j` leads back to its start exactly when
      every node passed is still on its parent's list. */
  lemma {:induction false} ResolveDowns(d: Directory, n: Node, j: nat)
    requires NamesOk(d) && j < |Ancestry(d.tree, n)|
    ensures Resolve(d, Ancestry(d.tree, n)[j], Downs(d, Ancestry(d.tree, n), j)) == Some(n)
      <==> forall k :: 0 <= k < j ==> Listed(d, Ancestry(d.tree, n)[k])
    decreases j
  {
    if j > 0 {
      var path := Ancestry(d.tree, n);
      NextOnWalk(d.tree, n, j - 1);
      DownsHaveNoUps(d, n, j);
      assert Downs(d, path, j)[1..] == Downs(d, path, j - 1);
      assert Downs(d, path, j)[0] == NameOf(d, path[j - 1]);
      if Listed(d, path[j - 1]) {
        ResolveDowns(d, n, j - 1);
      } else if Resolve(d, path[j], Downs(d, path, j)) == Some(n) {
        WrongChild(d, n, j);
      }
    }
  }

  /** A different child of the same name cannot lead to the same place. */
  lemma WrongChild(d: Directory, n: Node, j: nat)
    requires NamesOk(d) && 0 < j < |Ancestry(d.tree, n)|
    requires Resolve(d, Ancestry(d.tree, n)[j], Downs(d, Ancestry(d.tree, n), j)) == Some(n)
    ensures Listed(d, Ancestry(d.tree, n)[j - 1])
  {
    var path := Ancestry(d.tree, n);
    var parts := Downs(d, path, j);
    NextOnWalk(d.tree, n, j - 1);
    DownsHaveNoUps(d, n, j);
    assert parts[0] in parts && parts[1..] == Downs(d, path, j - 1);
    var c := Lookup(d, path[j], parts[0]).value;
    NamesLeadDown(d, c, parts[1..]);
    AboveOnWalk(d.tree, n, j - 1);
    AboveIsOne(d.tree, n, j - 1, c, path[j - 1]);
  }

  // ---- Printing a path ----

  /** Where the two walks meet: `..` that often from the root side, names from the target side. */
  ghost predicate Meets(d: Directory, root: Node, target: Node, i: nat, j: nat) {
    && i <= |Ancestry(d.tree, root)| && j <= |Ancestry(d.tree, target)|
    && Ancestry(d.tree, root)[i..] == Ancestry(d.tree, target)[j..]
    && (i > 0 && j > 0 ==> Ancestry(d.tree, root)[i - 1] != Ancestry(d.tree, target)[j - 1])
  }

  /** Some node is at or above both. */
  ghost predicate WalksMeet(tree: Tree, a: Node, b: Node) {
    exists x :: x in Ancestry(tree, a) && x in Ancestry(tree, b)
  }

  /** The walks meet exactly when something of them is left to share. */
  lemma MeetingPoint(d: Directory, root: Node, target: Node, i: nat, j: nat)
    requires Meets(d, root, target, i, j)
    ensures WalksMeet(d.tree, root, target) <==> i < |Ancestry(d.tree, root)|
    ensures i < |Ancestry(d.tree, root)| <==> j < |Ancestry(d.tree, target)|
    ensures i < |Ancestry(d.tree, root)| ==> Ancestry(d.tree, root)[i] == Ancestry(d.tree, target)[j]
    ensures Elements(Ancestry(d.tree, target)[..j]) ==
      Elements(Ancestry(d.tree, target)) - Elements(Ancestry(d.tree, root))
  {
    var p, q := Ancestry(d.tree, root), Ancestry(d.tree, target);
    UniquePathsAreDifferences(d.tree, root, target, i, j);
    assert |p[i..]| == |q[j..]|;
    if i < |p| {
      assert p[i] == p[i..][0] == q[j..][0];
      assert p[i] in p && p[i] in q;
    } else {
      assert p[..i] == p;
    }
  }

  /** Below its top every node of a walk has a proper name. */
  lemma WalkIsNamed(d: Directory, target: Node, j: nat)
    requires NamesOk(d) && j < |Ancestry(d.tree, target)|
    ensures forall k :: 0 <= k < j ==> Plain(NameOf(d, Ancestry(d.tree, target)[k]))
  {
    forall k | 0 <= k < j ensures Plain(NameOf(d, Ancestry(d.tree, target)[k])) { NextOnWalk(d.tree, target, k); }
  }

  lemma {:induction false} UpsPlain(k: nat)
    ensures AllPlain(Ups(k)) && |Ups(k)| == k
  {
    if k > 0 {
      UpsPlain(k - 1);
      forall i | 0 <= i < k ensures Plain(Ups(k)[i]) { assert i > 0 ==> Ups(k)[i] == Ups(k - 1)[i - 1]; }
    }
  }

  lemma {:induction false} UpsSnoc(k: nat)
    ensures Ups(k + 1) == Ups(k) + [".."]
  {
    if k > 0 {
      UpsSnoc(k - 1);
      assert [".."] + (Ups(k - 1) + [".."]) == ([".."] + Ups(k - 1)) + [".."];
    }
  }

  lemma {:induction false} DownsPlain(d: Directory, path: seq<Node>, j: nat)
    requires j <= |path| && forall k :: 0 <= k < j ==> Plain(NameOf(d, path[k]))
    ensures AllPlain(Downs(d, path, j)) && |Downs(d, path, j)| == j
  {
    if j > 0 {
      DownsPlain(d, path, j - 1);
      forall i | 0 <= i < j ensures Plain(Downs(d, path, j)[i]) {
        assert i > 0 ==> Downs(d, path, j)[i] == Downs(d, path, j - 1)[i - 1];
      }
    }
  }

  /** A slash goes in front of the part unless the text is the bare root or ends in one. */
  function Appended(text: string, part: string): (longer: string)
    requires text != ""
    ensures longer != "" && text <= longer
  {
    (if text != "/" && text[|text| - 1] != '/' then text + "/" else text) + part
  }

  /** The text with the names of the first `j` nodes of a walk appended from the top down. */
  function WithNames(d: Directory, text: string, path: seq<Node>, j: nat): (longer: string)
    requires text != "" && j <= |path|
    ensures longer != "" && text <= longer
    decreases j
  {
    if j == 0 then text else WithNames(d, Appended(text, NameOf(d, path[j - 1])), path, j - 1)
  }

  /** The text the code prints for `target` as seen from `root`. */
  ghost predicate Prints(d: Directory, root: Node, target: Node, text: string) {
    exists i: nat, j: nat :: Meets(d, root, target, i, j)
      && text == WithNames(d, "/" + Join(Ups(i)), Ancestry(d.tree, target), j)
  }

  /** Plain names come out joined by slashes. */
  lemma {:induction false} NamesAreJoined(d: Directory, parts: seq<string>, path: seq<Node>, j: nat)
    requires AllPlain(parts) && j <= |path| && forall k :: 0 <= k < j ==> Plain(NameOf(d, path[k]))
    ensures WithNames(d, "/" + Join(parts), path, j) == "/" + Join(parts + Downs(d, path, j))
    decreases j
  {
    if j == 0 {
      assert parts + [] == parts;
    } else {
      var part := NameOf(d, path[j - 1]);
      PartIsJoined(parts, part);
      NamesAreJoined(d, parts + [part], path, j - 1);
      MoveOver(parts, part, Downs(d, path, j - 1));
    }
  }

  lemma MoveOver(parts: seq<string>, part: string, rest: seq<string>)
    ensures parts + [part] + rest == parts + ([part] + rest)
  {
  }

  lemma PartIsJoined(parts: seq<string>, part: string)
    requires AllPlain(parts)
    ensures Appended("/" + Join(parts), part) == "/" + Join(parts + [part])
  {
    JoinSnoc(parts, part);
    if parts != [] { JoinEnd(parts); }
  }

  lemma ComponentsOfJoin(parts: seq<string>)
    requires AllPlain(parts)
    ensures Components("/" + Join(parts)) == parts
  {
    assert ("/" + Join(parts))[1..] == Join(parts);
    if parts != [] { SplitJoin(parts); }
  }

  lemma MeetingComponents(d: Directory, target: Node, i: nat, j: nat)
    requires NamesOk(d) && j < |Ancestry(d.tree, target)|
    ensures
      var q := Ancestry(d.tree, target);
      var text := WithNames(d, "/" + Join(Ups(i)), q, j);
      text[0] == '/' && Components(text) == Ups(i) + Downs(d, q, j)
  {
    var q := Ancestry(d.tree, target);
    UpsPlain(i);
    WalkIsNamed(d, target, j);
    DownsPlain(d, q, j);
    NamesAreJoined(d, Ups(i), q, j);
    ComponentsOfJoin(Ups(i) + Downs(d, q, j));
  }

  /** The walks meet: the text resolves exactly when the target's own part of its walk is listed. */
  lemma MeetingResolvesIff(d: Directory, root: Node, target: Node, i: nat, j: nat)
    requires NamesOk(d) && Meets(d, root, target, i, j) && j < |Ancestry(d.tree, target)|
    ensures Resolve(d, root, Ups(i) + Downs(d, Ancestry(d.tree, target), j)) == Some(target)
      <==> forall k :: 0 <= k < j ==> Listed(d, Ancestry(d.tree, target)[k])
  {
    MeetingPoint(d, root, target, i, j);
    ResolveUps(d, root, i);
    ResolveDowns(d, target, j);
    ResolveAppend(d, root, Ups(i), Downs(d, Ancestry(d.tree, target), j));
  }

  /** They do not: the text climbs past the top and leads nowhere. */
  lemma ApartResolvesNever(d: Directory, root: Node, target: Node)
    ensures
      var p, q := Ancestry(d.tree, root), Ancestry(d.tree, target);
      var text := WithNames(d, "/" + Join(Ups(|p|)), q, |q|);
      text[0] == '/' && Resolve(d, root, Components(text)) == None
  {
    var p, q := Ancestry(d.tree, root), Ancestry(d.tree, target);
    UpsPlain(|p|);
    var rest := TextAfter(d, Ups(|p|), q, |q|);
    SplitAfter(Ups(|p|), rest);
    ResolvePastTop(d, root, Split(rest));
  }

  /** A slash comes between what is there and the names appended to it. */
  lemma TextAfter(d: Directory, parts: seq<string>, path: seq<Node>, j: nat) returns (rest: string)
    requires parts != [] && AllPlain(parts) && 0 < j <= |path|
    ensures
      var text := WithNames(d, "/" + Join(parts), path, j);
      text[0] == '/' && |text| > 1 && text[1..] == Join(parts) + "/" + rest
  {
    var text := WithNames(d, "/" + Join(parts), path, j);
    var start := Appended("/" + Join(parts), NameOf(d, path[j - 1]));
    JoinEnd(parts);
    assert start <= text && start == "/" + Join(parts) + "/" + NameOf(d, path[j - 1]);
    rest := text[|Join(parts)| + 2..];
    CutAfterSlash(text, Join(parts));
  }

  lemma CutAfterSlash(text: string, middle: string)
    requires "/" + middle + "/" <= text
    ensures text[1..] == middle + "/" + text[|middle| + 2..]
  {
  }

  /** Every node above the target that is not above `root` as well is on its parent's list. */
  ghost predicate OwnPartListed(d: Directory, root: Node, target: Node) {
    forall n :: n in Ancestry(d.tree, target) && n !in Ancestry(d.tree, root) ==> Listed(d, n)
  }

  /** The text printed for walks that meet after `i` and `j` nodes, followed from `root`. */
  ghost function Followed(d: Directory, root: Node, target: Node, i: nat, j: nat): Option<Node>
    requires j <= |Ancestry(d.tree, target)|
  {
    var text := WithNames(d, "/" + Join(Ups(i)), Ancestry(d.tree, target), j);
    if text[0] == '/' then Resolve(d, root, Components(text)) else None
  }

  lemma FollowedWhereTheyMeet(d: Directory, root: Node, target: Node, i: nat, j: nat)
    requires NamesOk(d) && Meets(d, root, target, i, j) && j < |Ancestry(d.tree, target)|
    ensures Followed(d, root, target, i, j) == Some(target) <==> OwnPartListed(d, root, target)
  {
    MeetingPoint(d, root, target, i, j);
    MeetingComponents(d, target, i, j);
    MeetingResolvesIff(d, root, target, i, j);
    OwnPart(d, root, target, j);
  }

  lemma MeetingCases(d: Directory, root: Node, target: Node, i: nat, j: nat)
    requires Meets(d, root, target, i, j)
    ensures WalksMeet(d.tree, root, target) <==> j < |Ancestry(d.tree, target)|
    ensures !WalksMeet(d.tree, root, target) ==> i == |Ancestry(d.tree, root)| && j == |Ancestry(d.tree, target)|
  {
    MeetingPoint(d, root, target, i, j);
  }

  lemma FollowedApart(d: Directory, root: Node, target: Node, i: nat, j: nat)
    requires i == |Ancestry(d.tree, root)| && j == |Ancestry(d.tree, target)|
    ensures Followed(d, root, target, i, j) == None
  {
    ApartResolvesNever(d, root, target);
  }

  lemma FollowedIff(d: Directory, root: Node, target: Node, i: nat, j: nat)
    requires NamesOk(d) && Meets(d, root, target, i, j)
    ensures Followed(d, root, target, i, j) == Some(target)
      <==> WalksMeet(d.tree, root, target) && OwnPartListed(d, root, target)
    ensures !WalksMeet(d.tree, root, target) ==> Followed(d, root, target, i, j) == None
  {
    MeetingCases(d, root, target, i, j);
    if WalksMeet(d.tree, root, target) {
      FollowedWhereTheyMeet(d, root, target, i, j);
    } else {
      FollowedApart(d, root, target, i, j);
    }
  }

  /** Splitting the printed text at `/` and following it from `root` leads back to `target` if and
      only if the two have a node above both, and those of the target's own are still listed.
      Without a node above both it leads nowhere. */
  lemma PrintedPathResolvesIff(d: Directory, root: Node, target: Node, text: string)
    requires NamesOk(d) && Prints(d, root, target, text)
    ensures text != "" && text[0] == '/'
    ensures Resolve(d, root, Components(text)) == Some(target)
      <==> WalksMeet(d.tree, root, target) && OwnPartListed(d, root, target)
    ensures !WalksMeet(d.tree, root, target) ==> Resolve(d, root, Components(text)) == None
  {
    var i: nat, j: nat :| Meets(d, root, target, i, j)
      && text == WithNames(d, "/" + Join(Ups(i)), Ancestry(d.tree, target), j);
    FollowedIff(d, root, target, i, j);
  }

  lemma OwnPart(d: Directory, root: Node, target: Node, j: nat)
    requires j <= |Ancestry(d.tree, target)|
    requires Elements(Ancestry(d.tree, target)[..j]) ==
      Elements(Ancestry(d.tree, target)) - Elements(Ancestry(d.tree, root))
    ensures OwnPartListed(d, root, target) <==> forall k :: 0 <= k < j ==> Listed(d, Ancestry(d.tree, target)[k])
  {
    var q := Ancestry(d.tree, target);
    assert forall k :: 0 <= k < j ==> q[k] in Elements(q[..j]);
    forall n | n in q && n !in Ancestry(d.tree, root) ensures exists k :: 0 <= k < j && q[k] == n {
      assert n in Elements(q[..j]);
    }
  }

  lemma FindableAreListed(d: Directory, root: Node, target: Node)
    requires NamesOk(d) && Findable(d, root) && Findable(d, target)
    ensures WalksMeet(d.tree, root, target) && OwnPartListed(d, root, target)
  {
    FindableWalk(d, root, 0);
    FindableWalk(d, target, 0);
    forall n | n in Ancestry(d.tree, target) && n !in Ancestry(d.tree, root) ensures Listed(d, n) {
      var k :| 0 <= k < |Ancestry(d.tree, target)| && Ancestry(d.tree, target)[k] == n;
      FindableWalk(d, target, k);
    }
  }

  /** Between nodes that can be found from the top it always does. */
  lemma PrintedPathResolves(d: Directory, root: Node, target: Node, text: string)
    requires NamesOk(d) && Findable(d, root) && Findable(d, target) && Prints(d, root, target, text)
    ensures text != "" && text[0] == '/'
    ensures Resolve(d, root, Components(text)) == Some(target)
  {
    FindableAreListed(d, root, target);
    PrintedPathResolvesIff(d, root, target, text);
  }

  /** Seen from one root, different cgroups print differently. */
  lemma PrintedPathsAreInjective(d: Directory, root: Node, a: Node, b: Node, text: string)
    requires NamesOk(d) && Prints(d, root, a, text) && Prints(d, root, b, text)
    requires WalksMeet(d.tree, root, a) && OwnPartListed(d, root, a)
    requires WalksMeet(d.tree, root, b) && OwnPartListed(d, root, b)
    ensures a == b
  {
    PrintedPathResolvesIff(d, root, a, text);
    PrintedPathResolvesIff(d, root, b, text);
  }

  // ---- Where it does not resolve ----

  lemma OrphanText(d: Directory, orphan: Node)
    ensures WithNames(d, "/" + Join(Ups(1)), [orphan], 1) == "/../" + NameOf(d, orphan)
  {
    assert Ups(1) == [".."] && Join(Ups(1)) == "..";
    var start := Appended("/..", NameOf(d, orphan));
    assert start == "/../" + NameOf(d, orphan) && WithNames(d, start, [orphan], 0) == start;
  }

  lemma OrphanPrints(d: Directory, root: Node, orphan: Node, text: string)
    requires !HasLiveParent(d.tree, root) && !HasLiveParent(d.tree, orphan) && root != orphan
    requires text == "/../" + NameOf(d, orphan)
    ensures Prints(d, root, orphan, text) && text[0] == '/' && Resolve(d, root, Components(text)) == None
  {
    var p, q := Ancestry(d.tree, root), Ancestry(d.tree, orphan);
    assert p == [root] && q == [orphan];
    assert p[1..] == q[1..] && Meets(d, root, orphan, 1, 1);
    OrphanText(d, orphan);
    ApartResolvesNever(d, root, orphan);
  }

  const DETACHED := Directory(RawTree(map[2 := ROOT, 3 := 2], {ROOT, 3}), map[2 := "a", 3 := "b"], map[])

  /** A cgroup whose parent is gone prints `..` past the root, which leads nowhere. */
  lemma DetachedPathLeadsNowhere(text: string)
    requires text == "/../b"
    ensures NamesOk(DETACHED) && Prints(DETACHED, ROOT, 3, text) && Resolve(DETACHED, ROOT, Components(text)) == None
  {
    OrphanPrints(DETACHED, ROOT, 3, text);
  }

  /** A removed cgroup prints the path of the one that took its name. */
  lemma RemovedPathMisleads()
    ensures
      var d := Directory(RawTree(map[2 := ROOT, 3 := ROOT], {ROOT, 2, 3}), map[2 := "a", 3 := "a"],
        map[ROOT := map["a" := 3]]);
      NamesOk(d) && Prints(d, ROOT, 2, "/a") && Resolve(d, ROOT, Components("/a")) == Some(3)
  {
    var d := Directory(RawTree(map[2 := ROOT, 3 := ROOT], {ROOT, 2, 3}), map[2 := "a", 3 := "a"],
      map[ROOT := map["a" := 3]]);
    var p, q := Ancestry(d.tree, ROOT), Ancestry(d.tree, 2);
    assert p == [ROOT] && q == [2, ROOT];
    assert p[0..] == q[1..] && Meets(d, ROOT, 2, 0, 1);
    assert WithNames(d, "/", q, 1) == "/a";
    assert "/a"[1..] == "a" && Split("a") == ["a"];
    assert Resolve(d, ROOT, ["a"]) == Resolve(d, 3, []);
  }

  // ---- Filing a new child ----

  lemma GrownTree(t: Tree, under: Node, n: Node)
    requires IsNode(t, under) && !IsNode(t, n) && under < n
    ensures WellFormed(RawTree(t.parent[n := under], t.alive + {n}))
  {
  }

  function WithChild(d: Directory, under: Node, childName: string, n: Node): Directory
    requires IsNode(d.tree, under) && !IsNode(d.tree, n) && under < n
  {
    GrownTree(d.tree, under, n);
    var siblings := if under in d.children then d.children[under] else map[];
    Directory(RawTree(d.tree.parent[n := under], d.tree.alive + {n}), d.name[n := childName],
              d.children[under := siblings[childName := n]])
  }

  lemma LookupWithChild(d: Directory, under: Node, childName: string, n: Node, m: Node, x: string)
    requires IsNode(d.tree, under) && !IsNode(d.tree, n) && under < n
    ensures Lookup(WithChild(d, under, childName, n), m, x) == if m == under && x == childName then Some(n)
      else Lookup(d, m, x)
  {
  }

  lemma NamesWithChild(d: Directory, under: Node, childName: string, n: Node)
    requires NamesOk(d) && IsNode(d.tree, under) && !IsNode(d.tree, n) && under < n && n !in d.name
    requires ValidName(childName)
    requires Lookup(d, under, childName) == None
    ensures NamesOk(WithChild(d, under, childName, n))
  {
    forall m: Node, x: string { LookupWithChild(d, under, childName, n, m, x); }
  }

  /** Whatever names, live parents and lists have in common, can be found in both. */
  lemma {:induction false} StaysFindable(d: Directory, d': Directory, n: Node)
    requires Findable(d, n)
    requires forall m: Node :: Findable(d, m) && m != ROOT ==> StillListed(d, d', m)
    ensures Findable(d', n)
    decreases n
  {
    if n != ROOT {
      assert StillListed(d, d', n);
      StaysFindable(d, d', d.tree.parent[n]);
    }
  }

  /** If `m` has a name, a live parent and a place on its list in `d`, then so it has in `d'`. */
  ghost predicate StillListed(d: Directory, d': Directory, m: Node) {
    m in d.name && HasLiveParent(d.tree, m) && Lookup(d, d.tree.parent[m], d.name[m]) == Some(m) ==>
      && m in d'.name && d'.name[m] == d.name[m]
      && HasLiveParent(d'.tree, m) && d'.tree.parent[m] == d.tree.parent[m]
      && Lookup(d', d.tree.parent[m], d.name[m]) == Some(m)
  }

  /** The child is findable when its parent is; of the others the same ones are as before. */
  lemma FindableWithChild(d: Directory, under: Node, childName: string, n: Node, m: Node)
    requires NamesOk(d) && IsNode(d.tree, under) && !IsNode(d.tree, n) && under < n && n !in d.name
    requires Lookup(d, under, childName) == None && under in d.tree.alive && n != ROOT
    ensures Findable(WithChild(d, under, childName, n), m) <==> Findable(d, m) || (m == n && Findable(d, under))
  {
    var d' := WithChild(d, under, childName, n);
    forall k: Node ensures StillListed(d, d', k) { ListedWithChild(d, under, childName, n, k); }
    forall k: Node | Findable(d', k) ensures k == n || StillListed(d', d, k) {
      ListedWithChild(d, under, childName, n, k);
    }
    LookupWithChild(d, under, childName, n, under, childName);
    if Findable(d, m) { StaysFindable(d, d', m); }
    if Findable(d, under) { StaysFindable(d, d', under); }
    if Findable(d', m) { BackFindable(d, d', n, under, m); }
  }

  lemma ListedWithChild(d: Directory, under: Node, childName: string, n: Node, k: Node)
    requires NamesOk(d) && IsNode(d.tree, under) && !IsNode(d.tree, n) && under < n && n !in d.name
    requires Lookup(d, under, childName) == None && under in d.tree.alive && n != ROOT
    ensures StillListed(d, WithChild(d, under, childName, n), k)
    ensures k != n ==> StillListed(WithChild(d, under, childName, n), d, k)
  {
    var d' := WithChild(d, under, childName, n);
    if k in d.name && k in d.tree.parent { LookupWithChild(d, under, childName, n, d.tree.parent[k], d.name[k]); }
    if k in d'.name && k in d'.tree.parent {
      LookupWithChild(d, under, childName, n, d'.tree.parent[k], d'.name[k]);
    }
  }

  lemma {:induction false} BackFindable(d: Directory, d': Directory, n: Node, under: Node, m: Node)
    requires Findable(d', m) && !IsNode(d.tree, n) && n in d'.tree.parent && d'.tree.parent[n] == under < n
    requires forall k: Node :: Findable(d', k) ==> k == n || StillListed(d', d, k)
    ensures Findable(d, m) || (m == n && Findable(d, under))
    decreases m
  {
    if m != ROOT {
      BackFindable(d, d', n, under, d'.tree.parent[m]);
      assert m != n ==> d.tree.parent[m] == d'.tree.parent[m];
    }
  }

  lemma NewChild(d: Directory, under: Node, childName: string, n: Node)
    requires NamesOk(d) && IsNode(d.tree, under) && !IsNode(d.tree, n) && under < n && n !in d.name
    requires ValidName(childName)
    requires Lookup(d, under, childName) == None && under in d.tree.alive && n != ROOT
    ensures
      var d' := WithChild(d, under, childName, n);
      && NamesOk(d') && Lookup(d', under, childName) == Some(n)
      && forall m :: Findable(d', m) <==> Findable(d, m) || (m == n && Findable(d, under))
  {
    NamesWithChild(d, under, childName, n);
    forall m: Node { FindableWithChild(d, under, childName, n, m); }
    LookupWithChild(d, under, childName, n, under, childName);
  }

  // ---- Taking a child off the list, and freeing it ----

  ghost predicate Childless(d: Directory, n: Node) {
    forall x: string :: Lookup(d, n, x) == None
  }

  function Unlisted(d: Directory, under: Node, childName: string): Directory
    requires under in d.children
  {
    d.(children := d.children[under := d.children[under] - {childName}])
  }

  /** The last owner lets go: the node is no longer alive, and its list goes with it. */
  function Freed(d: Directory, n: Node): Directory
    requires n != ROOT
  {
    d.(tree := RawTree(d.tree.parent, d.tree.alive - {n}), children := d.children - {n})
  }

  lemma LookupUnlisted(d: Directory, under: Node, childName: string, m: Node, x: string)
    requires under in d.children
    ensures Lookup(Unlisted(d, under, childName), m, x) ==
      if m == under && x == childName then None else Lookup(d, m, x)
  {
  }

  lemma LookupFreed(d: Directory, n: Node, m: Node, x: string)
    requires n != ROOT
    ensures Lookup(Freed(d, n), m, x) == if m == n then None else Lookup(d, m, x)
  {
  }

  /** Only the child can no longer be found. */
  lemma FindableUnlisted(d: Directory, under: Node, childName: string, m: Node)
    requires NamesOk(d) && Lookup(d, under, childName).Some? && Childless(d, Lookup(d, under, childName).value)
    ensures
      var child := Lookup(d, under, childName).value;
      Findable(Unlisted(d, under, childName), m) <==> Findable(d, m) && m != child
  {
    var d', child := Unlisted(d, under, childName), Lookup(d, under, childName).value;
    LookupUnlisted(d, under, childName, under, childName);
    forall k: Node ensures StillListed(d', d, k) && (k != child ==> StillListed(d, d', k)) {
      if k in d.name && k in d.tree.parent { LookupUnlisted(d, under, childName, d.tree.parent[k], d.name[k]); }
    }
    if Findable(d', m) { StaysFindable(d', d, m); }
    if Findable(d, m) && m != child { FindableBeside(d, d', child, m); }
  }

  lemma {:induction false} FindableBeside(d: Directory, d': Directory, child: Node, m: Node)
    requires Findable(d, m) && m != child && Childless(d, child)
    requires forall k: Node :: k != child ==> StillListed(d, d', k)
    ensures Findable(d', m)
    decreases m
  {
    if m != ROOT {
      assert StillListed(d, d', m) && d.tree.parent[m] != child;
      FindableBeside(d, d', child, d.tree.parent[m]);
    }
  }

  lemma NamesUnlisted(d: Directory, under: Node, childName: string)
    requires NamesOk(d) && under in d.children
    ensures NamesOk(Unlisted(d, under, childName))
  {
    forall m: Node, x: string { LookupUnlisted(d, under, childName, m, x); }
  }

  lemma NamesFreed(d: Directory, n: Node)
    requires NamesOk(d) && n != ROOT
    ensures NamesOk(Freed(d, n))
  {
    forall m: Node, x: string { LookupFreed(d, n, m, x); }
  }

  /** A node that is on no list is not on the way to anything. */
  lemma {:induction false} FindableFreed(d: Directory, n: Node, m: Node)
    requires NamesOk(d) && n != ROOT && !Listed(d, n)
    ensures Findable(Freed(d, n), m) <==> Findable(d, m)
    decreases m
  {
    if m in d.name && m in d.tree.parent {
      LookupFreed(d, n, d.tree.parent[m], d.name[m]);
      FindableFreed(d, n, d.tree.parent[m]);
      if d.tree.parent[m] == n { assert !Findable(d, n); }
    }
  }

  /** A child of the root prints as its name, listed or not. */
  lemma ChildPrints(d: Directory, n: Node, text: string)
    requires NamesOk(d) && n in d.tree.parent && d.tree.parent[n] == ROOT && Prints(d, ROOT, n, text)
    ensures text != "" && text[0] == '/' && Components(text) == [d.name[n]]
  {
    var p, q := Ancestry(d.tree, ROOT), Ancestry(d.tree, n);
    assert p == [ROOT] && q == [n, ROOT];
    var i: nat, j: nat :| Meets(d, ROOT, n, i, j) && text == WithNames(d, "/" + Join(Ups(i)), q, j);
    assert |p[i..]| == |q[j..]|;
    assert i == 0 && j == 1;
    MeetingComponents(d, n, 0, 1);
    assert Downs(d, q, 1) == [d.name[n]];
  }

  // ---- The hierarchy as an object ----

  class Hierarchy {
    var tree: Tree
    var name: map<Node, string>
    var children: map<Node, map<string, Node>>
    var nextId: Node

    ghost function View(): Directory
      reads this
    {
      Directory(tree, name, children)
    }

    ghost predicate Valid()
      reads this
    {
      && NamesOk(View())
      && (forall n: Node :: IsNode(tree, n) ==> n < nextId)
      && (forall n :: n in name ==> n < nextId)
    }

    constructor ()
      ensures Valid() && View() == Directory(RawTree(map[], {ROOT}), map[], map[])
    {
      tree, name, children, nextId := RawTree(map[], {ROOT}), map[], map[], 2;
    }

    /** A refused name or a taken one changes nothing; otherwise the child can be found when its
        parent can, and of the others the same ones as before. */
    method CreateChild(under: Node, childName: string) returns (r: Result<Node, Error>)
      requires Valid() && under in tree.alive
      modifies this
      ensures Valid()
      ensures r.Err? ==> View() == old(View())
      ensures r == Err(InvalidInput) <==> !ValidName(childName)
      ensures r == Err(AlreadyExists) <==> ValidName(childName) && Lookup(old(View()), under, childName).Some?
      ensures r.Ok? <==> ValidName(childName) && Lookup(old(View()), under, childName) == None
      ensures r.Ok? ==>
        && IsNode(old(tree), under) && !IsNode(old(tree), r.value) && under < r.value
        && View() == WithChild(old(View()), under, childName, r.value)
        && Lookup(View(), under, childName) == Some(r.value)
        && (forall n :: Findable(View(), n) <==>
              Findable(old(View()), n) || (n == r.value && Findable(old(View()), under)))
    {
      if childName == "" || childName == "." || childName == ".." || '/' in childName {
        return Err(InvalidInput);
      }
      var siblings := if under in children then children[under] else map[];
      if childName in siblings {
        return Err(AlreadyExists);
      }
      var n := nextId;
      nextId := nextId + 1;
      assert IsNode(tree, under) && IsNode(tree, ROOT);
      NewChild(View(), under, childName, n);
      File(under, childName, siblings, n);
      r := Ok(n);
    }

    method File(under: Node, childName: string, siblings: map<string, Node>, n: Node)
      requires IsNode(tree, under) && !IsNode(tree, n) && under < n
      requires siblings == if under in children then children[under] else map[]
      modifies this`tree, this`name, this`children
      ensures View() == WithChild(old(View()), under, childName, n)
    {
      GrownTree(tree, under, n);
      tree := RawTree(tree.parent[n := under], tree.alive + {n});
      name := name[n := childName];
      children := children[under := siblings[childName := n]];
    }

    /** A child that has children, members or pins stays; otherwise it is taken off the list, and it
        alone can no longer be found. `busy` holds the nodes with members or pins. */
    method RemoveChild(under: Node, childName: string, busy: set<Node>) returns (r: Result<Node, Error>)
      requires Valid() && under in tree.alive
      modifies this`children
      ensures Valid()
      ensures r.Err? ==> View() == old(View())
      ensures
        var child := Lookup(old(View()), under, childName);
        match child
        case None => r == Err(NotFound)
        case Some(c) =>
          if !Childless(old(View()), c) then r == Err(DirectoryNotEmpty)
          else if c in busy then r == Err(ResourceBusy)
          else r == Ok(c)
      ensures r.Ok? ==>
        && under in old(children) && View() == Unlisted(old(View()), under, childName)
        && !Listed(View(), r.value)
        && (forall n :: Findable(View(), n) <==> Findable(old(View()), n) && n != r.value)
    {
      ghost var d := View();
      if under !in children || childName !in children[under] {
        return Err(NotFound);
      }
      var child := children[under][childName];
      assert Lookup(d, under, childName) == Some(child);
      if child in children && children[child] != map[] {
        var x :| x in children[child];
        assert Lookup(d, child, x).Some?;
        return Err(DirectoryNotEmpty);
      }
      assert Childless(d, child);
      if child in busy {
        return Err(ResourceBusy);
      }
      NamesUnlisted(d, under, childName);
      LookupUnlisted(d, under, childName, under, childName);
      forall n: Node { FindableUnlisted(d, under, childName, n); }
      children := children[under := children[under] - {childName}];
      r := Ok(child);
    }

    /** The last owner of a node that is on no list lets go of it. Nothing that could be found is
        affected. */
    method Free(n: Node)
      requires Valid() && n in tree.alive && n != ROOT && !Listed(View(), n)
      modifies this`tree, this`children
      ensures Valid() && View() == Freed(old(View()), n)
      ensures forall m :: Findable(View(), m) <==> Findable(old(View()), m)
    {
      NamesFreed(View(), n);
      forall m: Node { FindableFreed(View(), n, m); }
      tree := RawTree(tree.parent, tree.alive - {n});
      children := children - {n};
    }

    /** Print `target` relative to `root`. */
    method RelativePath(root: Node, target: Node) returns (text: string)
      requires Valid()
      ensures Prints(View(), root, target, text) && text != "" && text[0] == '/'
      ensures Resolve(View(), root, Components(text)) == Some(target)
        <==> WalksMeet(tree, root, target) && OwnPartListed(View(), root, target)
    {
      ghost var d := View();
      var p := Walk(tree, root);
      var q := Walk(tree, target);
      if root == target {
        assert p[0..] == q[0..] && WithNames(d, "/" + Join(Ups(0)), q, 0) == "/";
        assert Meets(d, root, target, 0, 0);
        text := "/";
      } else {
        var i, j := UniquePaths(p, q);
        text := PrintUps(i);
        text := PrintDowns(text, q, j);
        assert Meets(d, root, target, i, j);
      }
      PrintedPathResolvesIff(d, root, target, text);
    }

    method PrintUps(count: nat) returns (text: string)
      ensures text == "/" + Join(Ups(count))
    {
      text := "/";
      var index := 0;
      while index < count
        invariant index <= count && text == "/" + Join(Ups(index))
      {
        UpsSnoc(index);
        UpsPlain(index);
        JoinSnoc(Ups(index), "..");
        if index != 0 {
          text := text + "/";
        }
        text := text + "..";
        index := index + 1;
      }
    }

    method PrintDowns(start: string, path: seq<Node>, count: nat) returns (text: string)
      requires start != "" && count <= |path|
      ensures text == WithNames(View(), start, path, count)
    {
      text := start;
      var j: nat := count;
      while j > 0
        invariant j <= count && text != "" && WithNames(View(), text, path, j) == WithNames(View(), start, path, count)
      {
        text := AppendPart(text, if path[j - 1] in name then name[path[j - 1]] else "");
        j := j - 1;
      }
    }
  }

  /** Two nested cgroups are made and removed again, both still held by somebody. */
  method MakeAndRemove(upper: string, lower: string) returns (h: Hierarchy, a: Node, b: Node)
    requires ValidName(upper) && ValidName(lower)
    ensures fresh(h) && h.Valid() && {a, b} <= h.tree.alive && a != b && a != ROOT && !Listed(h.View(), a)
    ensures b in h.tree.parent && h.tree.parent[b] == a
  {
    h := new Hierarchy();
    var made := h.CreateChild(ROOT, upper);
    a := made.value;
    made := h.CreateChild(a, lower);
    b := made.value;
    var _ := h.RemoveChild(a, lower, {});
    var _ := h.RemoveChild(ROOT, upper, {});
  }

  lemma CutOff(tree: Tree, n: Node)
    requires n != ROOT && !HasLiveParent(tree, n)
    ensures !WalksMeet(tree, ROOT, n)
  {
    assert Ancestry(tree, ROOT) == [ROOT] && Ancestry(tree, n) == [n];
  }

  /** Operations that lead to a cgroup whose path leads nowhere: two nested cgroups are made and
      removed again, and the upper one is let go of while somebody still holds the lower one. */
  method Detach(upper: string, lower: string) returns (h: Hierarchy, orphan: Node, text: string)
    requires ValidName(upper) && ValidName(lower)
    ensures fresh(h) && h.Valid() && orphan in h.tree.alive
    ensures Prints(h.View(), ROOT, orphan, text) && text != "" && text[0] == '/'
    ensures Resolve(h.View(), ROOT, Components(text)) == None
  {
    var parent: Node;
    h, parent, orphan := MakeAndRemove(upper, lower);
    h.Free(parent);
    text := h.RelativePath(ROOT, orphan);
    CutOff(h.tree, orphan);
    PrintedPathResolvesIff(h.View(), ROOT, orphan, text);
  }

  /** A cgroup is removed while somebody holds it, and another one is made under its name. */
  method RemoveAndRemake(childName: string) returns (h: Hierarchy, removed: Node, newer: Node)
    requires ValidName(childName)
    ensures fresh(h) && h.Valid() && removed in h.tree.alive && removed != newer
    ensures removed in h.tree.parent && h.tree.parent[removed] == ROOT && NameOf(h.View(), removed) == childName
    ensures Lookup(h.View(), ROOT, childName) == Some(newer)
  {
    h := new Hierarchy();
    var made := h.CreateChild(ROOT, childName);
    removed := made.value;
    var _ := h.RemoveChild(ROOT, childName, {});
    made := h.CreateChild(ROOT, childName);
    newer := made.value;
  }

  lemma ResolveName(d: Directory, n: Node, part: string)
    requires part != ".."
    ensures Resolve(d, n, [part]) == Lookup(d, n, part)
  {
    var next := Lookup(d, n, part);
    if next.Some? { assert [part][1..] == [] && Resolve(d, next.value, []) == next; }
  }

  /** Operations that lead to a path that misleads. */
  method Replace(childName: string) returns (h: Hierarchy, removed: Node, newer: Node, text: string)
    requires ValidName(childName)
    ensures fresh(h) && h.Valid() && removed in h.tree.alive && removed != newer
    ensures Prints(h.View(), ROOT, removed, text) && text != "" && text[0] == '/'
    ensures Resolve(h.View(), ROOT, Components(text)) == Some(newer)
  {
    h, removed, newer := RemoveAndRemake(childName);
    text := h.RelativePath(ROOT, removed);
    ChildPrints(h.View(), removed, text);
    ResolveName(h.View(), ROOT, childName);
  }

  method AppendPart(text: string, part: string) returns (longer: string)
    requires text != ""
    ensures longer == Appended(text, part)
  {
    longer := text;
    if longer != "/" && longer[|longer| - 1] != '/' {
      longer := longer + "/";
    }
    longer := longer + part;
  }
}
