/** The cgroup hierarchy as the pids controller walks it.

    A node keeps only a weak reference to its parent, so a walk towards the root
    stops early when a parent has been freed. `Ancestors` is the structural
    notion (every node above, freed or not); `Ancestry` is the walk the code does. */
module CgroupTree {

  type Node = nat

  const ROOT: Node := 1

  /** `parent` never changes for a node; `alive` holds the nodes still owned by someone.
      Identifiers are handed out in increasing order, so a parent is older than its child. */
  datatype RawTree = RawTree(parent: map<Node, Node>, alive: set<Node>)

  ghost predicate WellFormed(t: RawTree) {
    && ROOT !in t.parent
    && ROOT in t.alive
    && (forall n :: n in t.alive ==> n == ROOT || n in t.parent)
    && (forall n :: n in t.parent ==> t.parent[n] < n && (t.parent[n] == ROOT || t.parent[n] in t.parent))
  }

  type Tree = t: RawTree | WellFormed(t) ghost witness RawTree(map[], {ROOT})

  predicate IsNode(t: Tree, n: Node) {
    n == ROOT || n in t.parent
  }

  /** The weak parent reference upgrades only while the parent is alive. */
  predicate HasLiveParent(t: Tree, n: Node) {
    n in t.parent && t.parent[n] in t.alive
  }

  /** Every node at or above `n`. */
  function Ancestors(t: Tree, n: Node): set<Node>
    decreases n
  {
    {n} + if n in t.parent then Ancestors(t, t.parent[n]) else {}
  }

  /** The walk from `n` over live parents, `n` first. */
  function Ancestry(t: Tree, n: Node): (path: seq<Node>)
    ensures path != [] && path[0] == n
    decreases n
  {
    [n] + if HasLiveParent(t, n) then Ancestry(t, t.parent[n]) else []
  }

  function Elements(path: seq<Node>): (s: set<Node>)
    ensures forall n :: n in s <==> n in path
  {
    set n | n in path
  }

  ghost predicate Distinct(path: seq<Node>) {
    forall i, j :: 0 <= i < j < |path| ==> path[i] != path[j]
  }

  /** The nodes above `n` that `path` does not contain. */
  function Missed(t: Tree, n: Node, path: seq<Node>): set<Node> {
    Ancestors(t, n) - Elements(path)
  }

  /** The nodes a walk from `n` fails to reach although they lie above `n`. */
  function Missing(t: Tree, n: Node): set<Node> {
    Missed(t, n, Ancestry(t, n))
  }

  // ---- Facts about the walk ----

  lemma {:induction false} AncestryAt(t: Tree, n: Node, i: nat)
    requires i < |Ancestry(t, n)|
    ensures Ancestry(t, Ancestry(t, n)[i]) == Ancestry(t, n)[i..]
    ensures Ancestry(t, n)[i] in Ancestors(t, n)
    ensures Ancestry(t, n)[i] <= n
    ensures i > 0 ==> Ancestry(t, n)[i] < n && Ancestry(t, n)[i] in t.alive
    ensures IsNode(t, n) ==> IsNode(t, Ancestry(t, n)[i])
    decreases n
  {
    if i > 0 {
      var p := t.parent[n];
      AncestryAt(t, p, i - 1);
      assert Ancestry(t, n)[1..] == Ancestry(t, p);
      assert Ancestry(t, n)[i..] == Ancestry(t, p)[i - 1..];
    } else {
      assert Ancestry(t, n)[0..] == Ancestry(t, n);
    }
  }

  lemma AncestryDistinct(t: Tree, n: Node)
    ensures Distinct(Ancestry(t, n))
  {
    var path := Ancestry(t, n);
    forall i, j | 0 <= i < j < |path| ensures path[i] != path[j] {
      AncestryAt(t, n, i);
      AncestryAt(t, path[i], j - i);
      assert path[i..][j - i] == path[j];
    }
  }

  lemma AncestryWithin(t: Tree, n: Node)
    ensures Elements(Ancestry(t, n)) <= Ancestors(t, n)
    ensures forall x :: x in Ancestry(t, n) ==> x == n || x in t.alive
  {
  }

  /** When nothing above `n` was freed the walk is complete. */
  lemma {:induction false} WholeAncestry(t: Tree, n: Node)
    requires Ancestors(t, n) <= t.alive
    ensures Elements(Ancestry(t, n)) == Ancestors(t, n)
    decreases n
  {
    if n in t.parent {
      var p := t.parent[n];
      AncestorsReflexive(t, p);
      WholeAncestry(t, p);
    }
  }

  lemma AncestorsReflexive(t: Tree, n: Node)
    ensures n in Ancestors(t, n)
  {
  }

  lemma {:induction false} AncestorsAreNodes(t: Tree, n: Node, x: Node)
    requires IsNode(t, n) && x in Ancestors(t, n)
    ensures IsNode(t, x) && x <= n
    ensures ROOT in Ancestors(t, n)
    decreases n
  {
    if n in t.parent {
      AncestorsAreNodes(t, t.parent[n], if x == n then t.parent[n] else x);
    }
  }

  /** Below every proper ancestor there is a next node on the way down. */
  lemma {:induction false} ChildOnTheWay(t: Tree, c: Node, n: Node) returns (d: Node)
    requires n in Ancestors(t, c) && n != c
    ensures d in Ancestors(t, c) && d in t.parent && t.parent[d] == n
    decreases c
  {
    if t.parent[c] == n {
      d := c;
    } else {
      d := ChildOnTheWay(t, t.parent[c], n);
    }
  }

  lemma {:induction false} ParentIsAncestor(t: Tree, c: Node, d: Node)
    requires d in Ancestors(t, c) && d in t.parent
    ensures t.parent[d] in Ancestors(t, c)
    decreases c
  {
    if d == c {
      AncestorsReflexive(t, t.parent[c]);
    } else {
      ParentIsAncestor(t, t.parent[c], d);
    }
  }

  /** Adding nodes or freeing nodes never changes what lies above an existing node. */
  lemma {:induction false} AncestorsStable(t: Tree, u: Tree, n: Node)
    requires IsNode(t, n)
    requires forall x :: x in t.parent ==> x in u.parent && u.parent[x] == t.parent[x]
    requires n in t.parent || n !in u.parent
    ensures Ancestors(u, n) == Ancestors(t, n)
    decreases n
  {
    if n in t.parent {
      AncestorsStable(t, u, t.parent[n]);
    }
  }

  /** Walk over live parents to the top. */
  method Walk(t: Tree, node: Node) returns (path: seq<Node>)
    ensures path == Ancestry(t, node)
  {
    path := [node];
    var current := node;
    while HasLiveParent(t, current)
      invariant path + Ancestry(t, current)[1..] == Ancestry(t, node)
      decreases current
    {
      current := t.parent[current];
      path := path + [current];
    }
  }

  // ---- Stripping the shared part of two walks ----

  /** What is left of two walks when the longest common suffix is cut off. */
  method UniquePaths(oldPath: seq<Node>, targetPath: seq<Node>) returns (oldUnique: nat, targetUnique: nat)
    ensures oldUnique <= |oldPath| && targetUnique <= |targetPath|
    ensures oldPath[oldUnique..] == targetPath[targetUnique..]
    ensures oldUnique > 0 && targetUnique > 0 ==> oldPath[oldUnique - 1] != targetPath[targetUnique - 1]
  {
    oldUnique, targetUnique := |oldPath|, |targetPath|;
    while oldUnique > 0 && targetUnique > 0 && oldPath[oldUnique - 1] == targetPath[targetUnique - 1]
      invariant oldUnique <= |oldPath| && targetUnique <= |targetPath|
      invariant oldPath[oldUnique..] == targetPath[targetUnique..]
    {
      oldUnique, targetUnique := oldUnique - 1, targetUnique - 1;
      assert oldPath[oldUnique..] == [oldPath[oldUnique]] + oldPath[oldUnique + 1..];
      assert targetPath[targetUnique..] == [targetPath[targetUnique]] + targetPath[targetUnique + 1..];
    }
  }

  /** Two walks that meet agree from the meeting point on, so cutting the common
      suffix leaves exactly the two set differences. */
  lemma UniquePathsAreDifferences(t: Tree, a: Node, b: Node, i: nat, j: nat)
    requires i <= |Ancestry(t, a)| && j <= |Ancestry(t, b)|
    requires Ancestry(t, a)[i..] == Ancestry(t, b)[j..]
    requires i > 0 && j > 0 ==> Ancestry(t, a)[i - 1] != Ancestry(t, b)[j - 1]
    ensures Elements(Ancestry(t, a)[..i]) == Elements(Ancestry(t, a)) - Elements(Ancestry(t, b))
    ensures Elements(Ancestry(t, b)[..j]) == Elements(Ancestry(t, b)) - Elements(Ancestry(t, a))
  {
    PrefixIsDifference(t, a, b, i, j);
    PrefixIsDifference(t, b, a, j, i);
  }

  lemma PrefixIsDifference(t: Tree, a: Node, b: Node, i: nat, j: nat)
    requires i <= |Ancestry(t, a)| && j <= |Ancestry(t, b)|
    requires Ancestry(t, a)[i..] == Ancestry(t, b)[j..]
    requires i > 0 && j > 0 ==> Ancestry(t, a)[i - 1] != Ancestry(t, b)[j - 1]
    ensures Elements(Ancestry(t, a)[..i]) == Elements(Ancestry(t, a)) - Elements(Ancestry(t, b))
  {
    var p, q := Ancestry(t, a), Ancestry(t, b);
    forall u, v | 0 <= u < i && 0 <= v < |q| ensures p[u] != q[v] {
      if p[u] == q[v] {
        AncestryAt(t, a, u);
        AncestryAt(t, b, v);
        CommonSuffixGrows(p, q, i, j, u, v);
      }
    }
    CutIsDifference(p, q, i, j);
  }

  lemma CommonSuffixGrows(p: seq<Node>, q: seq<Node>, i: nat, j: nat, u: nat, v: nat)
    requires u < i <= |p| && j <= |q| && v < |q|
    requires p[i..] == q[j..] && p[u..] == q[v..]
    ensures j > 0 && p[i - 1] == q[j - 1]
  {
  }

  lemma CutIsDifference(p: seq<Node>, q: seq<Node>, i: nat, j: nat)
    requires i <= |p| && j <= |q| && p[i..] == q[j..]
    requires forall u, v :: 0 <= u < i && 0 <= v < |q| ==> p[u] != q[v]
    ensures Elements(p[..i]) == Elements(p) - Elements(q)
  {
  }
}
