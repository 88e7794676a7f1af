/**
 The bounded walk of a process tree (internal/procmeta/process_tree.go).

 A view fixes what every read of the process file system returns; a missing key is a read that
 fails.  The walk is proved complete exactly when what it may see is a proper tree.
 */
module ProcessTree {
  import opened Wrappers

  const MAX_NODES: nat := 256
  const MAX_DEPTH: nat := 8

  datatype Identity = Identity(parent: int, startTime: string)

  /** Children are listed once each, in increasing order, and are positive. */
  datatype View = View(identities: map<int, Identity>, children: map<int, seq<int>>)

  predicate Increasing(s: seq<int>) {
    forall i, j :: 0 <= i < j < |s| ==> s[i] < s[j]
  }

  ghost predicate ValidView(v: View) {
    forall pid <- v.children :: Increasing(v.children[pid]) && forall c <- v.children[pid] :: c > 0
  }

  // ---------------------------------------------------------------- paths

  /** A path runs from the root along child edges. */
  type Path = seq<int>

  ghost predicate IsPath(v: View, root: int, p: Path) {
    && p != [] && p[0] == root
    && forall i :: 0 <= i < |p| - 1 ==> p[i] in v.children && p[i + 1] in v.children[p[i]]
  }

  function End(p: Path): int {
    if p == [] then 0 else p[|p| - 1]
  }

  /** The parent the walk expects, 0 for the root. */
  function Parent(p: Path): int {
    if |p| < 2 then 0 else p[|p| - 2]
  }

  /** The end of a path is readable and its parent agrees. */
  ghost predicate Sound(v: View, p: Path) {
    && End(p) in v.identities && End(p) in v.children
    && (Parent(p) > 0 ==> v.identities[End(p)].parent == Parent(p))
  }

  ghost predicate Reachable(v: View, root: int, pid: int) {
    exists p :: IsPath(v, root, p) && End(p) == pid
  }

  ghost predicate AllSound(v: View, root: int) {
    forall p {:trigger IsPath(v, root, p)} :: IsPath(v, root, p) ==> Sound(v, p)
  }

  ghost predicate OnePathEach(v: View, root: int) {
    forall p, q {:trigger IsPath(v, root, p), IsPath(v, root, q)} ::
      IsPath(v, root, p) && IsPath(v, root, q) && End(p) == End(q) ==> p == q
  }

  ghost predicate Shallow(v: View, root: int) {
    forall p {:trigger IsPath(v, root, p)} :: IsPath(v, root, p) ==> |p| <= MAX_DEPTH + 1
  }

  ghost predicate Small(v: View, root: int) {
    forall s: set<int> {:trigger |s|} :: (forall pid <- s :: Reachable(v, root, pid)) ==> |s| <= MAX_NODES
  }

  /**
   What the walk is to recognise: everything reachable is readable and agrees about its parent,
   is reached one way only, and is within both bounds.
   */
  ghost predicate ProperTree(v: View, root: int) {
    AllSound(v, root) && OnePathEach(v, root) && Shallow(v, root) && Small(v, root)
  }

  // ---------------------------------------------------------------- the walk's progress

  ghost predicate Distinct(ps: seq<Path>) {
    forall i, j :: 0 <= i < j < |ps| ==> ps[i] != ps[j]
  }

  ghost predicate DistinctEnds(ps: seq<Path>) {
    forall i, j :: 0 <= i < j < |ps| ==> End(ps[i]) != End(ps[j])
  }

  ghost predicate AllPaths(v: View, root: int, ps: seq<Path>) {
    forall p <- ps :: IsPath(v, root, p)
  }

  /** Every path was visited, is pending, or continues a pending one. */
  ghost predicate Covered(v: View, root: int, visited: seq<Path>, pending: seq<Path>) {
    forall p {:trigger IsPath(v, root, p)} :: IsPath(v, root, p) ==> p in visited || Continues(p, pending)
  }

  ghost predicate Continues(p: Path, pending: seq<Path>) {
    exists k :: 0 < k <= |p| && p[..k] in pending
  }

  /** A child is found only from a visited parent, and visited later. */
  ghost predicate ParentsFirst(visited: seq<Path>, pending: seq<Path>) {
    && (forall p <- pending :: |p| > 1 ==> p[..|p| - 1] in visited)
    && (forall j :: 0 <= j < |visited| && |visited[j]| > 1 ==> visited[j][..|visited[j]| - 1] in visited[..j])
  }

  ghost predicate Walking(v: View, root: int, visited: seq<Path>, pending: seq<Path>) {
    && AllPaths(v, root, visited + pending) && Distinct(visited + pending)
    && Covered(v, root, visited, pending) && ParentsFirst(visited, pending)
  }

  function Extend(p: Path, children: seq<int>): (r: seq<Path>)
    ensures |r| == |children| && forall i :: 0 <= i < |r| ==> r[i] == p + [children[i]]
  {
    seq(|children|, i requires 0 <= i < |children| => p + [children[i]])
  }

  lemma StepPaths(v: View, root: int, visited: seq<Path>, pending: seq<Path>)
    requires AllPaths(v, root, visited + pending) && pending != [] && End(pending[0]) in v.children
    ensures pending[0] != []
    ensures
      AllPaths(v, root, visited + [pending[0]] + (pending[1..] + Extend(pending[0], v.children[End(pending[0])])))
  {
    var p := pending[0];
    var more := Extend(p, v.children[End(p)]);
    assert p in visited + pending;
    forall q | q in visited + [p] + (pending[1..] + more) ensures IsPath(v, root, q) {
      if q in more {
        var i :| 0 <= i < |more| && more[i] == q;
        assert IsPath(v, root, p);
        assert q == p + [v.children[End(p)][i]];
      } else {
        assert q in visited + pending;
      }
    }
  }

  lemma StepDistinct(v: View, root: int, visited: seq<Path>, pending: seq<Path>, children: seq<int>)
    requires Distinct(visited + pending) && ParentsFirst(visited, pending) && pending != [] && pending[0] != []
    requires Increasing(children)
    ensures Distinct(visited + [pending[0]] + (pending[1..] + Extend(pending[0], children)))
  {
    hide *;
    var p := pending[0];
    ExtendDistinct(p, children);
    NewChildren(visited, pending, p, children);
    JoinDistinct(visited + pending, Extend(p, children));
    Regrouped(visited, pending, Extend(p, children));
  }

  lemma Regrouped(visited: seq<Path>, pending: seq<Path>, more: seq<Path>)
    requires pending != []
    ensures visited + [pending[0]] + (pending[1..] + more) == visited + pending + more
  {
  }

  lemma NewChildren(visited: seq<Path>, pending: seq<Path>, p: Path, children: seq<int>)
    requires Distinct(visited + pending) && ParentsFirst(visited, pending) && p in pending && p != []
    ensures forall q <- Extend(p, children) :: q !in visited + pending
  {
    hide Distinct;
    hide ParentsFirst;
    var more := Extend(p, children);
    forall q <- more ensures q !in visited + pending {
      var i :| 0 <= i < |more| && more[i] == q;
      assert q[..|q| - 1] == p;
      NewChild(visited, pending, p, q);
    }
  }

  lemma ExtendDistinct(p: Path, children: seq<int>)
    requires Increasing(children)
    ensures Distinct(Extend(p, children))
  {
    var more := Extend(p, children);
    forall i, j | 0 <= i < j < |more| ensures more[i] != more[j] {
      assert End(more[i]) == children[i] && End(more[j]) == children[j];
    }
  }

  lemma JoinDistinct(a: seq<Path>, b: seq<Path>)
    requires Distinct(a) && Distinct(b) && forall q <- b :: q !in a
    ensures Distinct(a + b)
  {
    var s := a + b;
    forall i, j | 0 <= i < j < |s| ensures s[i] != s[j] {
      if i < |a| <= j {
        assert s[j] == b[j - |a|];
        assert s[i] in a;
      }
    }
  }

  /** A child of a path that is still pending was not seen before. */
  lemma NewChild(visited: seq<Path>, pending: seq<Path>, p: Path, q: Path)
    requires Distinct(visited + pending) && ParentsFirst(visited, pending) && p in pending
    requires p != [] && |q| == |p| + 1 && q[..|q| - 1] == p
    ensures q !in visited + pending
  {
    if q in visited {
      var j :| 0 <= j < |visited| && visited[j] == q;
      assert p in visited[..j];
      PendingIsNew(visited, pending, p);
    } else if q in pending {
      PendingIsNew(visited, pending, p);
    }
  }

  lemma PendingIsNew(visited: seq<Path>, pending: seq<Path>, p: Path)
    requires Distinct(visited + pending) && p in pending
    ensures p !in visited
  {
    var all := visited + pending;
    var k :| 0 <= k < |pending| && pending[k] == p;
    forall i | 0 <= i < |visited| ensures visited[i] != p {
      assert all[i] == visited[i] && all[|visited| + k] == p;
    }
  }

  lemma StepCovered(v: View, root: int, visited: seq<Path>, pending: seq<Path>)
    requires Covered(v, root, visited, pending) && pending != [] && pending[0] != [] && End(pending[0]) in v.children
    ensures
      Covered(v, root, visited + [pending[0]], pending[1..] + Extend(pending[0], v.children[End(pending[0])]))
  {
    var p := pending[0];
    var rest := pending[1..] + Extend(p, v.children[End(p)]);
    forall q | IsPath(v, root, q) ensures q in visited + [p] || Continues(q, rest) {
      if q !in visited {
        var k :| 0 < k <= |q| && q[..k] in pending;
        if q[..k] != p {
          var i :| 0 <= i < |pending| && pending[i] == q[..k];
          assert rest[i - 1] == q[..k];
        } else if k == |q| {
          assert q[..k] == q;
        } else {
          var c := q[k];
          assert End(p) == q[k - 1];
          assert c in v.children[End(p)];
          var i :| 0 <= i < |v.children[End(p)]| && v.children[End(p)][i] == c;
          assert q[..k + 1] == p + [c];
          assert rest[|pending| - 1 + i] == q[..k + 1];
        }
      }
    }
  }

  lemma StepParents(visited: seq<Path>, pending: seq<Path>, children: seq<int>)
    requires ParentsFirst(visited, pending) && pending != [] && pending[0] != []
    ensures ParentsFirst(visited + [pending[0]], pending[1..] + Extend(pending[0], children))
  {
    var p := pending[0];
    var more := Extend(p, children);
    forall q | q in pending[1..] + more && |q| > 1 ensures q[..|q| - 1] in visited + [p] {
      if q in more {
        var i :| 0 <= i < |more| && more[i] == q;
        assert q[..|q| - 1] == p;
      } else {
        assert q in pending;
      }
    }
    var after := visited + [p];
    forall j | 0 <= j < |after| && |after[j]| > 1 ensures after[j][..|after[j]| - 1] in after[..j] {
      if j < |visited| {
        assert after[..j] == visited[..j];
      } else {
        assert after[..j] == visited;
      }
    }
  }

  /** Visiting the first pending path keeps the walk's invariant. */
  lemma VisitKeeps(v: View, root: int, visited: seq<Path>, pending: seq<Path>)
    requires ValidView(v) && Walking(v, root, visited, pending) && pending != []
    ensures pending[0] != []
    ensures End(pending[0]) in v.children ==>
      Walking(v, root, visited + [pending[0]], pending[1..] + Extend(pending[0], v.children[End(pending[0])]))
  {
    assert pending[0] in visited + pending;
    if End(pending[0]) in v.children {
      var children := v.children[End(pending[0])];
      assert Increasing(children);
      hide ValidView;
      hide Covered;
      hide ParentsFirst;
      hide Distinct;
      hide AllPaths;
      hide IsPath;
      StepPaths(v, root, visited, pending);
      StepDistinct(v, root, visited, pending, children);
      StepCovered(v, root, visited, pending);
      StepParents(visited, pending, children);
    }
  }

  lemma WalkStarts(v: View, root: int)
    ensures Walking(v, root, [], [[root]])
  {
    forall p | IsPath(v, root, p) ensures Continues(p, [[root]]) {
      assert p[..1] == [root];
    }
  }

  // ---------------------------------------------------------------- counting

  ghost function Ends(ps: seq<Path>): set<int>
    decreases |ps|
  {
    if ps == [] then {}
    else Ends(ps[..|ps| - 1]) + {End(ps[|ps| - 1])}
  }

  lemma {:induction false} EndsMembers(ps: seq<Path>)
    ensures forall pid :: pid in Ends(ps) <==> exists p <- ps :: End(p) == pid
    decreases |ps|
  {
    if ps != [] {
      var n := |ps| - 1;
      EndsMembers(ps[..n]);
      assert ps == ps[..n] + [ps[n]];
    }
  }

  lemma {:induction false} EndsCount(ps: seq<Path>)
    requires DistinctEnds(ps)
    ensures |Ends(ps)| == |ps|
    decreases |ps|
  {
    if ps != [] {
      var n := |ps| - 1;
      EndsCount(ps[..n]);
      EndsMembers(ps[..n]);
      forall p | p in ps[..n] ensures End(p) != End(ps[n]) {
        var i :| 0 <= i < n && ps[i] == p;
      }
    }
  }

  lemma EndsAppend(ps: seq<Path>, p: Path)
    ensures Ends(ps + [p]) == Ends(ps) + {End(p)}
  {
    assert (ps + [p])[..|ps|] == ps;
  }

  /** In a proper tree distinct paths have distinct ends, and there are at most 256 of them. */
  lemma ProperCount(v: View, root: int, ps: seq<Path>)
    requires ProperTree(v, root) && AllPaths(v, root, ps) && Distinct(ps)
    ensures DistinctEnds(ps) && |ps| <= MAX_NODES
  {
    forall i, j | 0 <= i < j < |ps| ensures End(ps[i]) != End(ps[j]) {
      assert IsPath(v, root, ps[i]) && IsPath(v, root, ps[j]);
    }
    hide OnePathEach;
    hide AllSound;
    hide Shallow;
    EndsCount(ps);
    EndsMembers(ps);
    forall pid <- Ends(ps) ensures Reachable(v, root, pid) {
      var p :| p in ps && End(p) == pid;
      assert IsPath(v, root, p);
    }
  }

  /** More than 256 different paths are more than 256 processes, or two ways to one process. */
  lemma TooMany(v: View, root: int, ps: seq<Path>)
    requires AllPaths(v, root, ps) && Distinct(ps) && |ps| > MAX_NODES
    ensures !ProperTree(v, root)
  {
    if ProperTree(v, root) {
      ProperCount(v, root, ps);
    }
  }

  // ---------------------------------------------------------------- the loop

  datatype Node = Node(pid: int, parent: int, depth: nat)

  function NodeOf(p: Path): Node {
    Node(End(p), Parent(p), if p == [] then 0 else |p| - 1)
  }

  /** What the walk has established about the paths it visited. */
  ghost predicate Checked(v: View, visited: seq<Path>) {
    DistinctEnds(visited) && forall p <- visited :: Sound(v, p)
  }

  ghost predicate Bounded(ps: seq<Path>) {
    forall p <- ps :: |p| <= MAX_DEPTH + 1
  }

  /** The table and the child lists are those of the visited processes. */
  ghost predicate Tabled(
    v: View, visited: seq<Path>, seen: set<int>, table: map<int, Identity>, children: map<int, seq<int>>)
  {
    && seen == Ends(visited) && table.Keys == seen && children.Keys == seen
    && (forall pid <- table :: pid in v.identities && table[pid] == v.identities[pid])
    && (forall pid <- children :: pid in v.children && children[pid] == v.children[pid])
  }

  ghost predicate Queued(queue: seq<Node>, pending: seq<Path>) {
    |queue| == |pending| && forall i :: 0 <= i < |queue| ==> queue[i] == NodeOf(pending[i])
  }

  ghost predicate OnWalk(v: View, root: int, visited: seq<Path>, pending: seq<Path>) {
    && Walking(v, root, visited, pending) && Checked(v, visited) && Bounded(visited + pending)
    && |visited + pending| <= MAX_NODES
  }

  lemma Finished(v: View, root: int, visited: seq<Path>)
    requires OnWalk(v, root, visited, [])
    ensures ProperTree(v, root) && forall pid :: pid in Ends(visited) <==> Reachable(v, root, pid)
  {
    assert visited + [] == visited;
    WalkingOf(v, root, visited, []);
    EndsCount(visited);
    EveryPathVisited(v, root, visited);
    hide Walking;
    hide IsPath;
    hide Reachable;
    hide Small;
    hide OnePathEach;
    ReachedAreVisited(v, root, visited);
    VisitedOnce(v, root, visited);
    SmallEnough(v, root, Ends(visited));
  }

  lemma EveryPathVisited(v: View, root: int, visited: seq<Path>)
    requires Walking(v, root, visited, [])
    ensures forall p {:trigger IsPath(v, root, p)} :: IsPath(v, root, p) ==> p in visited
  {
    forall p | IsPath(v, root, p) ensures p in visited {
      assert p in visited || Continues(p, []);
    }
  }

  lemma ReachedAreVisited(v: View, root: int, visited: seq<Path>)
    requires Walking(v, root, visited, [])
    ensures forall pid :: pid in Ends(visited) <==> Reachable(v, root, pid)
  {
    EveryPathVisited(v, root, visited);
    EndsMembers(visited);
    hide IsPath;
    forall pid | pid in Ends(visited) ensures Reachable(v, root, pid) {
      var p :| p in visited && End(p) == pid;
      VisitedIsPath(v, root, visited, p);
    }
    hide Walking;
  }

  lemma VisitedOnce(v: View, root: int, visited: seq<Path>)
    requires DistinctEnds(visited)
    requires forall p {:trigger IsPath(v, root, p)} :: IsPath(v, root, p) ==> p in visited
    ensures OnePathEach(v, root)
  {
    hide IsPath;
    forall p, q | IsPath(v, root, p) && IsPath(v, root, q) && End(p) == End(q) ensures p == q {
      var i :| 0 <= i < |visited| && visited[i] == p;
      var j :| 0 <= j < |visited| && visited[j] == q;
    }
  }

  lemma SmallEnough(v: View, root: int, all: set<int>)
    requires |all| <= MAX_NODES && forall pid :: pid in all <==> Reachable(v, root, pid)
    ensures Small(v, root)
  {
    hide Reachable;
    forall s: set<int> | forall pid <- s :: Reachable(v, root, pid) ensures |s| <= MAX_NODES {
      forall pid <- s ensures pid in all {
        assert Reachable(v, root, pid);
      }
      SmallerSet(s, all);
    }
  }

  lemma VisitedIsPath(v: View, root: int, visited: seq<Path>, p: Path)
    requires Walking(v, root, visited, []) && p in visited
    ensures IsPath(v, root, p)
  {
    assert p in visited + [];
  }

  lemma SmallerSet(a: set<int>, b: set<int>)
    requires a <= b
    ensures |a| <= |b|
  {
    assert b == a + (b - a);
  }

  lemma HeadIsPath(v: View, root: int, visited: seq<Path>, pending: seq<Path>)
    requires Walking(v, root, visited, pending) && pending != []
    ensures IsPath(v, root, pending[0])
  {
    assert pending[0] in visited + pending;
  }

  lemma Unsound(v: View, root: int, p: Path)
    requires IsPath(v, root, p) && !Sound(v, p)
    ensures !ProperTree(v, root)
  {
  }

  lemma Duplicate(v: View, root: int, visited: seq<Path>, pending: seq<Path>)
    requires Walking(v, root, visited, pending) && pending != [] && End(pending[0]) in Ends(visited)
    ensures !ProperTree(v, root)
  {
    EndsMembers(visited);
    var p :| p in visited && End(p) == End(pending[0]);
    PendingIsNew(visited, pending, pending[0]);
    assert p in visited + pending && pending[0] in visited + pending;
    assert IsPath(v, root, p) && IsPath(v, root, pending[0]);
  }

  lemma TooDeep(v: View, root: int, p: Path)
    requires IsPath(v, root, p) && |p| == MAX_DEPTH + 1 && End(p) in v.children && v.children[End(p)] != []
    ensures !ProperTree(v, root)
  {
    var q := p + [v.children[End(p)][0]];
    assert IsPath(v, root, q);
  }

  lemma Overfull(v: View, root: int, visited: seq<Path>, pending: seq<Path>)
    requires Walking(v, root, visited, pending) && |visited + pending| > MAX_NODES
    ensures !ProperTree(v, root)
  {
    TooMany(v, root, visited + pending);
  }

  lemma CheckedMore(v: View, visited: seq<Path>, p: Path)
    requires Checked(v, visited) && Sound(v, p) && End(p) !in Ends(visited)
    ensures Checked(v, visited + [p])
  {
    EndsMembers(visited);
    hide Sound;
    var after := visited + [p];
    forall i, j | 0 <= i < j < |after| ensures End(after[i]) != End(after[j]) {
      assert after[i] in visited;
    }
  }

  lemma QueuedMore(queue: seq<Node>, pending: seq<Path>, children: seq<int>)
    requires Queued(queue, pending) && queue != [] && pending[0] != []
    ensures
      Queued(queue[1..] + Nodes(queue[0], children), pending[1..] + Extend(pending[0], children))
  {
    var p := pending[0];
    var more := Extend(p, children);
    forall i | 0 <= i < |more| ensures Nodes(queue[0], children)[i] == NodeOf(more[i]) {
      assert End(more[i]) == children[i] && Parent(more[i]) == End(p);
    }
  }

  function Nodes(parent: Node, children: seq<int>): (r: seq<Node>)
    ensures |r| == |children|
    ensures forall i :: 0 <= i < |r| ==> r[i] == Node(children[i], parent.pid, parent.depth + 1)
  {
    seq(|children|, i requires 0 <= i < |children| => Node(children[i], parent.pid, parent.depth + 1))
  }

  lemma BoundedMore(visited: seq<Path>, pending: seq<Path>, children: seq<int>)
    requires Bounded(visited + pending) && pending != [] && (children != [] ==> |pending[0]| <= MAX_DEPTH)
    ensures Bounded(visited + [pending[0]] + (pending[1..] + Extend(pending[0], children)))
  {
    var more := Extend(pending[0], children);
    forall p | p in visited + [pending[0]] + (pending[1..] + more) ensures |p| <= MAX_DEPTH + 1 {
      assert p in more || p in visited + pending;
    }
  }

  /** One step of the loop: the head was read, agrees with its parent and is within bounds. */
  lemma Visit(v: View, root: int, visited: seq<Path>, pending: seq<Path>, queue: seq<Node>)
    requires ValidView(v) && OnWalk(v, root, visited, pending) && Queued(queue, pending) && pending != []
    requires Sound(v, pending[0]) && End(pending[0]) !in Ends(visited)
    requires |pending[0]| <= MAX_DEPTH || v.children[End(pending[0])] == []
    ensures pending[0] != []
    ensures
      var children := v.children[End(pending[0])];
      var rest := pending[1..] + Extend(pending[0], children);
      && Queued(queue[1..] + Nodes(queue[0], children), rest)
      && (if |visited| + 1 + |rest| <= MAX_NODES then OnWalk(v, root, visited + [pending[0]], rest)
          else !ProperTree(v, root))
  {
    var children := v.children[End(pending[0])];
    VisitKeeps(v, root, visited, pending);
    BoundedMore(visited, pending, children);
    CheckedMore(v, visited, pending[0]);
    QueuedMore(queue, pending, children);
    var rest := pending[1..] + Extend(pending[0], children);
    hide Walking;
    hide Checked;
    hide Bounded;
    hide Queued;
    hide Sound;
    hide ProperTree;
    if |visited| + 1 + |rest| > MAX_NODES {
      Overfull(v, root, visited + [pending[0]], rest);
    }
  }

  lemma Begin(v: View, root: int)
    ensures OnWalk(v, root, [], [[root]]) && Queued([Node(root, 0, 0)], [[root]])
  {
    WalkStarts(v, root);
    hide Walking;
  }

  lemma HeadNode(v: View, root: int, visited: seq<Path>, pending: seq<Path>, queue: seq<Node>)
    requires OnWalk(v, root, visited, pending) && Queued(queue, pending) && queue != []
    ensures pending != [] && queue[0] == NodeOf(pending[0]) && IsPath(v, root, pending[0]) && pending[0] != []
    ensures |pending[0]| <= MAX_DEPTH + 1
    ensures Sound(v, pending[0]) <==>
      && queue[0].pid in v.identities && queue[0].pid in v.children
      && (queue[0].parent > 0 ==> v.identities[queue[0].pid].parent == queue[0].parent)
  {
    HeadIsPath(v, root, visited, pending);
    assert pending[0] in visited + pending;
  }

  lemma SeenCount(v: View, root: int, visited: seq<Path>, pending: seq<Path>)
    requires OnWalk(v, root, visited, pending)
    ensures |Ends(visited)| == |visited|
  {
    EndsCount(visited);
  }

  lemma WithinBound(v: View, root: int, visited: seq<Path>, pending: seq<Path>)
    requires OnWalk(v, root, visited, pending)
    ensures |visited| + |pending| <= MAX_NODES
  {
  }

  lemma WalkingOf(v: View, root: int, visited: seq<Path>, pending: seq<Path>)
    requires OnWalk(v, root, visited, pending)
    ensures Walking(v, root, visited, pending)
  {
  }

  lemma DuplicateHead(v: View, root: int, visited: seq<Path>, pending: seq<Path>)
    requires OnWalk(v, root, visited, pending) && pending != [] && End(pending[0]) in Ends(visited)
    ensures !ProperTree(v, root)
  {
    Duplicate(v, root, visited, pending);
  }

  lemma NodeFields(p: Path)
    ensures NodeOf(p).pid == End(p) && NodeOf(p).parent == Parent(p)
    ensures p != [] ==> NodeOf(p).depth == |p| - 1
    ensures MAX_DEPTH == 8 && MAX_NODES == 256
  {
  }

  lemma QueueLength(queue: seq<Node>, pending: seq<Path>)
    requires Queued(queue, pending)
    ensures |queue| == |pending|
  {
  }

  lemma TableStarts(v: View)
    ensures Tabled(v, [], {}, map[], map[])
  {
  }

  lemma SeenAre(
    v: View, visited: seq<Path>, seen: set<int>, table: map<int, Identity>, children: map<int, seq<int>>)
    requires Tabled(v, visited, seen, table, children)
    ensures seen == Ends(visited)
  {
  }

  lemma TabledMore(
    v: View, visited: seq<Path>, p: Path, seen: set<int>, table: map<int, Identity>, children: map<int, seq<int>>)
    requires Tabled(v, visited, seen, table, children) && Sound(v, p)
    ensures
      Tabled(v, visited + [p], seen + {End(p)}, table[End(p) := v.identities[End(p)]],
             children[End(p) := v.children[End(p)]])
  {
    EndsAppend(visited, p);
  }

  /** The walk ran out of queue. */
  lemma Complete(
    v: View, root: int, visited: seq<Path>, pending: seq<Path>, queue: seq<Node>,
    seen: set<int>, table: map<int, Identity>, children: map<int, seq<int>>)
    requires OnWalk(v, root, visited, pending) && Queued(queue, pending) && queue == []
    requires Tabled(v, visited, seen, table, children)
    ensures ProperTree(v, root)
    ensures forall pid :: pid in table <==> Reachable(v, root, pid)
    ensures forall pid <- table :: pid in v.identities && table[pid] == v.identities[pid]
    ensures children.Keys == table.Keys
    ensures forall pid <- children :: pid in v.children && children[pid] == v.children[pid]
  {
    assert pending == [];
    Finished(v, root, visited);
    hide OnWalk;
    hide ProperTree;
    hide Reachable;
  }

  datatype Walked = Cancelled | Table(table: map<int, Identity>, children: map<int, seq<int>>, complete: bool)

  /**
   The bounded breadth-first walk.  It reports complete exactly when the view shows a proper
   tree; the table then holds exactly the reachable processes.  `cancelled` tells whether the
   caller has given up by the k-th check.
   */
  method ProcessTable(v: View, root: int, cancelled: nat -> bool) returns (result: Walked)
    requires ValidView(v)
    ensures (forall k :: !cancelled(k)) ==> result.Table?
    ensures result.Table? ==> (result.complete <==> ProperTree(v, root))
    ensures result.Table? && result.complete ==>
      && (forall pid :: pid in result.table <==> Reachable(v, root, pid))
      && (forall pid <- result.table :: pid in v.identities && result.table[pid] == v.identities[pid])
      && result.children.Keys == result.table.Keys
      && (forall pid <- result.children :: pid in v.children && result.children[pid] == v.children[pid])
  {
    hide *;
    if cancelled(0) {
      return Cancelled;
    }
    var table: map<int, Identity> := map[];
    var children: map<int, seq<int>> := map[];
    var queue := [Node(root, 0, 0)];
    var seen: set<int> := {};
    ghost var visited: seq<Path> := [];
    ghost var pending: seq<Path> := [[root]];
    Begin(v, root);
    TableStarts(v);
    var checks := 1;
    while queue != []
      invariant OnWalk(v, root, visited, pending) && Queued(queue, pending)
      invariant Tabled(v, visited, seen, table, children) && |visited| <= 256
      decreases 256 - |visited|
    {
      if cancelled(checks) {
        return Cancelled;
      }
      checks := checks + 1;
      SeenCount(v, root, visited, pending);
      SeenAre(v, visited, seen, table, children);
      HeadNode(v, root, visited, pending, queue);
      QueueLength(queue, pending);
      NodeFields(pending[0]);
      if |seen| >= MAX_NODES {
        WalkingOf(v, root, visited, pending);
        Overfull(v, root, visited, pending);
        return Table(table, children, false);
      }
      var current := queue[0];
      ghost var p := pending[0];
      ghost var before := queue;
      queue := queue[1..];
      if current.pid in seen {
        DuplicateHead(v, root, visited, pending);
        return Table(table, children, false);
      }
      seen := seen + {current.pid};
      if current.pid !in v.identities || (current.parent > 0 && v.identities[current.pid].parent != current.parent) {
        Unsound(v, root, p);
        return Table(table, children, false);
      }
      ghost var table0, children0 := table, children;
      table := table[current.pid := v.identities[current.pid]];
      if current.pid !in v.children {
        Unsound(v, root, p);
        return Table(table, children, false);
      }
      var childPIDs := v.children[current.pid];
      children := children[current.pid := childPIDs];
      if current.depth >= MAX_DEPTH && |childPIDs| > 0 {
        TooDeep(v, root, p);
        return Table(table, children, false);
      }
      Visit(v, root, visited, pending, before);
      TabledMore(v, visited, p, seen - {current.pid}, table0, children0);
      WithinBound(v, root, visited, pending);
      assert seen - {current.pid} + {current.pid} == seen;
      if current.depth < MAX_DEPTH && |seen| + |queue| + |childPIDs| > MAX_NODES {
        return Table(table, children, false);
      }
      queue := queue + Nodes(current, childPIDs);
      visited, pending := visited + [p], pending[1..] + Extend(p, childPIDs);
    }
    Complete(v, root, visited, pending, queue, seen, table, children);
    return Table(table, children, true);
  }

  // ---------------------------------------------------------------- leaves before parents

  ghost predicate ListsOnce(v: View, root: int, out: seq<int>) {
    && (forall i, j :: 0 <= i < j < |out| ==> out[i] != out[j])
    && (forall pid :: pid in out <==> pid != root && Reachable(v, root, pid))
  }

  ghost predicate ChildOf(v: View, child: int, parent: int) {
    parent in v.children && child in v.children[parent]
  }

  ghost predicate ParentsBefore(v: View, out: seq<int>) {
    forall i, j :: 0 <= i < |out| && 0 <= j < |out| && ChildOf(v, out[i], out[j]) ==> j < i
  }

  ghost predicate LeavesBefore(v: View, out: seq<int>) {
    forall i, j :: 0 <= i < |out| && 0 <= j < |out| && ChildOf(v, out[i], out[j]) ==> i < j
  }

  /** The list holds the ends of everything visited after the root. */
  ghost predicate Collecting(
    v: View, root: int, visited: seq<Path>, pending: seq<Path>, queue: seq<int>, seen: set<int>, out: seq<int>)
  {
    && Walking(v, root, visited, pending) && visited != [] && visited[0] == [root]
    && |queue| == |pending| && (forall i :: 0 <= i < |queue| ==> queue[i] == End(pending[i]))
    && |out| == |visited| - 1 && (forall i :: 0 <= i < |out| ==> out[i] == End(visited[i + 1]))
    && (forall pid :: pid in seen <==> pid in out)
  }

  lemma CollectStarts(v: View, root: int)
    requires ValidView(v) && root in v.children
    ensures Collecting(v, root, [[root]], Extend([root], v.children[root]), v.children[root], {}, [])
  {
    WalkStarts(v, root);
    VisitKeeps(v, root, [], [[root]]);
    assert [] + [[root]] == [[root]];
    assert [[root]][1..] + Extend([root], v.children[root]) == Extend([root], v.children[root]);
    hide Walking;
    forall i | 0 <= i < |v.children[root]| ensures v.children[root][i] == End(Extend([root], v.children[root])[i]) {
    }
  }

  lemma CollectStep(
    v: View, root: int, visited: seq<Path>, pending: seq<Path>, queue: seq<int>, seen: set<int>, out: seq<int>)
    requires ValidView(v) && Collecting(v, root, visited, pending, queue, seen, out) && queue != []
    requires queue[0] in v.children
    ensures pending != [] && queue[0] == End(pending[0])
    ensures
      Collecting(v, root, visited + [pending[0]], pending[1..] + Extend(pending[0], v.children[queue[0]]),
                 queue[1..] + v.children[queue[0]], seen + {queue[0]}, out + [queue[0]])
  {
    VisitKeeps(v, root, visited, pending);
    hide Walking;
    var more := Extend(pending[0], v.children[queue[0]]);
    forall i | 0 <= i < |more| ensures v.children[queue[0]][i] == End(more[i]) {
    }
  }

  /** A process met twice has two paths. */
  lemma CollectTwice(
    v: View, root: int, visited: seq<Path>, pending: seq<Path>, queue: seq<int>, seen: set<int>, out: seq<int>)
    requires Collecting(v, root, visited, pending, queue, seen, out) && queue != [] && queue[0] in seen
    ensures !ProperTree(v, root)
  {
    var i :| 0 <= i < |out| && out[i] == queue[0];
    hide Walking;
    EndsMembers(visited);
    assert visited[i + 1] in visited;
    Duplicate(v, root, visited, pending);
  }

  lemma Collected(v: View, root: int, visited: seq<Path>, pending: seq<Path>, seen: set<int>, out: seq<int>)
    requires ProperTree(v, root) && Collecting(v, root, visited, pending, [], seen, out)
    ensures ListsOnce(v, root, out) && ParentsBefore(v, out)
  {
    assert pending == [] && visited + [] == visited;
    ProperCount(v, root, visited);
    ReachedAreVisited(v, root, visited);
    EndsMembers(visited);
    CollectedOrder(v, root, visited, out);
    hide Walking;
    hide ProperTree;
    hide Reachable;
    hide ParentsBefore;
    assert End(visited[0]) == root;
    forall pid ensures pid in out <==> pid != root && pid in Ends(visited) {
      if pid in out {
        var i :| 0 <= i < |out| && out[i] == pid;
        assert End(visited[i + 1]) == pid && visited[i + 1] in visited;
      }
      if pid != root && pid in Ends(visited) {
        var p :| p in visited && End(p) == pid;
        var i :| 0 <= i < |visited| && visited[i] == p;
        assert out[i - 1] == pid;
      }
    }
  }

  lemma CollectedOrder(v: View, root: int, visited: seq<Path>, out: seq<int>)
    requires ProperTree(v, root) && Walking(v, root, visited, []) && DistinctEnds(visited)
    requires |out| == |visited| - 1 && (forall i :: 0 <= i < |out| ==> out[i] == End(visited[i + 1]))
    ensures ParentsBefore(v, out)
  {
    forall i, j | 0 <= i < |out| && 0 <= j < |out| && ChildOf(v, out[i], out[j]) ensures j < i {
      OneParent(v, root, visited, i + 1, j + 1);
    }
  }

  lemma OneParent(v: View, root: int, visited: seq<Path>, i: nat, j: nat)
    requires ProperTree(v, root) && Walking(v, root, visited, []) && DistinctEnds(visited)
    requires i < |visited| && j < |visited| && ChildOf(v, End(visited[i]), End(visited[j]))
    ensures j < i
  {
    hide *;
    var p, q := visited[i], visited[j];
    VisitedIsPath(v, root, visited, p);
    VisitedIsPath(v, root, visited, q);
    ChildPath(v, root, p, q);
    PrefixVisited(v, root, visited, i, j);
  }

  /** In a proper tree the path of a child extends the path of its parent. */
  lemma ChildPath(v: View, root: int, p: Path, q: Path)
    requires ProperTree(v, root) && IsPath(v, root, p) && IsPath(v, root, q) && ChildOf(v, End(p), End(q))
    ensures p == q + [End(p)] && q != []
  {
    assert IsPath(v, root, q + [End(p)]);
  }

  lemma PrefixVisited(v: View, root: int, visited: seq<Path>, i: nat, j: nat)
    requires Walking(v, root, visited, []) && i < |visited| && j < |visited|
    requires visited[i] == visited[j] + [End(visited[i])] && visited[j] != []
    ensures j < i
  {
    var p, q := visited[i], visited[j];
    assert p[..|p| - 1] == q;
    assert q in visited[..i];
    var k :| 0 <= k < i && visited[k] == q;
    assert visited + [] == visited;
    hide ParentsFirst;
    hide AllPaths;
    hide Covered;
    assert k == j;
  }

  lemma ReversedOrder(v: View, root: int, out: seq<int>, back: seq<int>)
    requires ListsOnce(v, root, out) && ParentsBefore(v, out)
    requires |back| == |out| && forall i :: 0 <= i < |out| ==> back[i] == out[|out| - 1 - i]
    ensures ListsOnce(v, root, back) && LeavesBefore(v, back)
  {
    hide Reachable;
    hide ChildOf;
    forall pid ensures pid in back <==> pid in out {
      if pid in out {
        var i :| 0 <= i < |out| && out[i] == pid;
        assert back[|out| - 1 - i] == pid;
      }
    }
  }

  method ReverseInPlace(a: array<int>)
    modifies a
    ensures forall i :: 0 <= i < a.Length ==> a[i] == old(a[a.Length - 1 - i])
  {
    var left, right := 0, a.Length - 1;
    while left < right
      invariant 0 <= left <= a.Length && left + right == a.Length - 1 && left - 1 <= right
      invariant forall i :: 0 <= i < left || right < i < a.Length ==> a[i] == old(a[a.Length - 1 - i])
      invariant forall i :: left <= i <= right ==> a[i] == old(a[i])
    {
      a[left], a[right] := a[right], a[left];
      left, right := left + 1, right - 1;
    }
  }

  /** Every child list leads to processes whose own list is known. */
  ghost predicate Closed(v: View, children: map<int, seq<int>>) {
    forall pid <- children ::
      pid in v.children && children[pid] == v.children[pid] && forall c <- children[pid] :: c in children
  }

  /** The second breadth-first pass, over the recorded child lists. */
  method Collect(v: View, root: int, children: map<int, seq<int>>) returns (r: Result<seq<int>, string>)
    requires ValidView(v) && root in children && Closed(v, children)
    ensures r.Err? ==> !ProperTree(v, root)
    ensures r.Ok? && ProperTree(v, root) ==> ListsOnce(v, root, r.value) && ParentsBefore(v, r.value)
  {
    hide ProperTree;
    hide ListsOnce;
    hide ParentsBefore;
    hide Collecting;
    hide ValidView;
    hide Ends;
    var queue := children[root];
    var seen: set<int> := {};
    var out: seq<int> := [];
    ghost var visited, pending := [[root]], Extend([root], v.children[root]);
    CollectStarts(v, root);
    while queue != []
      invariant Collecting(v, root, visited, pending, queue, seen, out)
      invariant seen <= children.Keys && forall pid <- queue :: pid in children
      decreases |children.Keys - seen|
    {
      var pid := queue[0];
      if pid in seen {
        CollectTwice(v, root, visited, pending, queue, seen, out);
        return Err("process tree contains duplicate or cyclic edge");
      }
      CollectStep(v, root, visited, pending, queue, seen, out);
      visited, pending := visited + [pending[0]], pending[1..] + Extend(pending[0], v.children[pid]);
      queue := queue[1..] + children[pid];
      FewerLeft(children.Keys, seen, pid);
      seen := seen + {pid};
      out := out + [pid];
    }
    if ProperTree(v, root) {
      Collected(v, root, visited, pending, seen, out);
    }
    return Ok(out);
  }

  lemma FewerLeft(all: set<int>, seen: set<int>, pid: int)
    requires pid in all && pid !in seen
    ensures |all - (seen + {pid})| < |all - seen|
  {
    assert all - seen == all - (seen + {pid}) + {pid};
  }

  lemma TreeIsClosed(v: View, root: int, children: map<int, seq<int>>)
    requires ProperTree(v, root) && forall pid :: pid in children <==> Reachable(v, root, pid)
    requires forall pid <- children :: pid in v.children && children[pid] == v.children[pid]
    ensures root in children && Closed(v, children)
  {
    assert IsPath(v, root, [root]) && End([root]) == root;
    assert Reachable(v, root, root);
    forall pid, c | pid in children && c in children[pid] ensures c in children {
      var p :| IsPath(v, root, p) && End(p) == pid;
      assert IsPath(v, root, p + [c]) && End(p + [c]) == c;
      assert Reachable(v, root, c);
    }
  }

  /** All descendants, each once and before its parent; an error exactly when the tree is not proper. */
  method DescendantPIDs(v: View, root: int) returns (r: Result<seq<int>, string>)
    requires ValidView(v)
    ensures r.Ok? <==> ProperTree(v, root)
    ensures r.Ok? ==> ListsOnce(v, root, r.value) && LeavesBefore(v, r.value)
  {
    hide *;
    var walked := ProcessTable(v, root, _ => false);
    if !walked.complete {
      return Err("process tree observation incomplete");
    }
    TreeIsClosed(v, root, walked.children);
    var collected := Collect(v, root, walked.children);
    if collected.Err? {
      return collected;
    }
    var out := collected.value;
    var a := new int[|out|](i requires 0 <= i < |out| => out[i]);
    ReverseInPlace(a);
    ReversedOrder(v, root, out, a[..]);
    return Ok(a[..]);
  }
}
