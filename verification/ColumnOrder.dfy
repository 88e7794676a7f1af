/**
 Column ordering of restored terminals on one workspace (internal/resume/executor.go).

 A compositor "move column to index" action moves a whole column to an absolute index and
 shifts every column in between by one.  The executor repeats a descending pass over its
 targets until each one stands in its captured column, checking every observation against
 the state it predicted.

 The compositor is an `Environment`: a function of the whole action history, so it may
 answer anything at any time.  `Timely` singles out the environments that do precisely what
 the two predicted transitions say, each before the executor's patience runs out.
 */
module ColumnOrder {
  import opened Wrappers

  datatype Window = Window(
    id: int, pid: int, appId: string, workspace: string,
    column: Option<int>, row: Option<int>, focused: bool)

  type Windows = seq<Window>

  /** A restored window together with the column captured for it. */
  datatype Target = Target(window: int, column: int, row: Option<int>, occupied: bool)

  // ---------------------------------------------------------------- predicted transitions

  /** Where a column at `c` ends up when the column at `source` is moved to `destination`. */
  function Shift(source: int, destination: int, c: int): int {
    if c == source then destination
    else if source < destination && c > source && c <= destination then c - 1
    else if source > destination && c >= destination && c < source then c + 1
    else c
  }

  /** The inverse of a column move is the opposite move. */
  lemma ShiftInverse(s: int, d: int, c: int)
    ensures Shift(d, s, Shift(s, d, c)) == c
  {
  }

  /** A move keeps stacks together and keeps the relative order of all the other columns. */
  lemma ShiftOrder(s: int, d: int, c1: int, c2: int)
    ensures c1 == c2 <==> Shift(s, d, c1) == Shift(s, d, c2)
    ensures c1 != s && c2 != s ==> (c1 < c2 <==> Shift(s, d, c1) < Shift(s, d, c2))
  {
  }

  function Find(ws: Windows, id: int): (r: Option<Window>)
    ensures r.Some? ==> r.value in ws && r.value.id == id
  {
    if ws == [] then None
    else if ws[0].id == id then Some(ws[0])
    else Find(ws[1..], id)
  }

  function FindFocused(ws: Windows): Option<Window> {
    if ws == [] then None
    else if ws[0].focused then Some(ws[0])
    else FindFocused(ws[1..])
  }

  predicate AtColumn(ws: Windows, id: int, workspace: string, column: int) {
    var w := Find(ws, id);
    w.Some? && w.value.workspace == workspace && w.value.column == Some(column)
  }

  predicate AllAtColumns(ws: Windows, workspace: string, targets: seq<Target>) {
    forall t <- targets :: AtColumn(ws, t.window, workspace, t.column)
  }

  function FocusOn(ws: Windows, id: int): Windows {
    seq(|ws|, i requires 0 <= i < |ws| => ws[i].(focused := ws[i].id == id))
  }

  function MoveWindow(w: Window, source: int, destination: int): Window {
    if w.column.None? then w
    else w.(column := Some(Shift(source, destination, w.column.value)))
  }

  function MoveAll(ws: Windows, source: int, destination: int): Windows {
    seq(|ws|, i requires 0 <= i < |ws| => MoveWindow(ws[i], source, destination))
  }

  function ExpectedFocus(ws: Windows, id: int): Option<Windows> {
    if Find(ws, id).None? then None else Some(FocusOn(ws, id))
  }

  /** None is the source's error: the window lost focus or shows no column. */
  function ExpectedMove(ws: Windows, id: int, destination: int): Option<Windows> {
    var w := Find(ws, id);
    if w.None? || !w.value.focused || w.value.column.None? then None
    else Some(MoveAll(ws, w.value.column.value, destination))
  }

  lemma {:induction false} FindFocusOn(ws: Windows, id: int, other: int)
    ensures Find(FocusOn(ws, id), other)
         == match Find(ws, other)
            case None => None
            case Some(w) => Some(w.(focused := other == id))
  {
    if ws != [] {
      assert FocusOn(ws, id)[1..] == FocusOn(ws[1..], id);
      FindFocusOn(ws[1..], id, other);
    }
  }

  lemma {:induction false} FindMoveAll(ws: Windows, s: int, d: int, other: int)
    ensures Find(MoveAll(ws, s, d), other)
         == match Find(ws, other)
            case None => None
            case Some(w) => Some(MoveWindow(w, s, d))
  {
    if ws != [] {
      assert MoveAll(ws, s, d)[1..] == MoveAll(ws[1..], s, d);
      FindMoveAll(ws[1..], s, d, other);
    }
  }

  lemma {:induction false} FocusedAfterFocus(ws: Windows, id: int)
    requires Find(ws, id).Some?
    ensures FindFocused(FocusOn(ws, id)) == Some(Find(ws, id).value.(focused := true))
  {
    if ws[0].id != id {
      assert FocusOn(ws, id)[1..] == FocusOn(ws[1..], id);
      FocusedAfterFocus(ws[1..], id);
    }
  }

  /** Moving a focused column away and back restores the whole workspace. */
  lemma MoveRoundTrip(ws: Windows, id: int, d: int)
    requires ExpectedMove(ws, id, d).Some?
    ensures ExpectedMove(ExpectedMove(ws, id, d).value, id, Find(ws, id).value.column.value) == Some(ws)
  {
    var s := Find(ws, id).value.column.value;
    var moved := MoveAll(ws, s, d);
    FindMoveAll(ws, s, d, id);
    assert MoveAll(moved, d, s) == ws by {
      forall i | 0 <= i < |ws| ensures MoveAll(moved, d, s)[i] == ws[i] {
        if ws[i].column.Some? {
          ShiftInverse(s, d, ws[i].column.value);
        }
      }
    }
  }

  // ---------------------------------------------------------------- the arithmetic of passes

  type Columns = seq<int>

  ghost predicate Distinct(cs: Columns) {
    forall i, j :: 0 <= i < j < |cs| ==> cs[i] != cs[j]
  }

  ghost predicate Descending(ds: Columns) {
    forall i, j :: 0 <= i < j < |ds| ==> ds[i] > ds[j]
  }

  ghost predicate NotLeft(cs: Columns, ds: Columns, from: nat, to: nat)
    requires |cs| == |ds| && from <= to <= |cs|
  {
    forall j :: from <= j < to ==> cs[j] >= ds[j]
  }

  function ShiftColumns(cs: Columns, s: int, d: int): (r: Columns)
    ensures |r| == |cs| && forall j :: 0 <= j < |cs| ==> r[j] == Shift(s, d, cs[j])
  {
    seq(|cs|, j requires 0 <= j < |cs| => Shift(s, d, cs[j]))
  }

  /** Turn `i` of a pass on the bare column numbers: fix target `i` unless it already stands right. */
  function Turn(cs: Columns, ds: Columns, i: nat): (r: Columns)
    requires |cs| == |ds| && i < |cs|
    ensures |r| == |cs|
  {
    if cs[i] == ds[i] then cs else ShiftColumns(cs, cs[i], ds[i])
  }

  /**
   What holds before turn `i` of pass number `done`: columns are distinct, everything already
   passed in this pass is not left of its place, and the `done` lowest targets are in place.
   */
  ghost predicate PassInv(cs: Columns, ds: Columns, done: nat, i: nat) {
    && |cs| == |ds| && i <= |cs| && done < |cs|
    && Distinct(cs) && Descending(ds)
    && NotLeft(cs, ds, 0, i)
    && (done > 0 ==> NotLeft(cs, ds, 0, |cs|))
    && (forall j :: |cs| - done <= j < |cs| ==> cs[j] == ds[j])
    && (i > |cs| - 1 - done ==> cs[|cs| - 1 - done] == ds[|cs| - 1 - done])
  }

  lemma TurnKeepsPassInv(cs: Columns, ds: Columns, done: nat, i: nat)
    requires PassInv(cs, ds, done, i) && i < |cs| && |cs| == |ds|
    ensures PassInv(Turn(cs, ds, i), ds, done, i + 1)
    ensures i > |cs| - 1 - done ==> Turn(cs, ds, i) == cs
  {
    if cs[i] != ds[i] {
      var r := Turn(cs, ds, i);
      forall a, b | 0 <= a < b < |cs| ensures r[a] != r[b] {
        ShiftOrder(cs[i], ds[i], cs[a], cs[b]);
      }
    }
  }

  /** A finished pass has put one more of the lowest targets in place. */
  lemma PassDone(cs: Columns, ds: Columns, done: nat)
    requires PassInv(cs, ds, done, |cs|)
    ensures forall j :: |cs| - (done + 1) <= j < |cs| ==> cs[j] == ds[j]
    ensures done + 1 < |cs| ==> PassInv(cs, ds, done + 1, 0)
  {
  }

  /** The columns after turns i, i+1, ... of one pass. */
  function PassFrom(cs: Columns, ds: Columns, i: nat): (r: Columns)
    requires |cs| == |ds| && i <= |cs|
    ensures |r| == |cs|
    decreases |cs| - i
  {
    if i == |cs| then cs else PassFrom(Turn(cs, ds, i), ds, i + 1)
  }

  function MovesFrom(cs: Columns, ds: Columns, i: nat): nat
    requires |cs| == |ds| && i <= |cs|
    decreases |cs| - i
  {
    if i == |cs| then 0
    else (if cs[i] == ds[i] then 0 else 1) + MovesFrom(Turn(cs, ds, i), ds, i + 1)
  }

  function Passes(cs: Columns, ds: Columns, q: nat): (r: Columns)
    requires |cs| == |ds|
    ensures |r| == |cs|
  {
    if q == 0 then cs else PassFrom(Passes(cs, ds, q - 1), ds, 0)
  }

  function MovesOfPasses(cs: Columns, ds: Columns, q: nat): nat
    requires |cs| == |ds|
  {
    if q == 0 then 0 else MovesOfPasses(cs, ds, q - 1) + MovesFrom(Passes(cs, ds, q - 1), ds, 0)
  }

  lemma {:induction false} PassFromEnds(cs: Columns, ds: Columns, done: nat, i: nat)
    requires |cs| == |ds| && i <= |cs| && done < |cs| && PassInv(cs, ds, done, i)
    ensures PassInv(PassFrom(cs, ds, i), ds, done, |cs|)
    ensures MovesFrom(cs, ds, i) <= if i < |cs| - done then |cs| - done - i else 0
    decreases |cs| - i
  {
    hide PassInv;
    if i < |cs| {
      TurnKeepsPassInv(cs, ds, done, i);
      PassFromEnds(Turn(cs, ds, i), ds, done, i + 1);
    }
  }

  lemma {:induction false} SettledPass(cs: Columns, ds: Columns, i: nat)
    requires cs == ds && i <= |cs|
    ensures PassFrom(cs, ds, i) == cs && MovesFrom(cs, ds, i) == 0
    decreases |cs| - i
  {
    if i < |cs| {
      SettledPass(cs, ds, i + 1);
    }
  }

  /** The sum k + (k-1) + ... of the move budgets of the first q passes. */
  function Budget(k: nat, q: nat): nat {
    if q == 0 then 0 else Budget(k, q - 1) + (if q - 1 < k then k - (q - 1) else 0)
  }

  function Triangle(n: nat): nat {
    if n == 0 then 0 else n + Triangle(n - 1)
  }

  lemma {:induction false} TriangleClosed(n: nat)
    ensures 2 * Triangle(n) == n * (n + 1)
  {
    if n > 0 {
      TriangleClosed(n - 1);
    }
  }

  /** Passes over k targets never need more than k(k+1)/2 moves. */
  lemma {:induction false} BudgetBound(k: nat, q: nat)
    ensures Budget(k, q) + (if q <= k then Triangle(k - q) else 0) == Triangle(k)
  {
    if q > 0 {
      BudgetBound(k, q - 1);
    }
  }

  lemma PassStep(before: Columns, ds: Columns, done: nat)
    requires |before| == |ds| && PassInv(before, ds, done, 0)
    ensures done + 1 < |ds| ==> PassInv(PassFrom(before, ds, 0), ds, done + 1, 0)
    ensures done + 1 == |ds| ==> PassFrom(before, ds, 0) == ds
    ensures MovesFrom(before, ds, 0) <= |ds| - done
  {
    PassFromEnds(before, ds, done, 0);
    PassDone(PassFrom(before, ds, 0), ds, done);
  }

  /** Distinct columns and distinct destinations converge within as many passes as targets. */
  lemma {:induction false} PassesConverge(cs: Columns, ds: Columns, q: nat)
    requires |cs| == |ds| && Distinct(cs) && Descending(ds)
    ensures q < |cs| ==> PassInv(Passes(cs, ds, q), ds, q, 0)
    ensures q >= |cs| ==> Passes(cs, ds, q) == ds
    ensures MovesOfPasses(cs, ds, q) <= Budget(|cs|, q)
  {
    if q > 0 {
      PassesConverge(cs, ds, q - 1);
      if q - 1 < |cs| {
        PassStep(Passes(cs, ds, q - 1), ds, q - 1);
      } else {
        SettledPass(Passes(cs, ds, q - 1), ds, 0);
      }
    }
  }

  /** After q passes the q lowest destinations are filled, and every later pass leaves them so. */
  lemma LowestFixedForGood(cs: Columns, ds: Columns, q: nat, later: nat, j: nat)
    requires |cs| == |ds| && Distinct(cs) && Descending(ds)
    requires q <= later && j < |cs| && |cs| - q <= j
    ensures Passes(cs, ds, later)[j] == ds[j]
  {
    PassesConverge(cs, ds, later);
  }

  // ---------------------------------------------------------------- the compositor

  datatype Action = Observe | Focus(window: int) | MoveColumn(column: int) | Pause

  /**
   The outside world answers the last action of a history: an observation may fail or show
   anything, any other action may be refused.
   */
  datatype Environment = Environment(
    windows: seq<Action> -> Option<Windows>,
    accepts: seq<Action> -> bool)

  /** Focusing a window takes the focus from all others, also when it is on another workspace. */
  function Effect(ws: Windows, a: Action): Windows {
    match a
    case Focus(id) => FocusOn(ws, id)
    case MoveColumn(column) =>
      var w := FindFocused(ws);
      if w.Some? && w.value.column.Some? then MoveAll(ws, w.value.column.value, column) else ws
    case _ => ws
  }

  function World(init: Windows, history: seq<Action>): Windows {
    if history == [] then init
    else Effect(World(init, history[..|history| - 1]), history[|history| - 1])
  }

  predicate Acts(a: Action) { a.Focus? || a.MoveColumn? }

  /** How many more pauses it takes until the last action shows. */
  function Lag(delay: nat -> nat, h: seq<Action>): nat {
    if h == [] then 0
    else
      var past := h[..|h| - 1];
      match h[|h| - 1]
      case Observe => Lag(delay, past)
      case Pause => if Lag(delay, past) == 0 then 0 else Lag(delay, past) - 1
      case _ => delay(|past|)
  }

  function LastAct(h: seq<Action>): Option<Action> {
    if h == [] then None
    else if Acts(h[|h| - 1]) then Some(h[|h| - 1])
    else LastAct(h[..|h| - 1])
  }

  /** The world before the last action. */
  function Before(init: Windows, h: seq<Action>): Windows {
    if h == [] then init
    else if Acts(h[|h| - 1]) then World(init, h[..|h| - 1])
    else Before(init, h[..|h| - 1])
  }

  function Shown(init: Windows, delay: nat -> nat, h: seq<Action>): Windows {
    if Lag(delay, h) == 0 then World(init, h) else Before(init, h)
  }

  ghost predicate TimelyAnswer(env: Environment, init: Windows, delay: nat -> nat, h: seq<Action>) {
    env.windows(h) == Some(Shown(init, delay, h)) && env.accepts(h)
  }

  /**
   Nothing fails, nobody else acts, and the two actions do exactly what they are meant to.  What
   action number i does shows after `delay(i)` pauses, and no delay exceeds the executor's patience.
   */
  ghost predicate Timely(env: Environment, init: Windows, delay: nat -> nat, patience: nat) {
    (forall i :: delay(i) <= patience) && forall h :: TimelyAnswer(env, init, delay, h)
  }

  lemma {:induction false} NoLag(delay: nat -> nat, h: seq<Action>)
    requires forall i :: delay(i) == 0
    ensures Lag(delay, h) == 0
  {
    if h != [] {
      NoLag(delay, h[..|h| - 1]);
    }
  }

  /** A compositor that shows everything at once is timely, for any patience. */
  lemma PromptIsTimely(env: Environment, init: Windows, delay: nat -> nat, patience: nat)
    requires forall i :: delay(i) == 0
    requires forall h: seq<Action> :: env.windows(h) == Some(World(init, h)) && env.accepts(h)
    ensures Timely(env, init, delay, patience)
  {
    forall h ensures TimelyAnswer(env, init, delay, h) {
      NoLag(delay, h);
    }
  }

  lemma WorldStep(init: Windows, h: seq<Action>, a: Action)
    ensures World(init, h + [a]) == Effect(World(init, h), a)
  {
    assert (h + [a])[..|h|] == h;
  }

  lemma SceneStep(init: Windows, delay: nat -> nat, h: seq<Action>, a: Action)
    ensures LastAct(h + [a]) == if Acts(a) then Some(a) else LastAct(h)
    ensures Before(init, h + [a]) == if Acts(a) then World(init, h) else Before(init, h)
    ensures Lag(delay, h + [a]) ==
      if Acts(a) then delay(|h|) else if a == Pause && Lag(delay, h) > 0 then Lag(delay, h) - 1 else Lag(delay, h)
  {
    assert (h + [a])[..|h|] == h;
  }

  /** The world is what the last action made of the world before it. */
  lemma {:induction false} WorldIsEffect(init: Windows, h: seq<Action>)
    ensures World(init, h) ==
      if LastAct(h).Some? then Effect(Before(init, h), LastAct(h).value) else Before(init, h)
    ensures LastAct(h).None? ==> World(init, h) == init
    ensures LastAct(h).Some? ==> Acts(LastAct(h).value)
  {
    if h != [] && !Acts(h[|h| - 1]) {
      WorldIsEffect(init, h[..|h| - 1]);
    }
  }

  /** The action meets the window it is meant for. */
  predicate OnTarget(ws: Windows, a: Action) {
    match a
    case Focus(id) => Find(ws, id).Some?
    case MoveColumn(_) => FindFocused(ws).Some? && FindFocused(ws).value.column.Some?
    case _ => false
  }

  /** Everything done so far shows, or what does not show yet changes nothing. */
  ghost predicate Quiet(init: Windows, delay: nat -> nat, h: seq<Action>) {
    || Lag(delay, h) == 0
    || (LastAct(h).Some? && OnTarget(Before(init, h), LastAct(h).value) && World(init, h) == Before(init, h))
  }

  // ---------------------------------------------------------------- targets in a workspace

  function Destinations(ts: seq<Target>): (r: Columns)
    ensures |r| == |ts| && forall j :: 0 <= j < |ts| ==> r[j] == ts[j].column
  {
    seq(|ts|, j requires 0 <= j < |ts| => ts[j].column)
  }

  ghost predicate Visible(ws: Windows, workspace: string, ts: seq<Target>) {
    forall j :: 0 <= j < |ts| ==>
      var w := Find(ws, ts[j].window);
      w.Some? && w.value.workspace == workspace && w.value.column.Some?
  }

  ghost function CurrentColumns(ws: Windows, workspace: string, ts: seq<Target>): (r: Columns)
    requires Visible(ws, workspace, ts)
    ensures |r| == |ts|
    ensures forall j :: 0 <= j < |ts| ==> r[j] == Find(ws, ts[j].window).value.column.value
  {
    seq(|ts|, j requires 0 <= j < |ts| => Find(ws, ts[j].window).value.column.value)
  }

  /** Every target is observable on the workspace and no two of them share a column. */
  ghost predicate Movable(ws: Windows, workspace: string, ts: seq<Target>) {
    Visible(ws, workspace, ts) && Distinct(CurrentColumns(ws, workspace, ts))
  }

  lemma FocusColumns(ws: Windows, id: int, workspace: string, ts: seq<Target>)
    ensures Visible(FocusOn(ws, id), workspace, ts) <==> Visible(ws, workspace, ts)
    ensures Visible(ws, workspace, ts) ==>
      CurrentColumns(FocusOn(ws, id), workspace, ts) == CurrentColumns(ws, workspace, ts)
  {
    forall j | 0 <= j < |ts| ensures
      var a, b := Find(FocusOn(ws, id), ts[j].window), Find(ws, ts[j].window);
      (a.Some? <==> b.Some?) && (b.Some? ==> a.value == b.value.(focused := a.value.focused))
    {
      FindFocusOn(ws, id, ts[j].window);
    }
  }

  lemma MoveColumns(ws: Windows, s: int, d: int, workspace: string, ts: seq<Target>)
    ensures Visible(MoveAll(ws, s, d), workspace, ts) <==> Visible(ws, workspace, ts)
    ensures Visible(ws, workspace, ts) ==>
      CurrentColumns(MoveAll(ws, s, d), workspace, ts)
      == ShiftColumns(CurrentColumns(ws, workspace, ts), s, d)
  {
    forall j | 0 <= j < |ts| ensures
      var a, b := Find(MoveAll(ws, s, d), ts[j].window), Find(ws, ts[j].window);
      (a.Some? <==> b.Some?) && (b.Some? ==> a.value == MoveWindow(b.value, s, d))
    {
      FindMoveAll(ws, s, d, ts[j].window);
    }
  }

  lemma MovableKept(ws: Windows, a: Action, workspace: string, ts: seq<Target>)
    ensures Movable(Effect(ws, a), workspace, ts) <==> Movable(ws, workspace, ts)
  {
    match a
    case Focus(id) => FocusColumns(ws, id, workspace, ts);
    case MoveColumn(column) =>
      var w := FindFocused(ws);
      if w.Some? && w.value.column.Some? {
        var s := w.value.column.value;
        MoveColumns(ws, s, column, workspace, ts);
        if Visible(ws, workspace, ts) {
          var cs := CurrentColumns(ws, workspace, ts);
          forall i, j | 0 <= i < j < |cs|
            ensures cs[i] == cs[j] <==> ShiftColumns(cs, s, column)[i] == ShiftColumns(cs, s, column)[j]
          {
            ShiftOrder(s, column, cs[i], cs[j]);
          }
        }
      }
    case _ =>
  }

  /** No sequence of actions splits a stack or brings a lost window back. */
  lemma {:induction false} MovableForever(init: Windows, h: seq<Action>, workspace: string, ts: seq<Target>)
    ensures Movable(World(init, h), workspace, ts) <==> Movable(init, workspace, ts)
  {
    if h != [] {
      MovableForever(init, h[..|h| - 1], workspace, ts);
      MovableKept(World(init, h[..|h| - 1]), h[|h| - 1], workspace, ts);
    }
  }

  // ---------------------------------------------------------------- safety of issued moves

  /**
   Two equal observations just before action i showed the target it is for: a focus is for a target
   that is there, a move for one that is focused and is to go to that column.
   */
  ghost predicate ActJustified(env: Environment, h: seq<Action>, i: nat, a: Action, ts: seq<Target>)
    requires i <= |h|
  {
    && i > 1 && h[i - 1] == h[i - 2] == Observe
    && env.windows(h[..i - 1]) == env.windows(h[..i]) && env.windows(h[..i]).Some?
    && exists t <- ts ::
         && Find(env.windows(h[..i]).value, t.window).Some?
         && match a
            case Focus(id) => t.window == id
            case MoveColumn(c) => t.column == c && Find(env.windows(h[..i]).value, t.window).value.focused
            case _ => true
  }

  ghost predicate Justified(env: Environment, h: seq<Action>, ts: seq<Target>) {
    forall i :: 0 <= i < |h| && Acts(h[i]) ==> ActJustified(env, h, i, h[i], ts)
  }

  lemma JustifiedExtend(env: Environment, h: seq<Action>, a: Action, ts: seq<Target>)
    requires Justified(env, h, ts)
    requires Acts(a) ==> ActJustified(env, h, |h|, a, ts)
    ensures Justified(env, h + [a], ts)
  {
    var g := h + [a];
    forall i | 0 <= i < |g| && Acts(g[i]) ensures ActJustified(env, g, i, g[i], ts) {
      assert g[..i] == h[..i] && (i > 0 ==> g[..i - 1] == h[..i - 1]);
      if i < |h| {
        assert ActJustified(env, h, i, h[i], ts);
      }
    }
  }

  /** A move meets a target that really has the focus. */
  ghost predicate TrueMove(init: Windows, past: seq<Action>, a: Action, ts: seq<Target>) {
    a.MoveColumn? ==> exists t <- ts ::
      Find(World(init, past), t.window).Some? && Find(World(init, past), t.window).value.focused
  }

  ghost predicate TrueMoves(init: Windows, h: seq<Action>, ts: seq<Target>) {
    forall i :: 0 <= i < |h| ==> TrueMove(init, h[..i], h[i], ts)
  }

  lemma TrueMovesExtend(init: Windows, h: seq<Action>, a: Action, ts: seq<Target>)
    requires TrueMoves(init, h, ts) && TrueMove(init, h, a, ts)
    ensures TrueMoves(init, h + [a], ts)
  {
    var g := h + [a];
    forall i | 0 <= i < |g| ensures TrueMove(init, g[..i], g[i], ts) {
      assert g[..i] == h[..i];
      if i < |h| {
        assert TrueMove(init, h[..i], h[i], ts);
      } else {
        assert h[..i] == h;
      }
    }
  }

  function MoveCount(h: seq<Action>): nat {
    if h == [] then 0
    else MoveCount(h[..|h| - 1]) + (if h[|h| - 1].MoveColumn? then 1 else 0)
  }

  lemma MoveCountStep(h: seq<Action>, a: Action)
    ensures MoveCount(h + [a]) == MoveCount(h) + (if a.MoveColumn? then 1 else 0)
  {
    assert (h + [a])[..|h|] == h;
  }

  // ---------------------------------------------------------------- the executor

  datatype OrderError =
    | ObservationFailed | WorkspaceChanged | TargetAbsent | FocusRefused | NotFocusedOrPlaced
    | MoveRefused | UnexpectedMutation | TransitionTimeout
    | DidNotConverge | NoProgress | FinalMismatch

  datatype Outcome = Applied | Unsupported | Degraded(error: OrderError)

  // What the executor keeps: between two actions, and while it waits for one to show.

  ghost predicate AtRest(
    env: Environment, init: Windows, delay: nat -> nat, patience: nat, h: seq<Action>, ts: seq<Target>)
  {
    && Justified(env, h, ts)
    && (Timely(env, init, delay, patience) ==> Quiet(init, delay, h) && TrueMoves(init, h, ts))
  }

  ghost predicate Calm(
    env: Environment, init: Windows, delay: nat -> nat, patience: nat, h: seq<Action>, ts: seq<Target>, now: Windows)
  {
    && AtRest(env, init, delay, patience, h, ts)
    && (Timely(env, init, delay, patience) ==> World(init, h) == now)
  }

  ghost predicate Acting(
    env: Environment, init: Windows, delay: nat -> nat, patience: nat, h: seq<Action>, ts: seq<Target>,
    before: Windows, now: Windows)
  {
    && Justified(env, h, ts)
    && (Timely(env, init, delay, patience) ==>
          && World(init, h) == now && Before(init, h) == before && TrueMoves(init, h, ts)
          && LastAct(h).Some? && OnTarget(before, LastAct(h).value)
          && Lag(delay, h) <= patience - PausesSince(h))
  }

  /** Pauses since the last action. */
  function PausesSince(h: seq<Action>): nat {
    if h == [] then 0
    else
      match h[|h| - 1]
      case Observe => PausesSince(h[..|h| - 1])
      case Pause => PausesSince(h[..|h| - 1]) + 1
      case _ => 0
  }

  lemma PausesStep(h: seq<Action>, a: Action)
    ensures PausesSince(h + [a]) == if Acts(a) then 0 else PausesSince(h) + (if a == Pause then 1 else 0)
  {
    assert (h + [a])[..|h|] == h;
  }

  lemma Answers(env: Environment, init: Windows, delay: nat -> nat, patience: nat, h: seq<Action>, i: nat)
    requires Timely(env, init, delay, patience)
    ensures env.windows(h) == Some(Shown(init, delay, h)) && env.accepts(h) && delay(i) <= patience
  {
    assert TimelyAnswer(env, init, delay, h);
  }

  lemma CalmObserve(
    env: Environment, init: Windows, delay: nat -> nat, patience: nat, h: seq<Action>, ts: seq<Target>, now: Windows)
    requires Calm(env, init, delay, patience, h, ts, now)
    ensures Calm(env, init, delay, patience, h + [Observe], ts, now)
    ensures Timely(env, init, delay, patience) ==> env.windows(h + [Observe]) == Some(now)
  {
    JustifiedExtend(env, h, Observe, ts);
    WorldStep(init, h, Observe);
    SceneStep(init, delay, h, Observe);
    hide Justified;
    hide Lag;
    hide Before;
    hide LastAct;
    hide World;
    hide OnTarget;
    if Timely(env, init, delay, patience) {
      TrueMovesExtend(init, h, Observe, ts);
      Answers(env, init, delay, patience, h + [Observe], 0);
    }
    hide TrueMoves;
    hide Timely;
  }

  lemma ActStep(
    env: Environment, init: Windows, delay: nat -> nat, patience: nat, h: seq<Action>, ts: seq<Target>,
    now: Windows, a: Action)
    requires Calm(env, init, delay, patience, h, ts, now)
    requires Acts(a) && OnTarget(now, a) && ActJustified(env, h, |h|, a, ts)
    requires World(init, h) == now ==> TrueMove(init, h, a, ts)
    ensures Acting(env, init, delay, patience, h + [a], ts, now, Effect(now, a))
    ensures Timely(env, init, delay, patience) ==> env.accepts(h + [a])
  {
    JustifiedExtend(env, h, a, ts);
    WorldStep(init, h, a);
    SceneStep(init, delay, h, a);
    PausesStep(h, a);
    hide Justified;
    hide Lag;
    hide Before;
    hide LastAct;
    hide World;
    hide OnTarget;
    hide Effect;
    hide PausesSince;
    if Timely(env, init, delay, patience) {
      TrueMovesExtend(init, h, a, ts);
      Answers(env, init, delay, patience, h + [a], |h|);
    }
    hide TrueMoves;
    hide TrueMove;
    hide Timely;
  }

  lemma PollStep(
    env: Environment, init: Windows, delay: nat -> nat, patience: nat, h: seq<Action>, ts: seq<Target>,
    before: Windows, now: Windows)
    requires Acting(env, init, delay, patience, h, ts, before, now)
    ensures
      var g := h + [Observe];
      && Acting(env, init, delay, patience, g, ts, before, now)
      && PausesSince(g) == PausesSince(h)
      && (env.windows(g) == Some(now) ==> Calm(env, init, delay, patience, g, ts, now))
      && (Timely(env, init, delay, patience) ==>
            && env.windows(g) in {Some(before), Some(now)}
            && (env.windows(g) != Some(now) ==> Lag(delay, g) > 0 && PausesSince(g) < patience))
  {
    JustifiedExtend(env, h, Observe, ts);
    WorldStep(init, h, Observe);
    SceneStep(init, delay, h, Observe);
    PausesStep(h, Observe);
    hide Justified;
    hide Lag;
    hide Before;
    hide LastAct;
    hide World;
    hide OnTarget;
    hide PausesSince;
    if Timely(env, init, delay, patience) {
      TrueMovesExtend(init, h, Observe, ts);
      Answers(env, init, delay, patience, h + [Observe], 0);
    }
    hide TrueMoves;
    hide Timely;
  }

  lemma PauseStep(
    env: Environment, init: Windows, delay: nat -> nat, patience: nat, h: seq<Action>, ts: seq<Target>,
    before: Windows, now: Windows)
    requires Acting(env, init, delay, patience, h, ts, before, now)
    requires Timely(env, init, delay, patience) ==> Lag(delay, h) > 0
    ensures
      var g := h + [Pause];
      && Acting(env, init, delay, patience, g, ts, before, now)
      && PausesSince(g) == PausesSince(h) + 1
      && (Timely(env, init, delay, patience) ==> env.accepts(g))
  {
    JustifiedExtend(env, h, Pause, ts);
    WorldStep(init, h, Pause);
    SceneStep(init, delay, h, Pause);
    PausesStep(h, Pause);
    hide Justified;
    hide Lag;
    hide Before;
    hide LastAct;
    hide World;
    hide OnTarget;
    hide PausesSince;
    if Timely(env, init, delay, patience) {
      TrueMovesExtend(init, h, Pause, ts);
      Answers(env, init, delay, patience, h + [Pause], 0);
    }
    hide TrueMoves;
    hide Timely;
  }

  // What the history must show for each error.

  /** The last thing that happened is an observation, of these windows. */
  ghost predicate Seen(env: Environment, h: seq<Action>, now: Windows) {
    h != [] && h[|h| - 1] == Observe && env.windows(h) == Some(now)
  }

  /** The last two things that happened are observations, and they agree. */
  ghost predicate SeenTwice(env: Environment, h: seq<Action>) {
    && |h| > 1 && h[|h| - 1] == h[|h| - 2] == Observe
    && env.windows(h).Some? && env.windows(h[..|h| - 1]) == env.windows(h)
  }

  lemma SeenAgain(env: Environment, h: seq<Action>, now: Windows)
    requires Seen(env, h, now) && env.windows(h + [Observe]) == Some(now)
    ensures SeenTwice(env, h + [Observe])
  {
    assert (h + [Observe])[..|h|] == h;
  }

  /** Since action number n - 1 nothing but polling for `expected`: what was seen was still `before`. */
  ghost predicate Polling(env: Environment, h: seq<Action>, n: nat, before: Windows, expected: Windows) {
    n <= |h| && forall i :: n <= i < |h| ==> Polled(env, h, i, before, expected)
  }

  ghost predicate Polled(env: Environment, h: seq<Action>, i: nat, before: Windows, expected: Windows)
    requires i < |h|
  {
    || h[i] == Pause
    || (h[i] == Observe && before != expected && env.windows(h[..i + 1]) == Some(before))
    || (h[i] == Observe && env.windows(h[..i + 1]).None?)
  }

  ghost predicate SomeFailed(env: Environment, h: seq<Action>, n: nat) {
    exists i :: n <= i < |h| && h[i] == Observe && env.windows(h[..i + 1]).None?
  }

  /** How a wait for `expected` ends, after n actions: it was seen, something third was, or patience ran out. */
  ghost predicate Waited(
    env: Environment, patience: nat, h: seq<Action>, n: nat, before: Windows, expected: Windows,
    error: Option<OrderError>)
  {
    && n < |h|
    && match error
       case None => Seen(env, h, expected) && Polling(env, h[..|h| - 1], n, before, expected)
       case Some(UnexpectedMutation) =>
         && h[|h| - 1] == Observe && env.windows(h).Some? && env.windows(h).value !in {before, expected}
         && Polling(env, h[..|h| - 1], n, before, expected)
       case Some(e) =>
         && h[|h| - 1] == Pause && Polling(env, h, n, before, expected)
         && (!env.accepts(h) || PausesSince(h) == patience + 1)
         && (e == ObservationFailed || e == TransitionTimeout) && (e == ObservationFailed <==> SomeFailed(env, h, n))
  }

  /** Action number n is the last one; just before it the windows were observed. */
  ghost predicate ActedAt(env: Environment, h: seq<Action>, n: nat) {
    && 0 < n < |h| && Acts(h[n]) && h[n - 1] == Observe && env.windows(h[..n]).Some?
    && forall i :: n < i < |h| ==> !Acts(h[i])
  }

  /** The history ends with what justifies giving up with this error. */
  ghost predicate Blamed(env: Environment, patience: nat, h: seq<Action>, e: OrderError, ts: seq<Target>) {
    && h != []
    && var last := h[|h| - 1];
       match e
       case FocusRefused => last.Focus? && !env.accepts(h)
       case MoveRefused => last.MoveColumn? && !env.accepts(h)
       case ObservationFailed => exists n :: 0 < n <= |h| && h[n - 1] == Observe && env.windows(h[..n]).None?
       case WorkspaceChanged =>
         // between two observations, with nothing done in between
         && |h| > 1 && last == Observe && h[|h| - 2] == Observe && env.windows(h).Some?
         && env.windows(h[..|h| - 1]).Some? && env.windows(h) != env.windows(h[..|h| - 1])
       case UnexpectedMutation =>
         // neither what was seen before the last action, nor what it makes of that
         && last == Observe && env.windows(h).Some?
         && exists n: nat :: ActedAt(env, h, n)
              && env.windows(h) != env.windows(h[..n])
              && env.windows(h).value != Effect(env.windows(h[..n]).value, h[n])
       case TransitionTimeout =>
         // the last action did not show before the patience was over
         && last == Pause && (!env.accepts(h) || PausesSince(h) == patience + 1)
         && exists n: nat :: ActedAt(env, h, n)
              && forall i :: n < i < |h| && h[i] == Observe ==>
                   env.windows(h[..i + 1]) == env.windows(h[..n]) != Some(Effect(env.windows(h[..n]).value, h[n]))
       case TargetAbsent =>
         last == Observe && env.windows(h).Some? && exists t <- ts :: Find(env.windows(h).value, t.window).None?
       case NotFocusedOrPlaced =>
         && last == Observe && env.windows(h).Some?
         && exists t <- ts ::
              Find(env.windows(h).value, t.window).Some? && Find(env.windows(h).value, t.window).value.column.None?
       case DidNotConverge => MoveCount(h) > |ts|
       case NoProgress => false
       case FinalMismatch => false
  }

  lemma PollingMore(
    env: Environment, h: seq<Action>, n: nat, before: Windows, expected: Windows, a: Action)
    requires Polling(env, h, n, before, expected)
    requires
      || a == Pause
      || (a == Observe && (env.windows(h + [a]).None? || (before != expected && env.windows(h + [a]) == Some(before))))
    ensures Polling(env, h + [a], n, before, expected)
    ensures SomeFailed(env, h + [a], n) <==> SomeFailed(env, h, n) || (a == Observe && env.windows(h + [a]).None?)
  {
    var g := h + [a];
    assert g[..|h| + 1] == g;
    forall i | n <= i < |h| ensures g[i] == h[i] && g[..i + 1] == h[..i + 1] && Polled(env, g, i, before, expected) {
      assert Polled(env, h, i, before, expected);
    }
    if i :| n <= i < |h| && h[i] == Observe && env.windows(h[..i + 1]).None? {
      assert g[i] == Observe && env.windows(g[..i + 1]).None?;
    }
    if i :| n <= i < |g| && g[i] == Observe && env.windows(g[..i + 1]).None? {
      assert i < |h| ==> h[i] == Observe && env.windows(h[..i + 1]).None?;
    }
    assert a == Observe && env.windows(g).None? ==> g[|h|] == Observe && env.windows(g[..|h| + 1]).None?;
  }

  lemma PollingBegins(env: Environment, h: seq<Action>, before: Windows, expected: Windows)
    ensures Polling(env, h, |h|, before, expected) && !SomeFailed(env, h, |h|)
  {
  }

  /** A failed wait is to blame on what was seen, or not seen, since the action. */
  lemma WaitBlames(
    env: Environment, patience: nat, past: seq<Action>, a: Action, h: seq<Action>, before: Windows,
    e: OrderError, ts: seq<Target>)
    requires Seen(env, past, before) && (a.Focus? || a.MoveColumn?) && past + [a] <= h
    requires Waited(env, patience, h, |past| + 1, before, Effect(before, a), Some(e))
    ensures Blamed(env, patience, h, e, ts)
  {
    var n := |past|;
    assert h[n] == (past + [a])[n] == a && h[..n] == (past + [a])[..n] == past;
    assert h[n - 1] == h[..n][n - 1];
    forall i | n < i < |h| ensures !Acts(h[i]) {
      if i < |h| - 1 || e != UnexpectedMutation {
        WaitPolled(env, patience, h, n + 1, i, before, Effect(before, a), e);
      }
    }
    assert ActedAt(env, h, n);
    if e == ObservationFailed {
      var i :| n + 1 <= i < |h| && h[i] == Observe && env.windows(h[..i + 1]).None?;
      assert h[i + 1 - 1] == Observe;
    } else if e == TransitionTimeout {
      forall i | n < i < |h| && h[i] == Observe
        ensures env.windows(h[..i + 1]) == Some(before) != Some(Effect(before, a))
      {
        WaitPolled(env, patience, h, n + 1, i, before, Effect(before, a), e);
      }
    }
    hide Effect;
    hide Polling;
  }

  lemma WaitPolled(
    env: Environment, patience: nat, h: seq<Action>, n: nat, i: nat, before: Windows, expected: Windows, e: OrderError)
    requires Waited(env, patience, h, n, before, expected, Some(e)) && n <= i < |h|
    requires i < |h| - 1 || e != UnexpectedMutation
    ensures !Acts(h[i])
    ensures e == TransitionTimeout && h[i] == Observe ==>
      env.windows(h[..i + 1]) == Some(before) && before != expected
  {
    if e == UnexpectedMutation {
      assert Polled(env, h[..|h| - 1], i, before, expected);
    } else {
      assert Polled(env, h, i, before, expected);
    }
  }

  class Executor {
    const env: Environment
    const workspace: string
    /** How many pauses fit into the timeout of one wait. */
    const patience: nat
    var history: seq<Action>

    constructor (env: Environment, workspace: string, patience: nat)
      ensures this.env == env && this.workspace == workspace && this.patience == patience
      ensures history == []
    {
      this.env := env;
      this.workspace := workspace;
      this.patience := patience;
      history := [];
    }

    method ObserveWorkspace(
      ghost init: Windows, ghost delay: nat -> nat, ghost ts: seq<Target>, ghost now: Windows)
      returns (r: Option<Windows>)
      requires Calm(env, init, delay, patience, history, ts, now)
      modifies this`history
      ensures history == old(history) + [Observe] && r == env.windows(history)
      ensures Calm(env, init, delay, patience, history, ts, now)
      ensures MoveCount(history) == old(MoveCount(history))
      ensures Timely(env, init, delay, patience) ==> r == Some(now)
    {
      hide *;
      CalmObserve(env, init, delay, patience, history, ts, now);
      MoveCountStep(history, Observe);
      history := history + [Observe];
      r := env.windows(history);
    }

    method Perform(a: Action) returns (ok: bool)
      modifies this`history
      ensures history == old(history) + [a] && ok == env.accepts(history)
      ensures MoveCount(history) == old(MoveCount(history)) + (if a.MoveColumn? then 1 else 0)
    {
      MoveCountStep(history, a);
      history := history + [a];
      ok := env.accepts(history);
    }

    /**
     Polls until the predicted state shows; any third state is an unexpected mutation.  Whatever the
     environment does, the answer is what the observations and pauses since the action show; when it
     is timely, the predicted state shows in time.
     */
    method WaitForTransition(
      before: Windows, expected: Windows, ghost init: Windows, ghost delay: nat -> nat, ghost ts: seq<Target>)
      returns (error: Option<OrderError>)
      requires Acting(env, init, delay, patience, history, ts, before, expected) && PausesSince(history) == 0
      modifies this`history
      ensures old(history) <= history && MoveCount(history) == old(MoveCount(history))
      ensures Waited(env, patience, history, old(|history|), before, expected, error)
      ensures error.None? ==> Calm(env, init, delay, patience, history, ts, expected) && Seen(env, history, expected)
      ensures error.Some? ==> !Timely(env, init, delay, patience) && AtRest(env, init, delay, patience, history, ts)
    {
      hide *;
      ghost var past := history;
      PollingBegins(env, history, before, expected);
      var lastFailed := false;
      var pauses := 0;
      while true
        invariant pauses <= patience && past <= history
        invariant MoveCount(history) == MoveCount(past)
        invariant Acting(env, init, delay, patience, history, ts, before, expected)
        invariant PausesSince(history) == pauses
        invariant Polling(env, history, |past|, before, expected)
        invariant lastFailed <==> SomeFailed(env, history, |past|)
        decreases patience - pauses
      {
        PollStep(env, init, delay, patience, history, ts, before, expected);
        ghost var earlier := history;
        var _ := Perform(Observe);
        assert history[..|history| - 1] == earlier;
        var observed := env.windows(history);
        if observed.None? {
          lastFailed := true;
        } else if observed.value == expected {
          ExpectedSeen(env, patience, history, |past|, before, expected);
          return None;
        } else if observed.value != before {
          MutationSeen(env, patience, history, |past|, before, expected);
          GivesUp(env, init, delay, patience, history, ts, before, expected);
          return Some(UnexpectedMutation);
        }
        PollingMore(env, earlier, |past|, before, expected, Observe);
        PauseStep(env, init, delay, patience, history, ts, before, expected);
        PollingMore(env, history, |past|, before, expected, Pause);
        var slept := Perform(Pause);
        if !slept || pauses == patience {
          GivesUp(env, init, delay, patience, history, ts, before, expected);
          PatienceOver(env, patience, history, |past|, before, expected);
          return Some(if lastFailed then ObservationFailed else TransitionTimeout);
        }
        pauses := pauses + 1;
      }
    }

    /** Focuses one target and moves its column, verifying the workspace around both actions. */
    method MoveTarget(
      t: Target, expected: Windows, ghost init: Windows, ghost delay: nat -> nat, ghost ts: seq<Target>)
      returns (r: Result<Windows, OrderError>)
      requires t in ts && Seen(env, history, expected)
      requires Calm(env, init, delay, patience, history, ts, expected)
      modifies this`history
      ensures AtRest(env, init, delay, patience, history, ts)
      ensures r.Err? ==> Blamed(env, patience, history, r.error, ts) && r.error !in {DidNotConverge, NoProgress, FinalMismatch}
      ensures r.Ok? ==>
        && Find(expected, t.window).Some? && Find(expected, t.window).value.column.Some?
        && r.value == MoveAll(FocusOn(expected, t.window), Find(expected, t.window).value.column.value, t.column)
        && MoveCount(history) == old(MoveCount(history)) + 1
        && Calm(env, init, delay, patience, history, ts, r.value) && Seen(env, history, r.value)
      ensures Timely(env, init, delay, patience)
              && Find(expected, t.window).Some? && Find(expected, t.window).value.column.Some?
        ==> r.Ok?
    {
      hide *;
      RestsAt(env, init, delay, patience, history, ts, expected);
      ghost var seen := history;
      var before := ObserveWorkspace(init, delay, ts, expected);
      RestsAt(env, init, delay, patience, history, ts, expected);
      ObservationBlames(env, patience, seen, expected, ts);
      if before.None? { return Err(ObservationFailed); }
      if before.value != expected { return Err(WorkspaceChanged); }
      var afterFocus := ExpectedFocus(before.value, t.window);
      ExpectedFocusIs(expected, t);
      SeenNow(env, history, expected);
      if afterFocus.None? {
        AbsentBlames(env, patience, history, expected, t, ts);
        return Err(TargetAbsent);
      }
      FocusStep(env, init, delay, patience, seen, history, ts, expected, t);
      seen := history;
      var ok := Perform(Focus(t.window));
      ActingRests(env, init, delay, patience, history, ts, expected, afterFocus.value);
      RefusalBlames(env, patience, seen, Focus(t.window), ts);
      if !ok { return Err(FocusRefused); }
      var error := WaitForTransition(before.value, afterFocus.value, init, delay, ts);
      if error.Some? {
        WaitBlames(env, patience, seen, Focus(t.window), history, expected, error.value, ts);
        WaitErrors(env, patience, history, |seen| + 1, expected, afterFocus.value, error.value);
        return Err(error.value);
      }

      seen := history;
      var beforeMove := ObserveWorkspace(init, delay, ts, afterFocus.value);
      RestsAt(env, init, delay, patience, history, ts, afterFocus.value);
      ObservationBlames(env, patience, seen, afterFocus.value, ts);
      if beforeMove.None? { return Err(ObservationFailed); }
      if beforeMove.value != afterFocus.value { return Err(WorkspaceChanged); }
      var afterMove := ExpectedMove(beforeMove.value, t.window, t.column);
      ExpectedMoveIs(expected, t);
      SeenNow(env, history, afterFocus.value);
      if afterMove.None? {
        UnplacedBlames(env, patience, history, expected, t, ts);
        return Err(NotFocusedOrPlaced);
      }
      MoveStep(env, init, delay, patience, seen, history, ts, expected, t);
      seen := history;
      ok := Perform(MoveColumn(t.column));
      ActingRests(env, init, delay, patience, history, ts, afterFocus.value, afterMove.value);
      RefusalBlames(env, patience, seen, MoveColumn(t.column), ts);
      if !ok { return Err(MoveRefused); }
      error := WaitForTransition(beforeMove.value, afterMove.value, init, delay, ts);
      if error.Some? {
        WaitBlames(env, patience, seen, MoveColumn(t.column), history, afterFocus.value, error.value, ts);
        WaitErrors(env, patience, history, |seen| + 1, afterFocus.value, afterMove.value, error.value);
        return Err(error.value);
      }
      RestsAt(env, init, delay, patience, history, ts, afterMove.value);
      r := Ok(afterMove.value);
    }

    /** One descending pass: every target not in place is moved once. */
    method Pass(ts: seq<Target>, start: Windows, ghost init: Windows, ghost delay: nat -> nat, ghost good: bool)
      returns (r: Result<Windows, OrderError>, moved: bool)
      requires Seen(env, history, start) && Calm(env, init, delay, patience, history, ts, start)
      requires good ==> Timely(env, init, delay, patience) && World(init, history) == start && Visible(start, workspace, ts)
      modifies this`history
      ensures AtRest(env, init, delay, patience, history, ts)
      ensures r.Err? ==> Blamed(env, patience, history, r.error, ts) && r.error !in {DidNotConverge, NoProgress, FinalMismatch}
      ensures r.Ok? ==> Calm(env, init, delay, patience, history, ts, r.value) && Seen(env, history, r.value)
      ensures r.Ok? && moved ==> MoveCount(history) > old(MoveCount(history))
      ensures r.Ok? && !moved ==> r.value == start && AllAtColumns(start, workspace, ts)
      ensures good ==>
        r.Ok? && MidPass(init, history, r.value, workspace, ts, |ts|, PassGoal(start, workspace, ts, old(MoveCount(history))))
    {
      hide *;
      ghost var goal := PassGoal(start, workspace, ts, MoveCount(history));
      ghost var movesBefore := MoveCount(history);
      var current := start;
      moved := false;
      RestsAt(env, init, delay, patience, history, ts, current);
      if good {
        MidPassStart(init, history, start, workspace, ts);
      }
      for i := 0 to |ts|
        invariant AtRest(env, init, delay, patience, history, ts)
        invariant Calm(env, init, delay, patience, history, ts, current) && Seen(env, history, current)
        invariant MoveCount(history) >= movesBefore + (if moved then 1 else 0)
        invariant !moved ==> current == start
        invariant !moved ==> forall j :: 0 <= j < i ==> AtColumn(start, ts[j].window, workspace, ts[j].column)
        invariant good ==> MidPass(init, history, current, workspace, ts, i, goal)
      {
        if good {
          MidPassTurn(init, history, current, workspace, ts, i, goal);
        }
        if !AtColumn(current, ts[i].window, workspace, ts[i].column) {
          moved := true;
          ghost var before := history;
          var next := MoveTarget(ts[i], current, init, delay, ts);
          if next.Err? {
            return Err(next.error), moved;
          }
          if good {
            CalmWorld(env, init, delay, patience, history, ts, next.value);
            MidPassMove(init, before, history, current, next.value, workspace, ts, i, goal);
          }
          current := next.value;
        }
      }
      if !moved {
        EveryTargetPlaced(start, workspace, ts);
      }
      r := Ok(current);
    }

    /** A pass in the terms of OnTrack. */
    method TrackedPass(
      ts: seq<Target>, start: Windows, ghost init: Windows, ghost delay: nat -> nat, ghost good: bool,
      ghost cs: Columns, ghost pass: nat)
      returns (r: Result<Windows, OrderError>, moved: bool)
      requires Seen(env, history, start) && Calm(env, init, delay, patience, history, ts, start)
      requires good ==>
        Timely(env, init, delay, patience) && pass < |ts| && OnTrack(init, history, start, cs, workspace, ts, pass)
      modifies this`history
      ensures AtRest(env, init, delay, patience, history, ts)
      ensures r.Err? ==> Blamed(env, patience, history, r.error, ts) && r.error !in {DidNotConverge, NoProgress, FinalMismatch}
      ensures r.Ok? ==> Calm(env, init, delay, patience, history, ts, r.value) && Seen(env, history, r.value)
      ensures r.Ok? && moved ==> MoveCount(history) > old(MoveCount(history))
      ensures r.Ok? && !moved ==> r.value == start && AllAtColumns(start, workspace, ts)
      ensures good ==> r.Ok? && OnTrack(init, history, r.value, cs, workspace, ts, pass + 1)
    {
      hide *;
      ghost var before := history;
      if good {
        OnTrackVisible(init, before, start, cs, workspace, ts, pass);
      }
      r, moved := Pass(ts, start, init, delay, good);
      if good {
        PassTracked(init, before, history, start, r.value, cs, workspace, ts, pass);
      }
    }

    /** Repeats descending passes until every target stands in its predicted column. */
    method Converge(ts: seq<Target>, ghost init: Windows, ghost delay: nat -> nat)
      returns (r: Result<Windows, OrderError>)
      requires Descending(Destinations(ts)) && history == []
      modifies this`history
      ensures AtRest(env, init, delay, patience, history, ts)
      ensures r.Err? ==> Blamed(env, patience, history, r.error, ts) && r.error !in {NoProgress, FinalMismatch}
      ensures r.Ok? ==>
        && Calm(env, init, delay, patience, history, ts, r.value) && Seen(env, history, r.value)
        && AllAtColumns(r.value, workspace, ts)
      ensures Timely(env, init, delay, patience) && Movable(init, workspace, ts) ==>
        && r.Ok? && World(init, history) == r.value
        && MoveCount(history) <= Triangle(|ts|)
    {
      hide *;
      ghost var good := Timely(env, init, delay, patience) && Movable(init, workspace, ts);
      ghost var cs := StartColumns(init, workspace, ts);
      NothingDone(env, init, delay, patience, ts);
      var first := ObserveWorkspace(init, delay, ts, init);
      RestsAt(env, init, delay, patience, history, ts, init);
      FirstObservation(env, patience, history, ts);
      if first.None? { return Err(ObservationFailed); }
      var expected := first.value;
      FirstSeen(env, init, delay, patience, history, ts, expected);
      if good {
        CalmWorld(env, init, delay, patience, history, ts, expected);
        StartWorld(init);
        StartTracks(init, history, expected, workspace, ts);
      }
      var pass := 0;
      while !AllAtColumns(expected, workspace, ts)
        invariant pass <= |ts| + 1 && pass <= MoveCount(history)
        invariant AtRest(env, init, delay, patience, history, ts)
        invariant Calm(env, init, delay, patience, history, ts, expected) && Seen(env, history, expected)
        invariant good ==> pass <= |ts| && OnTrack(init, history, expected, cs, workspace, ts, pass)
        decreases |ts| + 1 - pass
      {
        if good && pass == |ts| {
          ConvergedInTime(init, history, expected, cs, workspace, ts, pass);
        }
        if pass > |ts| {
          MovesBlame(env, patience, history, expected, ts);
          return Err(DidNotConverge);
        }
        var next, moved := TrackedPass(ts, expected, init, delay, good, cs, pass);
        if next.Err? { return Err(next.error); }
        if !moved {
          assert false;
        }
        expected := next.value;
        pass := pass + 1;
      }
      if good {
        OnTrackVisible(init, history, expected, cs, workspace, ts, pass);
        MoveBudget(init, history, expected, cs, workspace, ts, pass);
      }
      r := Ok(expected);
    }

    /**
     Orders one group and verifies a last observation.  Whatever the environment does, `Applied`
     means that the last two observations agree and show every target in place, and an error that the history
     ends with what justifies it.  When the compositor is timely the group is applied if and only
     if the targets are visible in pairwise distinct columns, in at most 1 + 2 + ... + k column
     moves for k targets.
     */
    method OrderGroup(ts: seq<Target>, ghost init: Windows, ghost delay: nat -> nat) returns (outcome: Outcome)
      requires Descending(Destinations(ts)) && history == []
      modifies this`history
      ensures AtRest(env, init, delay, patience, history, ts)
      ensures !outcome.Unsupported? && outcome !in {Degraded(NoProgress), Degraded(FinalMismatch)}
      ensures outcome.Applied? ==>
        && SeenTwice(env, history)
        && env.windows(history).Some? && AllAtColumns(env.windows(history).value, workspace, ts)
      ensures outcome.Degraded? ==> Blamed(env, patience, history, outcome.error, ts)
      ensures Timely(env, init, delay, patience) ==> (outcome.Applied? <==> Movable(init, workspace, ts))
      ensures Timely(env, init, delay, patience) && Movable(init, workspace, ts) ==> MoveCount(history) <= Triangle(|ts|)
    {
      hide *;
      var ordered := Converge(ts, init, delay);
      if ordered.Err? { return Degraded(ordered.error); }
      ghost var seen := history;
      var last := ObserveWorkspace(init, delay, ts, ordered.value);
      RestsAt(env, init, delay, patience, history, ts, ordered.value);
      ObservationBlames(env, patience, seen, ordered.value, ts);
      if last.None? { return Degraded(ObservationFailed); }
      if last.value != ordered.value { return Degraded(WorkspaceChanged); }
      if !AllAtColumns(last.value, workspace, ts) {
        assert false;
      }
      SeenAgain(env, seen, ordered.value);
      if Timely(env, init, delay, patience) {
        CalmWorld(env, init, delay, patience, history, ts, ordered.value);
        AtColumnsMovable(last.value, workspace, ts);
        MovableForever(init, history, workspace, ts);
      }
      outcome := Applied;
    }
  }

  // Small steps of the executor's proof.

  lemma RestsAt(
    env: Environment, init: Windows, delay: nat -> nat, patience: nat, h: seq<Action>, ts: seq<Target>, now: Windows)
    requires Calm(env, init, delay, patience, h, ts, now)
    ensures AtRest(env, init, delay, patience, h, ts)
  {
    hide AtRest;
    hide Timely;
  }

  lemma CalmWorld(
    env: Environment, init: Windows, delay: nat -> nat, patience: nat, h: seq<Action>, ts: seq<Target>, now: Windows)
    requires Calm(env, init, delay, patience, h, ts, now) && Timely(env, init, delay, patience)
    ensures World(init, h) == now
  {
    hide AtRest;
    hide Timely;
    hide World;
  }

  lemma StartWorld(init: Windows)
    ensures World(init, []) == init
  {
  }

  /** A first observation, whatever it shows, is what the executor goes by. */
  lemma FirstSeen(
    env: Environment, init: Windows, delay: nat -> nat, patience: nat, h: seq<Action>, ts: seq<Target>, now: Windows)
    requires h == [] + [Observe] && env.windows(h) == Some(now) && Calm(env, init, delay, patience, h, ts, init)
    requires Timely(env, init, delay, patience) ==> now == init
    ensures Calm(env, init, delay, patience, h, ts, now) && Seen(env, h, now)
  {
    hide AtRest;
    hide Timely;
    hide World;
  }

  lemma SeenNow(env: Environment, h: seq<Action>, now: Windows)
    requires h != [] && h[|h| - 1] == Observe
    ensures env.windows(h) == Some(now) ==> Seen(env, h, now)
  {
  }

  lemma ExpectedSeen(
    env: Environment, patience: nat, h: seq<Action>, n: nat, before: Windows, expected: Windows)
    requires n < |h| && h[|h| - 1] == Observe && env.windows(h) == Some(expected)
    requires Polling(env, h[..|h| - 1], n, before, expected)
    ensures Waited(env, patience, h, n, before, expected, None) && Seen(env, h, expected)
  {
    hide Polling;
    hide SomeFailed;
    hide PausesSince;
  }

  lemma MutationSeen(
    env: Environment, patience: nat, h: seq<Action>, n: nat, before: Windows, expected: Windows)
    requires n < |h| && h[|h| - 1] == Observe && env.windows(h).Some? && env.windows(h).value !in {before, expected}
    requires Polling(env, h[..|h| - 1], n, before, expected)
    ensures Waited(env, patience, h, n, before, expected, Some(UnexpectedMutation))
  {
    hide Polling;
    hide SomeFailed;
    hide PausesSince;
  }

  lemma PatienceOver(
    env: Environment, patience: nat, h: seq<Action>, n: nat, before: Windows, expected: Windows)
    requires n < |h| && h[|h| - 1] == Pause && Polling(env, h, n, before, expected)
    requires !env.accepts(h) || PausesSince(h) == patience + 1
    ensures
      Waited(env, patience, h, n, before, expected,
             Some(if SomeFailed(env, h, n) then ObservationFailed else TransitionTimeout))
  {
    hide Polling;
    hide SomeFailed;
    hide PausesSince;
  }

  lemma GivesUp(
    env: Environment, init: Windows, delay: nat -> nat, patience: nat, h: seq<Action>, ts: seq<Target>,
    before: Windows, now: Windows)
    requires Acting(env, init, delay, patience, h, ts, before, now) && !Timely(env, init, delay, patience)
    ensures AtRest(env, init, delay, patience, h, ts)
  {
    hide Timely;
    hide Justified;
  }

  lemma ActingRests(
    env: Environment, init: Windows, delay: nat -> nat, patience: nat, h: seq<Action>, ts: seq<Target>,
    before: Windows, now: Windows)
    requires Acting(env, init, delay, patience, h, ts, before, now)
    requires Timely(env, init, delay, patience) ==> env.accepts(h)
    ensures !env.accepts(h) ==> AtRest(env, init, delay, patience, h, ts)
  {
    hide Timely;
    hide Justified;
  }

  lemma WaitErrors(
    env: Environment, patience: nat, h: seq<Action>, n: nat, before: Windows, expected: Windows, e: OrderError)
    requires Waited(env, patience, h, n, before, expected, Some(e))
    ensures e !in {DidNotConverge, NoProgress, FinalMismatch}
  {
    hide Polling;
    hide SomeFailed;
  }

  /** An observation that fails, or that shows something else than the one before, is to blame itself. */
  lemma ObservationBlames(env: Environment, patience: nat, h: seq<Action>, now: Windows, ts: seq<Target>)
    requires Seen(env, h, now)
    ensures
      var g := h + [Observe];
      && (env.windows(g).None? ==> Blamed(env, patience, g, ObservationFailed, ts))
      && (env.windows(g).Some? && env.windows(g).value != now ==> Blamed(env, patience, g, WorkspaceChanged, ts))
  {
    var g := h + [Observe];
    assert g[..|g|] == g && g[..|g| - 1] == h;
  }

  lemma FirstObservation(env: Environment, patience: nat, h: seq<Action>, ts: seq<Target>)
    requires h == [] + [Observe]
    ensures env.windows(h).None? ==> Blamed(env, patience, h, ObservationFailed, ts)
    ensures MoveCount(h) == 0
  {
    assert h[..|h|] == h;
    assert h[..0] == [];
  }

  lemma AbsentBlames(
    env: Environment, patience: nat, h: seq<Action>, now: Windows, t: Target, ts: seq<Target>)
    requires Seen(env, h, now) && t in ts && Find(now, t.window).None?
    ensures Blamed(env, patience, h, TargetAbsent, ts)
  {
  }

  lemma UnplacedBlames(
    env: Environment, patience: nat, h: seq<Action>, before: Windows, t: Target, ts: seq<Target>)
    requires Seen(env, h, FocusOn(before, t.window)) && t in ts
    requires Find(before, t.window).Some? && Find(before, t.window).value.column.None?
    ensures Blamed(env, patience, h, NotFocusedOrPlaced, ts)
  {
    FindFocusOn(before, t.window, t.window);
    hide FocusOn;
    hide Find;
  }

  lemma RefusalBlames(env: Environment, patience: nat, h: seq<Action>, a: Action, ts: seq<Target>)
    ensures !env.accepts(h + [a]) && a.Focus? ==> Blamed(env, patience, h + [a], FocusRefused, ts)
    ensures !env.accepts(h + [a]) && a.MoveColumn? ==> Blamed(env, patience, h + [a], MoveRefused, ts)
  {
  }

  lemma MovesBlame(env: Environment, patience: nat, h: seq<Action>, now: Windows, ts: seq<Target>)
    requires Seen(env, h, now) && MoveCount(h) > |ts|
    ensures Blamed(env, patience, h, DidNotConverge, ts)
  {
    hide MoveCount;
  }

  lemma ExpectedFocusIs(ws: Windows, t: Target)
    ensures
      ExpectedFocus(ws, t.window) == if Find(ws, t.window).None? then None else Some(FocusOn(ws, t.window))
    ensures Effect(ws, Focus(t.window)) == FocusOn(ws, t.window)
  {
    hide Find;
    hide FocusOn;
  }

  /** The move predicted from a window just focused. */
  lemma ExpectedMoveIs(ws: Windows, t: Target)
    requires Find(ws, t.window).Some?
    ensures
      var w := Find(ws, t.window).value;
      var focused := FocusOn(ws, t.window);
      && ExpectedMove(focused, t.window, t.column) ==
           (if w.column.None? then None else Some(MoveAll(focused, w.column.value, t.column)))
      && Find(focused, t.window) == FindFocused(focused) == Some(w.(focused := true))
      && (w.column.Some? ==> Effect(focused, MoveColumn(t.column)) == MoveAll(focused, w.column.value, t.column))
  {
    FindFocusOn(ws, t.window, t.window);
    FocusedAfterFocus(ws, t.window);
    hide Find;
    hide FindFocused;
    hide FocusOn;
    hide MoveAll;
  }

  lemma FocusStep(
    env: Environment, init: Windows, delay: nat -> nat, patience: nat, g: seq<Action>, h: seq<Action>, ts: seq<Target>,
    now: Windows, t: Target)
    requires Calm(env, init, delay, patience, h, ts, now) && Seen(env, h, now) && Seen(env, g, now) && h == g + [Observe]
    requires t in ts && Find(now, t.window).Some?
    ensures
      var k := h + [Focus(t.window)];
      && Acting(env, init, delay, patience, k, ts, now, FocusOn(now, t.window)) && PausesSince(k) == 0
      && (Timely(env, init, delay, patience) ==> env.accepts(k))
  {
    assert h[..|h|] == h && h[..|h| - 1] == g;
    assert ActJustified(env, h, |h|, Focus(t.window), ts);
    assert OnTarget(now, Focus(t.window));
    PausesStep(h, Focus(t.window));
    ExpectedFocusIs(now, t);
    hide Calm;
    hide Acting;
    hide Find;
    hide FocusOn;
    hide World;
    ActStep(env, init, delay, patience, h, ts, now, Focus(t.window));
  }

  lemma MoveStep(
    env: Environment, init: Windows, delay: nat -> nat, patience: nat, g: seq<Action>, h: seq<Action>, ts: seq<Target>,
    before: Windows, t: Target)
    requires
      var now := FocusOn(before, t.window);
      Calm(env, init, delay, patience, h, ts, now) && Seen(env, h, now) && Seen(env, g, now) && h == g + [Observe]
    requires t in ts && Find(before, t.window).Some? && Find(before, t.window).value.column.Some?
    ensures
      var now, k := FocusOn(before, t.window), h + [MoveColumn(t.column)];
      && Acting(env, init, delay, patience, k, ts, now,
                MoveAll(now, Find(before, t.window).value.column.value, t.column))
      && PausesSince(k) == 0
      && (Timely(env, init, delay, patience) ==> env.accepts(k))
  {
    var now := FocusOn(before, t.window);
    ExpectedMoveIs(before, t);
    hide FocusOn;
    hide MoveAll;
    hide FindFocused;
    hide Find;
    hide World;
    hide Effect;
    assert h[..|h|] == h && h[..|h| - 1] == g;
    assert ActJustified(env, h, |h|, MoveColumn(t.column), ts);
    assert OnTarget(now, MoveColumn(t.column));
    assert World(init, h) == now ==> TrueMove(init, h, MoveColumn(t.column), ts);
    PausesStep(h, MoveColumn(t.column));
    hide Calm;
    hide Acting;
    hide ActJustified;
    hide TrueMove;
    ActStep(env, init, delay, patience, h, ts, now, MoveColumn(t.column));
  }

  /** The columns and the number of moves a pass from `start` is predicted to end with. */
  ghost function PassGoal(start: Windows, workspace: string, ts: seq<Target>, moves: nat): (Columns, nat) {
    if Visible(start, workspace, ts) then
      var cs := CurrentColumns(start, workspace, ts);
      (PassFrom(cs, Destinations(ts), 0), moves + MovesFrom(cs, Destinations(ts), 0))
    else ([], moves)
  }

  /** Before turn i of a pass, the remaining turns lead to the predicted goal. */
  ghost predicate MidPass(
    init: Windows, history: seq<Action>, current: Windows,
    workspace: string, ts: seq<Target>, i: nat, goal: (Columns, nat))
  {
    && i <= |ts|
    && World(init, history) == current && Visible(current, workspace, ts)
    && PassFrom(CurrentColumns(current, workspace, ts), Destinations(ts), i) == goal.0
    && MoveCount(history) + MovesFrom(CurrentColumns(current, workspace, ts), Destinations(ts), i) == goal.1
  }

  lemma MidPassStart(init: Windows, history: seq<Action>, start: Windows, workspace: string, ts: seq<Target>)
    requires World(init, history) == start && Visible(start, workspace, ts)
    ensures MidPass(init, history, start, workspace, ts, 0, PassGoal(start, workspace, ts, MoveCount(history)))
  {
  }

  lemma MidPassTurn(
    init: Windows, history: seq<Action>, current: Windows,
    workspace: string, ts: seq<Target>, i: nat, goal: (Columns, nat))
    requires i < |ts| && MidPass(init, history, current, workspace, ts, i, goal)
    ensures World(init, history) == current
    ensures Find(current, ts[i].window).Some? && Find(current, ts[i].window).value.column.Some?
    ensures AtColumn(current, ts[i].window, workspace, ts[i].column) ==>
      MidPass(init, history, current, workspace, ts, i + 1, goal)
  {
    assert CurrentColumns(current, workspace, ts)[i] == Find(current, ts[i].window).value.column.value;
  }

  lemma MidPassMove(
    init: Windows, before: seq<Action>, after: seq<Action>, current: Windows, next: Windows,
    workspace: string, ts: seq<Target>, i: nat, goal: (Columns, nat))
    requires i < |ts| && MidPass(init, before, current, workspace, ts, i, goal)
    requires !AtColumn(current, ts[i].window, workspace, ts[i].column)
    requires World(init, after) == next && MoveCount(after) == MoveCount(before) + 1
    requires Find(current, ts[i].window).Some? && Find(current, ts[i].window).value.column.Some?
    requires next == MoveAll(FocusOn(current, ts[i].window), Find(current, ts[i].window).value.column.value, ts[i].column)
    ensures MidPass(init, after, next, workspace, ts, i + 1, goal)
  {
    var s := Find(current, ts[i].window).value.column.value;
    FocusColumns(current, ts[i].window, workspace, ts);
    MoveColumns(FocusOn(current, ts[i].window), s, ts[i].column, workspace, ts);
    var cs := CurrentColumns(current, workspace, ts);
    assert cs[i] == s && s != ts[i].column;
    hide FocusOn;
    hide MoveAll;
    hide Visible;
    hide World;
    assert CurrentColumns(next, workspace, ts) == Turn(cs, Destinations(ts), i);
  }

  lemma EveryTargetPlaced(ws: Windows, workspace: string, ts: seq<Target>)
    requires forall j :: 0 <= j < |ts| ==> AtColumn(ws, ts[j].window, workspace, ts[j].column)
    ensures AllAtColumns(ws, workspace, ts)
  {
  }

  lemma StartTracks(init: Windows, history: seq<Action>, expected: Windows, workspace: string, ts: seq<Target>)
    requires Movable(init, workspace, ts)
    requires World(init, history) == World(init, []) == expected && MoveCount(history) == 0
    ensures OnTrack(init, history, expected, StartColumns(init, workspace, ts), workspace, ts, 0)
  {
  }

  lemma NothingDone(env: Environment, init: Windows, delay: nat -> nat, patience: nat, ts: seq<Target>)
    ensures Calm(env, init, delay, patience, [], ts, init) && MoveCount([]) == 0
  {
  }

  ghost function StartColumns(init: Windows, workspace: string, ts: seq<Target>): Columns {
    if Visible(init, workspace, ts) then CurrentColumns(init, workspace, ts) else []
  }

  lemma OnTrackVisible(
    init: Windows, history: seq<Action>, expected: Windows, cs: Columns,
    workspace: string, ts: seq<Target>, pass: nat)
    requires OnTrack(init, history, expected, cs, workspace, ts, pass)
    ensures World(init, history) == expected && Visible(expected, workspace, ts)
  {
  }

  lemma PassTracked(
    init: Windows, before: seq<Action>, after: seq<Action>, start: Windows, end: Windows, cs: Columns,
    workspace: string, ts: seq<Target>, pass: nat)
    requires pass < |ts| && OnTrack(init, before, start, cs, workspace, ts, pass)
    requires MidPass(init, after, end, workspace, ts, |ts|, PassGoal(start, workspace, ts, MoveCount(before)))
    ensures OnTrack(init, after, end, cs, workspace, ts, pass + 1)
  {
  }

  /** The executor's prediction after `pass` passes under a timely compositor. */
  ghost predicate OnTrack(
    init: Windows, history: seq<Action>, expected: Windows, cs: Columns,
    workspace: string, ts: seq<Target>, pass: nat)
  {
    && |cs| == |ts| && Distinct(cs) && pass <= |ts|
    && World(init, history) == expected && Visible(expected, workspace, ts)
    && CurrentColumns(expected, workspace, ts) == Passes(cs, Destinations(ts), pass)
    && MoveCount(history) == MovesOfPasses(cs, Destinations(ts), pass)
  }

  lemma ConvergedInTime(
    init: Windows, history: seq<Action>, expected: Windows, cs: Columns,
    workspace: string, ts: seq<Target>, pass: nat)
    requires OnTrack(init, history, expected, cs, workspace, ts, pass)
    requires Descending(Destinations(ts)) && pass == |ts|
    ensures AllAtColumns(expected, workspace, ts)
  {
    PassesConverge(cs, Destinations(ts), pass);
    forall j | 0 <= j < |ts| ensures AtColumn(expected, ts[j].window, workspace, ts[j].column) {
      assert CurrentColumns(expected, workspace, ts)[j] == Destinations(ts)[j];
    }
  }

  lemma MoveBudget(
    init: Windows, history: seq<Action>, expected: Windows, cs: Columns,
    workspace: string, ts: seq<Target>, pass: nat)
    requires OnTrack(init, history, expected, cs, workspace, ts, pass)
    requires Descending(Destinations(ts))
    ensures MoveCount(history) <= Triangle(|ts|)
  {
    PassesConverge(cs, Destinations(ts), pass);
    BudgetBound(|ts|, pass);
  }

  lemma AtColumnsMovable(ws: Windows, workspace: string, ts: seq<Target>)
    requires Descending(Destinations(ts)) && AllAtColumns(ws, workspace, ts)
    ensures Movable(ws, workspace, ts)
  {
    assert forall j :: 0 <= j < |ts| ==> AtColumn(ws, ts[j].window, workspace, ts[j].column);
    var cs := CurrentColumns(ws, workspace, ts);
    assert cs == Destinations(ts);
  }

  // ---------------------------------------------------------------- a whole workspace

  function InsertByColumn(t: Target, ts: seq<Target>): (r: seq<Target>)
    ensures multiset(r) == multiset(ts) + multiset{t}
  {
    if ts == [] || t.column > ts[0].column then
      [t] + ts
    else
      assert ts == [ts[0]] + ts[1..];
      [ts[0]] + InsertByColumn(t, ts[1..])
  }

  /** Highest captured column first. */
  function SortDescending(ts: seq<Target>): (r: seq<Target>)
    ensures multiset(r) == multiset(ts)
  {
    if ts == [] then []
    else
      assert ts == [ts[0]] + ts[1..];
      InsertByColumn(ts[0], SortDescending(ts[1..]))
  }

  ghost predicate WeaklyDescending(ts: seq<Target>) {
    forall i, j :: 0 <= i < j < |ts| ==> ts[i].column >= ts[j].column
  }

  lemma {:induction false} InsertKeepsOrder(t: Target, ts: seq<Target>)
    requires WeaklyDescending(ts)
    ensures WeaklyDescending(InsertByColumn(t, ts))
  {
    if ts != [] && t.column <= ts[0].column {
      InsertKeepsOrder(t, ts[1..]);
      var r := InsertByColumn(t, ts[1..]);
      forall x | x in r ensures x.column <= ts[0].column {
        assert x in multiset(r);
        assert x == t || x in ts[1..];
      }
    }
  }

  lemma {:induction false} SortedDescending(ts: seq<Target>)
    ensures WeaklyDescending(SortDescending(ts))
  {
    if ts != [] {
      SortedDescending(ts[1..]);
      InsertKeepsOrder(ts[0], SortDescending(ts[1..]));
    }
  }

  /** The captured layout needs stacking actions: a row below the first, or a shared column. */
  ghost predicate Stacked(ts: seq<Target>) {
    || (exists t <- ts :: t.occupied || (t.row.Some? && t.row.value > 1))
    || !DistinctDestinations(ts)
  }

  ghost predicate DistinctDestinations(ts: seq<Target>) {
    forall i, j :: 0 <= i < j < |ts| ==> ts[i].column != ts[j].column
  }

  method StackedReason(ts: seq<Target>) returns (stacked: bool)
    ensures stacked <==> Stacked(ts)
  {
    var columns: set<int> := {};
    for i := 0 to |ts|
      invariant forall c :: c in columns <==> exists j :: 0 <= j < i && ts[j].column == c
      invariant forall j :: 0 <= j < i ==> !ts[j].occupied && (ts[j].row.None? || ts[j].row.value <= 1)
      invariant forall a, b :: 0 <= a < b < i ==> ts[a].column != ts[b].column
    {
      if ts[i].occupied || (ts[i].row.Some? && ts[i].row.value > 1) {
        return true;
      }
      if ts[i].column in columns {
        return true;
      }
      columns := columns + {ts[i].column};
    }
    stacked := false;
  }

  function Elements(ts: seq<Target>): (r: set<Target>)
    ensures forall t :: t in r <==> t in ts
  {
    set t | t in ts
  }

  /** Movable over the set of targets, whatever their order. */
  ghost predicate MovableSet(ws: Windows, workspace: string, ts: set<Target>) {
    && (forall t <- ts ::
          var w := Find(ws, t.window);
          w.Some? && w.value.workspace == workspace && w.value.column.Some?)
    && (forall t, u :: t in ts && u in ts && t != u ==>
          Find(ws, t.window).value.column != Find(ws, u.window).value.column)
  }

  lemma MovableAsSet(ws: Windows, workspace: string, ts: seq<Target>)
    requires DistinctDestinations(ts)
    ensures Movable(ws, workspace, ts) <==> MovableSet(ws, workspace, Elements(ts))
  {
    var s := Elements(ts);
    assert forall j :: 0 <= j < |ts| ==> ts[j] in s;
    if Movable(ws, workspace, ts) {
      var cs := CurrentColumns(ws, workspace, ts);
      forall t, u | t in s && u in s && t != u
        ensures Find(ws, t.window).value.column != Find(ws, u.window).value.column
      {
        var i :| 0 <= i < |ts| && ts[i] == t;
        var j :| 0 <= j < |ts| && ts[j] == u;
        assert if i < j then cs[i] != cs[j] else cs[j] != cs[i];
      }
    }
  }

  lemma DistinctAfterSort(ts: seq<Target>)
    requires DistinctDestinations(ts)
    ensures Descending(Destinations(SortDescending(ts)))
  {
    SortedDescending(ts);
    var r := SortDescending(ts);
    forall i, j | 0 <= i < j < |r| ensures r[i].column != r[j].column {
      if r[i].column == r[j].column {
        assert r[i] in multiset(r) && r[j] in multiset(r);
        var a :| 0 <= a < |ts| && ts[a] == r[i];
        var b :| 0 <= b < |ts| && ts[b] == r[j];
        assert a == b;
        OnceInSequence(ts, a);
        TwiceInSequence(r, i, j);
        assert false;
      }
    }
  }

  lemma OnceInSequence(ts: seq<Target>, a: nat)
    requires DistinctDestinations(ts) && a < |ts|
    ensures multiset(ts)[ts[a]] == 1
  {
    assert ts == ts[..a] + [ts[a]] + ts[a + 1..];
    assert ts[a] !in ts[..a] && ts[a] !in ts[a + 1..];
  }

  lemma TwiceInSequence(ts: seq<Target>, i: nat, j: nat)
    requires i < j < |ts| && ts[i] == ts[j]
    ensures multiset(ts)[ts[i]] >= 2
  {
    assert ts == ts[..i] + [ts[i]] + ts[i + 1..j] + [ts[j]] + ts[j + 1..];
  }

  lemma GroupMovable(ws: Windows, workspace: string, ts: seq<Target>)
    requires DistinctDestinations(ts)
    ensures Movable(ws, workspace, SortDescending(ts)) <==> MovableSet(ws, workspace, Elements(ts))
  {
    var group := SortDescending(ts);
    assert DistinctDestinations(group) by {
      DistinctAfterSort(ts);
      assert forall i, j :: 0 <= i < j < |group| ==> Destinations(group)[i] > Destinations(group)[j];
    }
    SortSameSet(ts);
    MovableAsSet(ws, workspace, group);
  }

  lemma SortSameLength(ts: seq<Target>)
    ensures |SortDescending(ts)| == |ts|
  {
    assert |SortDescending(ts)| == |multiset(SortDescending(ts))|;
    assert |ts| == |multiset(ts)|;
  }

  lemma SortSameSet(ts: seq<Target>)
    ensures Elements(SortDescending(ts)) == Elements(ts)
  {
    var r := SortDescending(ts);
    forall t ensures t in r <==> t in ts {
      assert t in multiset(r) <==> t in multiset(ts);
    }
  }

  /**
   Orders the targets of one workspace.  Stacked captures are refused before anything is touched.
   Whatever the environment does, every action is justified by two equal observations just before it,
   `Applied` by the last two observations and an error by the end of the history.  Under a timely
   compositor the layout is applied if and only if the targets are observed in pairwise distinct
   columns.
   */
  method OrderWorkspace(
    env: Environment, workspace: string, patience: nat, ts: seq<Target>,
    ghost init: Windows, ghost delay: nat -> nat)
    returns (outcome: Outcome, history: seq<Action>)
    ensures outcome.Unsupported? <==> Stacked(ts)
    ensures outcome.Unsupported? ==> history == []
    ensures outcome !in {Degraded(NoProgress), Degraded(FinalMismatch)}
    ensures AtRest(env, init, delay, patience, history, ts)
    ensures outcome.Applied? ==>
      && SeenTwice(env, history)
      && env.windows(history).Some? && AllAtColumns(env.windows(history).value, workspace, ts)
    ensures outcome.Degraded? ==> Blamed(env, patience, history, outcome.error, ts)
    ensures Timely(env, init, delay, patience) ==>
      (outcome.Applied? <==> !Stacked(ts) && MovableSet(init, workspace, Elements(ts)))
    ensures Timely(env, init, delay, patience) && outcome.Applied? ==> MoveCount(history) <= Triangle(|ts|)
  {
    hide *;
    var group := SortDescending(ts);
    SortSameSet(ts);
    NothingDone(env, init, delay, patience, ts);
    RestsAt(env, init, delay, patience, [], ts, init);
    var stacked := StackedReason(ts);
    if stacked {
      return Unsupported, [];
    }
    NotStacked(ts);
    DistinctAfterSort(ts);
    var executor := new Executor(env, workspace, patience);
    outcome := executor.OrderGroup(group, init, delay);
    history := executor.history;
    SameTargetsRest(env, init, delay, patience, history, group, ts);
    if outcome.Applied? {
      SameTargetsPlaced(env.windows(history).value, workspace, group, ts);
    } else {
      SortSameLength(ts);
      SameTargetsBlamed(env, patience, history, outcome.error, group, ts);
    }
    GroupMovable(init, workspace, ts);
    SortSameLength(ts);
  }

  lemma NotStacked(ts: seq<Target>)
    requires !Stacked(ts)
    ensures DistinctDestinations(ts)
  {
  }

  lemma SameTargetsPlaced(ws: Windows, workspace: string, a: seq<Target>, b: seq<Target>)
    requires Elements(a) == Elements(b) && AllAtColumns(ws, workspace, a)
    ensures AllAtColumns(ws, workspace, b)
  {
    assert forall t :: t in b ==> t in Elements(a);
  }

  lemma SameElements(a: seq<Target>, b: seq<Target>)
    requires Elements(a) == Elements(b)
    ensures forall t :: t in a <==> t in b
  {
    assert forall t :: t in a <==> t in Elements(a);
  }

  lemma SameTargetsJustify(env: Environment, h: seq<Action>, a: seq<Target>, b: seq<Target>)
    requires Justified(env, h, a) && Elements(a) == Elements(b)
    ensures Justified(env, h, b)
  {
    SameElements(a, b);
    forall i | 0 <= i < |h| && Acts(h[i]) ensures ActJustified(env, h, i, h[i], b) {
      assert ActJustified(env, h, i, h[i], a);
    }
  }

  lemma SameTargetsMove(init: Windows, h: seq<Action>, a: seq<Target>, b: seq<Target>)
    requires TrueMoves(init, h, a) && Elements(a) == Elements(b)
    ensures TrueMoves(init, h, b)
  {
    SameElements(a, b);
    forall i | 0 <= i < |h| ensures TrueMove(init, h[..i], h[i], b) {
      assert TrueMove(init, h[..i], h[i], a);
    }
  }

  lemma SameTargetsRest(
    env: Environment, init: Windows, delay: nat -> nat, patience: nat, h: seq<Action>, a: seq<Target>, b: seq<Target>)
    requires AtRest(env, init, delay, patience, h, a) && Elements(a) == Elements(b)
    ensures AtRest(env, init, delay, patience, h, b)
  {
    hide Justified;
    hide Timely;
    hide Quiet;
    hide TrueMoves;
    SameTargetsJustify(env, h, a, b);
    if TrueMoves(init, h, a) {
      SameTargetsMove(init, h, a, b);
    }
  }

  lemma SameTargetsBlamed(
    env: Environment, patience: nat, h: seq<Action>, e: OrderError, a: seq<Target>, b: seq<Target>)
    requires Blamed(env, patience, h, e, a) && Elements(a) == Elements(b) && |a| == |b|
    ensures Blamed(env, patience, h, e, b)
  {
    SameElements(a, b);
    hide ActedAt;
    hide Effect;
    hide PausesSince;
    hide MoveCount;
  }
}
