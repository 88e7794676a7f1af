/**
 Column ordering over all workspaces (internal/resume/executor.go): the targets of a plan fall
 into one group a workspace, the groups are ordered one after the other, and at the end the
 focus goes back to the window that had it.

 `ColumnOrder` proves what happens to one workspace.  Here the compositor shows the whole
 desktop; a group sees it through `View`, the part of each answer that is on its workspace.
 */
module ColumnGroups {
  import opened Wrappers
  import opened Texts
  import opened ColumnOrder

  // ---------------------------------------------------------------- the desktop

  function OnWorkspace(all: Windows, workspace: string): Windows {
    if all == [] then []
    else (if all[0].workspace == workspace then [all[0]] else []) + OnWorkspace(all[1..], workspace)
  }

  /** A column move on one workspace of the desktop. */
  function MoveOn(all: Windows, workspace: string, source: int, destination: int): Windows {
    seq(|all|, i requires 0 <= i < |all| =>
      if all[i].workspace == workspace then MoveWindow(all[i], source, destination) else all[i])
  }

  /** The focused window's column is the one that moves. */
  function DesktopEffect(all: Windows, a: Action): Windows {
    match a
    case Focus(id) => FocusOn(all, id)
    case MoveColumn(column) =>
      var w := FindFocused(all);
      if w.Some? && w.value.column.Some? then MoveOn(all, w.value.workspace, w.value.column.value, column) else all
    case _ => all
  }

  function Desktop(init: Windows, history: seq<Action>): Windows {
    if history == [] then init
    else DesktopEffect(Desktop(init, history[..|history| - 1]), history[|history| - 1])
  }

  /** Window identifiers are unique and at most one window has the focus. */
  ghost predicate Sound(all: Windows) {
    && (forall i, j :: 0 <= i < j < |all| ==> all[i].id != all[j].id)
    && (forall i, j :: 0 <= i < j < |all| ==> !(all[i].focused && all[j].focused))
  }

  /** The desktop before the last action. */
  function DesktopBefore(init: Windows, h: seq<Action>): Windows {
    if h == [] then init
    else if Acts(h[|h| - 1]) then Desktop(init, h[..|h| - 1])
    else DesktopBefore(init, h[..|h| - 1])
  }

  function DesktopShown(init: Windows, delay: nat -> nat, h: seq<Action>): Windows {
    if Lag(delay, h) == 0 then Desktop(init, h) else DesktopBefore(init, h)
  }

  ghost predicate TimelyDesktopAnswer(env: Environment, init: Windows, delay: nat -> nat, h: seq<Action>) {
    env.windows(h) == Some(DesktopShown(init, delay, h)) && env.accepts(h)
  }

  /**
   Nothing fails, nobody else acts, and the two actions do exactly what they are meant to.  What
   action number i does shows after `delay(i)` pauses, and no delay exceeds the executor's patience.
   */
  ghost predicate TimelyDesktop(env: Environment, init: Windows, delay: nat -> nat, patience: nat) {
    Sound(init) && (forall i :: delay(i) <= patience) && forall h :: TimelyDesktopAnswer(env, init, delay, h)
  }

  /** What a group sees of the desktop once `past` has happened. */
  function View(env: Environment, past: seq<Action>, workspace: string): Environment {
    Environment(
      h =>
        match env.windows(past + h)
        case None => None
        case Some(all) => Some(OnWorkspace(all, workspace)),
      h => env.accepts(past + h))
  }

  // ---------------------------------------------------------------- one workspace of the desktop

  lemma {:induction false} OnWorkspaceMember(all: Windows, workspace: string, w: Window)
    ensures w in OnWorkspace(all, workspace) <==> w in all && w.workspace == workspace
  {
    if all != [] {
      assert w in all <==> w == all[0] || w in all[1..];
      OnWorkspaceMember(all[1..], workspace, w);
    }
  }

  lemma {:induction false} FocusOnWorkspace(all: Windows, id: int, workspace: string)
    ensures OnWorkspace(FocusOn(all, id), workspace) == FocusOn(OnWorkspace(all, workspace), id)
  {
    if all != [] {
      assert FocusOn(all, id)[1..] == FocusOn(all[1..], id);
      FocusOnWorkspace(all[1..], id, workspace);
      FocusJoin(if all[0].workspace == workspace then [all[0]] else [], OnWorkspace(all[1..], workspace), id);
    }
  }

  lemma FocusJoin(a: Windows, b: Windows, id: int)
    ensures FocusOn(a + b, id) == FocusOn(a, id) + FocusOn(b, id)
  {
  }

  lemma {:induction false} MoveOnWorkspace(all: Windows, moved: string, s: int, d: int, workspace: string)
    ensures OnWorkspace(MoveOn(all, moved, s, d), workspace) ==
      if workspace == moved then MoveAll(OnWorkspace(all, workspace), s, d) else OnWorkspace(all, workspace)
  {
    if all != [] {
      assert MoveOn(all, moved, s, d)[1..] == MoveOn(all[1..], moved, s, d);
      MoveOnWorkspace(all[1..], moved, s, d, workspace);
      var head := if all[0].workspace == workspace then [all[0]] else [];
      MoveJoin(head, OnWorkspace(all[1..], workspace), s, d);
    }
  }

  lemma MoveJoin(a: Windows, b: Windows, s: int, d: int)
    ensures MoveAll(a + b, s, d) == MoveAll(a, s, d) + MoveAll(b, s, d)
  {
  }

  lemma SoundTail(all: Windows)
    requires Sound(all) && all != []
    ensures Sound(all[1..])
    ensures all[0].focused ==> forall w <- all[1..] :: !w.focused
  {
  }

  lemma {:induction false} NoneFocused(all: Windows)
    ensures FindFocused(all).None? <==> forall w <- all :: !w.focused
    ensures FindFocused(all).Some? ==> FindFocused(all).value in all && FindFocused(all).value.focused
  {
    if all != [] {
      NoneFocused(all[1..]);
      assert forall w :: w in all <==> w == all[0] || w in all[1..];
    }
  }

  /** The focused window is the only one, wherever it is looked for. */
  lemma {:induction false} FocusedIs(all: Windows, w: Window)
    requires Sound(all) && w in all && w.focused
    ensures FindFocused(all) == Some(w)
  {
    SoundTail(all);
    if all[0] != w {
      assert w in all[1..];
      FocusedIs(all[1..], w);
    }
  }

  lemma {:induction false} SoundOnWorkspace(all: Windows, workspace: string)
    requires Sound(all)
    ensures Sound(OnWorkspace(all, workspace))
  {
    if all != [] {
      SoundTail(all);
      SoundOnWorkspace(all[1..], workspace);
      var rest := OnWorkspace(all[1..], workspace);
      forall w <- rest ensures w.id != all[0].id && !(all[0].focused && w.focused) {
        OnWorkspaceMember(all[1..], workspace, w);
        var i :| 0 <= i < |all[1..]| && all[1..][i] == w;
        assert all[i + 1] == w;
      }
    }
  }

  lemma EffectIsSound(all: Windows, a: Action)
    requires Sound(all)
    ensures Sound(DesktopEffect(all, a))
  {
  }

  /** Each workspace of the desktop changes as if it were alone. */
  lemma EffectOnWorkspace(all: Windows, a: Action, workspace: string)
    requires Sound(all)
    ensures OnWorkspace(DesktopEffect(all, a), workspace) == Effect(OnWorkspace(all, workspace), a)
  {
    var part := OnWorkspace(all, workspace);
    match a
    case Focus(id) => FocusOnWorkspace(all, id, workspace);
    case MoveColumn(column) =>
      NoneFocused(all);
      NoneFocused(part);
      var w := FindFocused(all);
      if w.Some? {
        if w.value.workspace == workspace {
          OnWorkspaceMember(all, workspace, w.value);
          SoundOnWorkspace(all, workspace);
          FocusedIs(part, w.value);
        } else {
          OnlyElsewhere(all, w.value, workspace);
        }
        if w.value.column.Some? {
          MoveOnWorkspace(all, w.value.workspace, w.value.column.value, column, workspace);
        }
      } else {
        forall u <- part ensures !u.focused {
          OnWorkspaceMember(all, workspace, u);
        }
      }
    case _ =>
  }

  /** While a window elsewhere has the focus, none here has it. */
  lemma OnlyElsewhere(all: Windows, w: Window, workspace: string)
    requires Sound(all) && w in all && w.focused && w.workspace != workspace
    ensures FindFocused(OnWorkspace(all, workspace)).None?
  {
    var part := OnWorkspace(all, workspace);
    NoneFocused(part);
    forall u <- part ensures !u.focused {
      OnWorkspaceMember(all, workspace, u);
      if u.focused {
        FocusedIs(all, u);
        FocusedIs(all, w);
      }
    }
  }

  /** Over any history a workspace of the desktop is the world of its own. */
  lemma {:induction false} DesktopIsWorlds(init: Windows, h: seq<Action>, workspace: string)
    requires Sound(init)
    ensures Sound(Desktop(init, h))
    ensures OnWorkspace(Desktop(init, h), workspace) == World(OnWorkspace(init, workspace), h)
  {
    hide Sound;
    hide OnWorkspace;
    hide DesktopEffect;
    hide Effect;
    if h != [] {
      var before := h[..|h| - 1];
      DesktopIsWorlds(init, before, workspace);
      EffectIsSound(Desktop(init, before), h[|h| - 1]);
      EffectOnWorkspace(Desktop(init, before), h[|h| - 1], workspace);
    }
  }

  lemma {:induction false} DesktopTwice(init: Windows, a: seq<Action>, b: seq<Action>)
    ensures Desktop(init, a + b) == Desktop(Desktop(init, a), b)
    decreases |b|
  {
    hide DesktopEffect;
    if b == [] {
      assert a + b == a;
    } else {
      assert (a + b)[..|a + b| - 1] == a + b[..|b| - 1] && (a + b)[|a + b| - 1] == b[|b| - 1];
      DesktopTwice(init, a, b[..|b| - 1]);
    }
  }

  /** The delays of what happens after the first n actions. */
  function Later(delay: nat -> nat, n: nat): nat -> nat {
    i => delay(n + i)
  }

  lemma {:induction false} DesktopIsEffect(init: Windows, h: seq<Action>)
    requires Sound(init)
    ensures Sound(DesktopBefore(init, h))
    ensures Desktop(init, h) ==
      if LastAct(h).Some? then DesktopEffect(DesktopBefore(init, h), LastAct(h).value) else DesktopBefore(init, h)
  {
    hide Sound;
    hide DesktopEffect;
    if h != [] {
      if Acts(h[|h| - 1]) {
        DesktopIsWorlds(init, h[..|h| - 1], "");
      } else {
        DesktopIsEffect(init, h[..|h| - 1]);
        NoEffectOf(Desktop(init, h[..|h| - 1]), h[|h| - 1]);
      }
    }
  }

  lemma NoEffectOf(all: Windows, a: Action)
    requires !Acts(a)
    ensures DesktopEffect(all, a) == all
  {
  }

  /** What a group's own history adds to the lag of the desktop. */
  lemma {:induction false} ViewScene(
    init: Windows, delay: nat -> nat, past: seq<Action>, h: seq<Action>, workspace: string)
    requires Sound(init)
    ensures
      var here := OnWorkspace(Desktop(init, past), workspace);
      if LastAct(h).None? then
        && Desktop(init, past + h) == Desktop(init, past) && DesktopBefore(init, past + h) == DesktopBefore(init, past)
        && Lag(delay, past + h) <= Lag(delay, past) && Lag(Later(delay, |past|), h) == 0
      else
        && LastAct(past + h) == LastAct(h) && Lag(delay, past + h) == Lag(Later(delay, |past|), h)
        && OnWorkspace(DesktopBefore(init, past + h), workspace) == Before(here, h)
    decreases |h|
  {
    hide Sound;
    hide OnWorkspace;
    hide DesktopEffect;
    if h == [] {
      assert past + h == past;
    } else {
      var g, a := h[..|h| - 1], h[|h| - 1];
      assert past + h == (past + g) + [a] && (past + h)[..|past + h| - 1] == past + g;
      ViewScene(init, delay, past, g, workspace);
      if Acts(a) {
        DesktopTwice(init, past, g);
        DesktopIsWorlds(init, past, workspace);
        DesktopIsWorlds(Desktop(init, past), g, workspace);
      } else {
        NoEffectOf(Desktop(init, past + g), a);
      }
    }
  }

  /** A group that begins when everything shows sees what its own world shows. */
  lemma ViewShows(init: Windows, delay: nat -> nat, past: seq<Action>, h: seq<Action>, workspace: string)
    requires Sound(init) && DesktopShown(init, delay, past) == Desktop(init, past)
    ensures
      OnWorkspace(DesktopShown(init, delay, past + h), workspace)
      == Shown(OnWorkspace(Desktop(init, past), workspace), Later(delay, |past|), h)
  {
    hide Sound;
    hide OnWorkspace;
    hide Lag;
    hide Desktop;
    hide World;
    hide LastAct;
    hide Before;
    hide DesktopBefore;
    hide Later;
    ViewScene(init, delay, past, h, workspace);
    DesktopTwice(init, past, h);
    DesktopIsWorlds(init, past, workspace);
    DesktopIsWorlds(Desktop(init, past), h, workspace);
  }

  /** Under a timely compositor a group that begins when everything shows sees a timely one. */
  lemma ViewIsTimely(
    env: Environment, init: Windows, delay: nat -> nat, patience: nat, past: seq<Action>, workspace: string)
    requires TimelyDesktop(env, init, delay, patience) && DesktopShown(init, delay, past) == Desktop(init, past)
    ensures
      Timely(View(env, past, workspace), OnWorkspace(Desktop(init, past), workspace), Later(delay, |past|), patience)
  {
    var view, here := View(env, past, workspace), OnWorkspace(Desktop(init, past), workspace);
    hide Sound;
    hide OnWorkspace;
    hide DesktopShown;
    hide Shown;
    hide Desktop;
    forall h ensures TimelyAnswer(view, here, Later(delay, |past|), h) {
      assert TimelyDesktopAnswer(env, init, delay, past + h);
      ViewShows(init, delay, past, h, workspace);
    }
  }

  /** An action that changes nothing on the workspace it is meant for changes nothing at all. */
  lemma NoEffectHere(all: Windows, a: Action, workspace: string)
    requires Sound(all) && OnTarget(OnWorkspace(all, workspace), a)
    requires Effect(OnWorkspace(all, workspace), a) == OnWorkspace(all, workspace)
    ensures DesktopEffect(all, a) == all
  {
    var part := OnWorkspace(all, workspace);
    match a
    case Focus(id) =>
      var w := Find(part, id).value;
      FindFocusOn(part, id, id);
      OnWorkspaceMember(all, workspace, w);
      FocusedAlready(all, w);
    case MoveColumn(column) =>
      NoneFocused(part);
      var w := FindFocused(part).value;
      OnWorkspaceMember(all, workspace, w);
      FocusedIs(all, w);
      var i :| 0 <= i < |part| && part[i] == w;
      assert MoveAll(part, w.column.value, column)[i] == w;
      MovedNowhere(all, workspace, column);
  }

  lemma FocusedAlready(all: Windows, w: Window)
    requires Sound(all) && w in all && w.focused
    ensures FocusOn(all, w.id) == all
  {
    var i :| 0 <= i < |all| && all[i] == w;
    forall j | 0 <= j < |all| ensures FocusOn(all, w.id)[j] == all[j] {
      assert j != i ==> all[j].id != w.id && !all[j].focused;
    }
  }

  lemma MovedNowhere(all: Windows, workspace: string, s: int)
    ensures MoveOn(all, workspace, s, s) == all
  {
  }

  /** When a group is quiet, so is the whole desktop. */
  lemma QuietDesktop(init: Windows, delay: nat -> nat, past: seq<Action>, h: seq<Action>, workspace: string)
    requires Sound(init) && DesktopShown(init, delay, past) == Desktop(init, past)
    requires Quiet(OnWorkspace(Desktop(init, past), workspace), Later(delay, |past|), h)
    ensures DesktopShown(init, delay, past + h) == Desktop(init, past + h)
  {
    hide Sound;
    hide OnWorkspace;
    hide Lag;
    hide Desktop;
    hide World;
    hide LastAct;
    hide Before;
    hide DesktopBefore;
    hide Later;
    hide Effect;
    hide DesktopEffect;
    hide OnTarget;
    var here := OnWorkspace(Desktop(init, past), workspace);
    ViewScene(init, delay, past, h, workspace);
    if LastAct(h).Some? && Lag(delay, past + h) > 0 {
      DesktopIsEffect(init, past + h);
      WorldIsEffect(here, h);
      NoEffectHere(DesktopBefore(init, past + h), LastAct(h).value, workspace);
    }
  }

  // ---------------------------------------------------------------- the other workspaces

  /** The same windows in the same columns; the focus may differ. */
  ghost predicate SameColumns(a: Windows, b: Windows) {
    |a| == |b| && forall i :: 0 <= i < |a| ==> b[i] == a[i].(focused := b[i].focused)
  }

  lemma {:induction false} SameColumnsFind(a: Windows, b: Windows, id: int)
    requires SameColumns(a, b)
    ensures Find(a, id).Some? <==> Find(b, id).Some?
    ensures Find(a, id).Some? ==> Find(b, id).value == Find(a, id).value.(focused := Find(b, id).value.focused)
  {
    if a != [] {
      assert b[0] == a[0].(focused := b[0].focused);
      SameColumnsFind(a[1..], b[1..], id);
    }
  }

  lemma SameColumnsTwice(a: Windows, b: Windows, c: Windows)
    requires SameColumns(a, b) && SameColumns(b, c)
    ensures SameColumns(a, c)
  {
  }

  lemma FocusKeepsColumns(all: Windows, id: int)
    ensures SameColumns(all, FocusOn(all, id))
  {
  }

  /** The moves a group issues are moves of its own workspace: no other sees more than a change of focus. */
  lemma {:induction false} OthersStay(
    init: Windows, past: seq<Action>, h: seq<Action>, n: nat, workspace: string, ts: seq<Target>, other: string)
    requires Sound(init) && TrueMoves(OnWorkspace(Desktop(init, past), workspace), h, ts)
    requires workspace != other && n <= |h|
    ensures SameColumns(OnWorkspace(Desktop(init, past), other), OnWorkspace(Desktop(init, past + h[..n]), other))
    decreases n
  {
    hide OnWorkspace;
    hide Desktop;
    hide DesktopEffect;
    hide TrueMove;
    hide TrueMoves;
    hide Sound;
    if n == 0 {
      assert past + h[..0] == past;
    } else {
      OthersStay(init, past, h, n - 1, workspace, ts, other);
      var before := past + h[..n - 1];
      var a := h[n - 1];
      assert past + h[..n] == before + [a];
      DesktopStep(init, before, a);
      OtherStays(init, past, h, n - 1, workspace, ts, other);
      SameColumnsTwice(
        OnWorkspace(Desktop(init, past), other), OnWorkspace(Desktop(init, before), other),
        OnWorkspace(Desktop(init, before + [a]), other));
    }
  }

  lemma DesktopStep(init: Windows, h: seq<Action>, a: Action)
    ensures Desktop(init, h + [a]) == DesktopEffect(Desktop(init, h), a)
  {
    assert (h + [a])[..|h|] == h;
  }

  lemma OtherStays(
    init: Windows, past: seq<Action>, h: seq<Action>, i: nat, workspace: string, ts: seq<Target>, other: string)
    requires Sound(init) && TrueMoves(OnWorkspace(Desktop(init, past), workspace), h, ts)
    requires workspace != other && i < |h|
    ensures
      var all := Desktop(init, past + h[..i]);
      SameColumns(OnWorkspace(all, other), OnWorkspace(DesktopEffect(all, h[i]), other))
  {
    var all := Desktop(init, past + h[..i]);
    match h[i]
    case Focus(id) =>
      FocusOnWorkspace(all, id, other);
      FocusKeepsColumns(OnWorkspace(all, other), id);
    case MoveColumn(column) =>
      DesktopTwice(init, past, h[..i]);
      DesktopIsWorlds(init, past, workspace);
      DesktopIsWorlds(Desktop(init, past), h[..i], workspace);
      assert TrueMove(OnWorkspace(Desktop(init, past), workspace), h[..i], h[i], ts);
      var t :| t in ts && Find(OnWorkspace(all, workspace), t.window).Some?
               && Find(OnWorkspace(all, workspace), t.window).value.focused;
      MovesHere(all, workspace, t, column, other);
    case _ =>
  }

  lemma MovesHere(all: Windows, workspace: string, t: Target, column: int, other: string)
    requires Sound(all) && workspace != other
    requires Find(OnWorkspace(all, workspace), t.window).Some? && Find(OnWorkspace(all, workspace), t.window).value.focused
    ensures OnWorkspace(DesktopEffect(all, MoveColumn(column)), other) == OnWorkspace(all, other)
  {
    var w := Find(OnWorkspace(all, workspace), t.window).value;
    OnWorkspaceMember(all, workspace, w);
    FocusedIs(all, w);
    if w.column.Some? {
      MoveOnWorkspace(all, workspace, w.column.value, column, other);
    }
  }

  // ---------------------------------------------------------------- the targets of a plan

  /** Where a resolved workspace stands; its identifier is what windows refer to. */
  datatype Place = Place(index: int, output: string, name: string, id: string)

  /** A restored window with its captured layout and the workspace it was resolved to. */
  datatype Item = Item(window: int, column: Option<int>, row: Option<int>, occupied: bool, place: Option<Place>)

  predicate Placeable(item: Item) { item.column.Some? && item.place.Some? }

  function TargetOf(item: Item): Target
    requires Placeable(item)
  {
    Target(item.window, item.column.value, item.row, item.occupied)
  }

  predicate PlaceLess(a: Place, b: Place) {
    if a.index != b.index then a.index < b.index
    else if a.output != b.output then Less(a.output, b.output)
    else if a.name != b.name then Less(a.name, b.name)
    else Less(a.id, b.id)
  }

  lemma PlaceLessIsTotal(a: Place, b: Place)
    ensures a == b || PlaceLess(a, b) || PlaceLess(b, a)
  {
    LessIsTotal(a.output, b.output);
    LessIsTotal(a.name, b.name);
    LessIsTotal(a.id, b.id);
  }

  lemma PlaceLessIsAsymmetric(a: Place, b: Place)
    requires PlaceLess(a, b)
    ensures !PlaceLess(b, a) && a != b
  {
    LessIsIrreflexive(a.id);
    if Less(a.output, b.output) {
      LessIsAsymmetric(a.output, b.output);
    }
    if Less(a.name, b.name) {
      LessIsAsymmetric(a.name, b.name);
    }
    if Less(a.id, b.id) {
      LessIsAsymmetric(a.id, b.id);
    }
  }

  lemma PlaceLessIsTransitive(a: Place, b: Place, c: Place)
    requires PlaceLess(a, b) && PlaceLess(b, c)
    ensures PlaceLess(a, c)
  {
    if Less(a.output, b.output) && Less(b.output, c.output) {
      LessIsTransitive(a.output, b.output, c.output);
      LessIsIrreflexive(a.output);
    }
    if Less(a.name, b.name) && Less(b.name, c.name) {
      LessIsTransitive(a.name, b.name, c.name);
      LessIsIrreflexive(a.name);
    }
    if Less(a.id, b.id) && Less(b.id, c.id) {
      LessIsTransitive(a.id, b.id, c.id);
    }
    LessIsIrreflexive(a.output);
    LessIsIrreflexive(a.name);
    hide Less;
  }

  ghost predicate ByPlace(places: seq<Place>) {
    forall i, j :: 0 <= i < j < |places| ==> !PlaceLess(places[j], places[i])
  }

  lemma InsertedByPlace(places: seq<Place>, p: Place, i: nat)
    requires ByPlace(places) && i <= |places|
    requires (i > 0 ==> !PlaceLess(p, places[i - 1])) && forall j :: i <= j < |places| ==> PlaceLess(p, places[j])
    ensures ByPlace(places[..i] + [p] + places[i..])
  {
    hide PlaceLess;
    forall j | 0 <= j < i ensures !PlaceLess(p, places[j]) {
      if PlaceLess(p, places[j]) && j < i - 1 {
        PlaceLessIsTotal(places[j], places[i - 1]);
        if PlaceLess(places[j], places[i - 1]) {
          PlaceLessIsTransitive(p, places[j], places[i - 1]);
        }
      }
    }
    forall j | i <= j < |places| ensures !PlaceLess(places[j], p) {
      PlaceLessIsAsymmetric(p, places[j]);
    }
  }

  /** Indices of items that have a column and a place, each once. */
  ghost predicate Picks(items: seq<Item>, order: seq<nat>) {
    && (forall k :: 0 <= k < |order| ==> order[k] < |items| && Placeable(items[order[k]]))
    && (forall a, b :: 0 <= a < b < |order| ==> order[a] != order[b])
  }

  function Places(items: seq<Item>, order: seq<nat>): (r: seq<Place>)
    requires Picks(items, order)
    ensures |r| == |order| && forall k :: 0 <= k < |r| ==> r[k] == items[order[k]].place.value
  {
    seq(|order|, k requires 0 <= k < |order| =>
      items[order[k]].place.value)
  }

  function Targets(items: seq<Item>, order: seq<nat>): (r: seq<Target>)
    requires Picks(items, order)
    ensures |r| == |order| && forall k :: 0 <= k < |r| ==> r[k] == TargetOf(items[order[k]])
  {
    seq(|order|, k requires 0 <= k < |order| =>
      TargetOf(items[order[k]]))
  }

  method InsertByPlace(items: seq<Item>, order: seq<nat>, x: nat) returns (r: seq<nat>)
    requires Picks(items, order) && x !in order && x < |items| && Placeable(items[x])
    requires ByPlace(Places(items, order))
    ensures Picks(items, r) && ByPlace(Places(items, r)) && forall i :: i in r <==> i in order || i == x
  {
    hide PlaceLess;
    hide ByPlace;
    var p := items[x].place.value;
    var i := |order|;
    while i > 0 && PlaceLess(p, items[order[i - 1]].place.value)
      invariant 0 <= i <= |order| && forall j :: i <= j < |order| ==> PlaceLess(p, Places(items, order)[j])
    {
      i := i - 1;
    }
    r := order[..i] + [x] + order[i..];
    assert order[..i] + order[i..] == order;
    PicksInserted(items, order[..i], x, order[i..]);
    InsertedByPlace(Places(items, order), p, i);
    hide *;
    assert Places(items, order)[..|order[..i]|] == Places(items, order)[..i];
  }

  lemma PicksInserted(items: seq<Item>, a: seq<nat>, x: nat, b: seq<nat>)
    requires Picks(items, a + b) && x !in a + b && x < |items| && Placeable(items[x])
    ensures Picks(items, a + [x] + b) && forall i :: i in a + [x] + b <==> i in a + b || i == x
    ensures
      var all := Places(items, a + b);
      Places(items, a + [x] + b) == all[..|a|] + [items[x].place.value] + all[|a|..]
  {
    var r := a + [x] + b;
    forall k | 0 <= k < |r|
      ensures r[k] < |items| && Placeable(items[r[k]])
    {
      assert r[k] == x || r[k] == (a + b)[if k < |a| then k else k - 1];
    }
    NoRepeatInserted(a, x, b);
    hide Placeable;
  }

  lemma NoRepeatInserted(a: seq<nat>, x: nat, b: seq<nat>)
    requires (forall i, j :: 0 <= i < j < |a + b| ==> (a + b)[i] != (a + b)[j]) && x !in a + b
    ensures
      var r := a + [x] + b;
      forall i, j :: 0 <= i < j < |r| ==> r[i] != r[j]
  {
    var r := a + [x] + b;
    forall i, j | 0 <= i < j < |r| ensures r[i] != r[j] {
      var k, l := if i < |a| then i else i - 1, if j < |a| then j else j - 1;
      if i == |a| {
        assert r[j] == (a + b)[l] && (a + b)[l] in a + b;
      } else if j == |a| {
        assert r[i] == (a + b)[k] && (a + b)[k] in a + b;
      } else {
        assert r[i] == (a + b)[k] && r[j] == (a + b)[l];
      }
    }
  }

  /** The items to order, workspace by workspace. */
  method SortByPlace(items: seq<Item>) returns (order: seq<nat>)
    ensures Picks(items, order) && ByPlace(Places(items, order))
    ensures forall i: nat :: i in order <==> i < |items| && Placeable(items[i])
  {
    hide ByPlace;
    order := [];
    assert ByPlace(Places(items, order)) by { EmptyByPlace(); }
    for n := 0 to |items|
      invariant Picks(items, order) && ByPlace(Places(items, order))
      invariant forall i: nat :: i in order <==> i < n && Placeable(items[i])
    {
      if Placeable(items[n]) {
        order := InsertByPlace(items, order, n);
      }
    }
  }

  lemma EmptyByPlace()
    ensures ByPlace([])
  {
  }

  // ---------------------------------------------------------------- what becomes of a group

  ghost predicate InGroup(items: seq<Item>, i: int, id: string) {
    0 <= i < |items| && Placeable(items[i]) && items[i].place.value.id == id
  }

  /** The captured layout of a workspace needs stacking actions. */
  ghost predicate GroupStacked(items: seq<Item>, id: string) {
    || (exists i :: InGroup(items, i, id) && (items[i].occupied || (items[i].row.Some? && items[i].row.value > 1)))
    || (exists i, j :: InGroup(items, i, id) && InGroup(items, j, id) && i != j && items[i].column == items[j].column)
  }

  /** Every target of a workspace is observable on it, and no two of them share a column now. */
  ghost predicate GroupApart(all: Windows, items: seq<Item>, id: string) {
    var here := OnWorkspace(all, id);
    && (forall i :: InGroup(items, i, id) ==>
          Find(here, items[i].window).Some? && Find(here, items[i].window).value.column.Some?)
    && (forall i, j :: InGroup(items, i, id) && InGroup(items, j, id) && i != j ==>
          Find(here, items[i].window).value.column != Find(here, items[j].window).value.column)
  }

  ghost predicate InPlace(all: Windows, item: Item)
    requires Placeable(item)
  {
    AtColumn(OnWorkspace(all, item.place.value.id), item.window, item.place.value.id, item.column.value)
  }

  /** A group holds exactly the targets of its workspace. */
  ghost predicate WholeGroup(items: seq<Item>, group: seq<nat>, id: string) {
    Picks(items, group) && forall i :: i in group <==> InGroup(items, i, id)
  }

  lemma GroupStackedIs(items: seq<Item>, group: seq<nat>, id: string)
    requires WholeGroup(items, group, id)
    ensures Stacked(Targets(items, group)) <==> GroupStacked(items, id)
  {
    if GroupStacked(items, id) {
      StackedInGroup(items, group, id);
    }
    if Stacked(Targets(items, group)) {
      StackedTargets(items, group, id);
    }
  }

  lemma StackedInGroup(items: seq<Item>, group: seq<nat>, id: string)
    requires WholeGroup(items, group, id) && GroupStacked(items, id)
    ensures Stacked(Targets(items, group))
  {
    var ts := Targets(items, group);
    if i :| InGroup(items, i, id) && (items[i].occupied || (items[i].row.Some? && items[i].row.value > 1)) {
      var k :| 0 <= k < |group| && group[k] == i;
      assert ts[k] in ts;
    } else {
      var i, j :| InGroup(items, i, id) && InGroup(items, j, id) && i != j && items[i].column == items[j].column;
      var k :| 0 <= k < |group| && group[k] == i;
      var l :| 0 <= l < |group| && group[l] == j;
      assert ts[k].column == ts[l].column;
      assert !DistinctDestinations(ts);
    }
  }

  lemma StackedTargets(items: seq<Item>, group: seq<nat>, id: string)
    requires WholeGroup(items, group, id) && Stacked(Targets(items, group))
    ensures GroupStacked(items, id)
  {
    var ts := Targets(items, group);
    if t :| t in ts && (t.occupied || (t.row.Some? && t.row.value > 1)) {
      var k :| 0 <= k < |ts| && ts[k] == t;
      assert group[k] in group && InGroup(items, group[k], id);
    } else {
      var k, l :| 0 <= k < l < |ts| && ts[k].column == ts[l].column;
      assert group[k] in group && group[l] in group && group[k] != group[l];
      assert InGroup(items, group[k], id) && InGroup(items, group[l], id);
    }
  }

  lemma GroupApartIs(all: Windows, items: seq<Item>, group: seq<nat>, id: string)
    requires WholeGroup(items, group, id) && !Stacked(Targets(items, group))
    ensures
      MovableSet(OnWorkspace(all, id), id, Elements(Targets(items, group))) <==> GroupApart(all, items, id)
  {
    var ts, here := Targets(items, group), OnWorkspace(all, id);
    forall t | t in ts && Find(here, t.window).Some? ensures Find(here, t.window).value.workspace == id {
      OnWorkspaceMember(all, id, Find(here, t.window).value);
    }
    forall k | 0 <= k < |group| ensures InGroup(items, group[k], id) && ts[k] in Elements(ts) {
      assert group[k] in group;
    }
    if MovableSet(here, id, Elements(ts)) {
      SetIsApart(all, items, group, id);
    }
    if GroupApart(all, items, id) {
      ApartIsSet(all, items, group, id);
    }
  }

  lemma SetIsApart(all: Windows, items: seq<Item>, group: seq<nat>, id: string)
    requires WholeGroup(items, group, id) && !Stacked(Targets(items, group))
    requires MovableSet(OnWorkspace(all, id), id, Elements(Targets(items, group)))
    ensures GroupApart(all, items, id)
  {
    var ts, here := Targets(items, group), OnWorkspace(all, id);
    forall i | InGroup(items, i, id)
      ensures Find(here, items[i].window).Some? && Find(here, items[i].window).value.column.Some?
    {
      var k :| 0 <= k < |group| && group[k] == i;
      assert ts[k] in Elements(ts);
    }
    forall i, j | InGroup(items, i, id) && InGroup(items, j, id) && i != j
      ensures Find(here, items[i].window).value.column != Find(here, items[j].window).value.column
    {
      var k :| 0 <= k < |group| && group[k] == i;
      var l :| 0 <= l < |group| && group[l] == j;
      assert ts[k] in Elements(ts) && ts[l] in Elements(ts);
      assert ts[k].column != ts[l].column;
    }
  }

  lemma ApartIsSet(all: Windows, items: seq<Item>, group: seq<nat>, id: string)
    requires WholeGroup(items, group, id) && GroupApart(all, items, id)
    ensures MovableSet(OnWorkspace(all, id), id, Elements(Targets(items, group)))
  {
    var ts, here := Targets(items, group), OnWorkspace(all, id);
    forall t <- Elements(ts)
      ensures
        var w := Find(here, t.window);
        w.Some? && w.value.workspace == id && w.value.column.Some?
    {
      var k :| 0 <= k < |ts| && ts[k] == t;
      assert group[k] in group && InGroup(items, group[k], id);
      OnWorkspaceMember(all, id, Find(here, t.window).value);
    }
    forall t, u | t in Elements(ts) && u in Elements(ts) && t != u
      ensures Find(here, t.window).value.column != Find(here, u.window).value.column
    {
      var k :| 0 <= k < |ts| && ts[k] == t;
      var l :| 0 <= l < |ts| && ts[l] == u;
      assert group[k] in group && group[l] in group && InGroup(items, group[k], id) && InGroup(items, group[l], id);
      assert group[k] != group[l];
    }
  }

  /** What was apart at the start is apart whenever its group's turn comes. */
  lemma ApartStill(init: Windows, past: seq<Action>, id: string, ts: seq<Target>)
    requires Sound(init) && !Stacked(ts)
    ensures
      MovableSet(OnWorkspace(Desktop(init, past), id), id, Elements(ts))
      <==> MovableSet(OnWorkspace(init, id), id, Elements(ts))
  {
    DesktopIsWorlds(init, past, id);
    MovableAsSet(OnWorkspace(init, id), id, ts);
    MovableAsSet(OnWorkspace(Desktop(init, past), id), id, ts);
    MovableForever(OnWorkspace(init, id), past, id, ts);
  }

  /**
   What the history between two points says of the group whose turn it was: every action is justified
   by what the group saw just before, an applied group's last observation shows every target on the
   workspace in its column, as did the one before, and an error is to blame on what the group saw last.
   */
  ghost predicate GroupTold(
    env: Environment, history: seq<Action>, from: nat, to: nat, id: string, patience: nat, ts: seq<Target>,
    outcome: Outcome)
  {
    && from <= to <= |history|
    && Justified(View(env, history[..from], id), history[from..to], ts)
    && (outcome.Unsupported? <==> Stacked(ts)) && (outcome.Unsupported? ==> from == to)
    && (outcome.Applied? ==>
          && from + 1 < to && history[to - 1] == history[to - 2] == Observe
          && env.windows(history[..to]).Some? && env.windows(history[..to - 1]).Some?
          && OnWorkspace(env.windows(history[..to - 1]).value, id) == OnWorkspace(env.windows(history[..to]).value, id)
          && forall t <- ts :: AtColumn(OnWorkspace(env.windows(history[..to]).value, id), t.window, id, t.column))
    && (outcome.Degraded? ==> Blamed(View(env, history[..from], id), patience, history[from..to], outcome.error, ts))
  }

  /** Orders one group, as the view of its workspace shows it. */
  method OrderOne(
    env: Environment, past: seq<Action>, id: string, patience: nat, ts: seq<Target>,
    ghost init: Windows, ghost delay: nat -> nat)
    returns (outcome: Outcome, after: seq<Action>)
    ensures outcome !in {Degraded(NoProgress), Degraded(FinalMismatch)}
    ensures past <= after && GroupTold(env, after, |past|, |after|, id, patience, ts, outcome)
    ensures TimelyDesktop(env, init, delay, patience) && DesktopShown(init, delay, past) == Desktop(init, past) ==>
      && DesktopShown(init, delay, after) == Desktop(init, after)
      && TrueMoves(OnWorkspace(Desktop(init, past), id), after[|past|..], ts)
      && (outcome.Applied? <==> !Stacked(ts) && MovableSet(OnWorkspace(init, id), id, Elements(ts)))
  {
    hide *;
    var h;
    ghost var here := OnWorkspace(Desktop(init, past), id);
    ghost var later := Later(delay, |past|);
    outcome, h := OrderWorkspace(View(env, past, id), id, patience, ts, here, later);
    after := past + h;
    assert after[|past|..] == h && after[..|past|] == past;
    TellsGroup(env, past, h, id, patience, ts, outcome, here, later);
    if TimelyDesktop(env, init, delay, patience) && DesktopShown(init, delay, past) == Desktop(init, past) {
      SoundAtFirst(env, init, delay, patience);
      ViewIsTimely(env, init, delay, patience, past, id);
      RestingGroup(View(env, past, id), here, later, patience, h, ts);
      QuietDesktop(init, delay, past, h, id);
      if !Stacked(ts) {
        ApartStill(init, past, id, ts);
      }
    }
  }

  lemma SoundAtFirst(env: Environment, init: Windows, delay: nat -> nat, patience: nat)
    requires TimelyDesktop(env, init, delay, patience)
    ensures Sound(init)
  {
    hide Sound;
  }

  lemma RestingGroup(
    env: Environment, init: Windows, delay: nat -> nat, patience: nat, h: seq<Action>, ts: seq<Target>)
    requires AtRest(env, init, delay, patience, h, ts) && Timely(env, init, delay, patience)
    ensures Quiet(init, delay, h) && TrueMoves(init, h, ts)
  {
    hide Timely;
    hide Quiet;
    hide TrueMoves;
    hide Justified;
  }

  lemma TellsGroup(
    env: Environment, past: seq<Action>, h: seq<Action>, id: string, patience: nat, ts: seq<Target>, outcome: Outcome,
    init: Windows, delay: nat -> nat)
    requires outcome.Unsupported? <==> Stacked(ts)
    requires outcome.Unsupported? ==> h == []
    requires AtRest(View(env, past, id), init, delay, patience, h, ts)
    requires outcome.Applied? ==>
      && SeenTwice(View(env, past, id), h) && View(env, past, id).windows(h).Some?
      && AllAtColumns(View(env, past, id).windows(h).value, id, ts)
    requires outcome.Degraded? ==> Blamed(View(env, past, id), patience, h, outcome.error, ts)
    ensures GroupTold(env, past + h, |past|, |past + h|, id, patience, ts, outcome)
  {
    var after := past + h;
    assert after[|past|..|after|] == h && after[..|past|] == past && after[..|after|] == after;
    assert h != [] ==> after[..|after| - 1] == past + h[..|h| - 1];
    hide Blamed;
    hide Stacked;
    hide Justified;
    hide AtColumn;
    hide OnWorkspace;
    hide Timely;
  }

  // ---------------------------------------------------------------- all groups

  /** Workspaces with the same identifier are resolved to the same place. */
  ghost predicate OnePlaceEach(items: seq<Item>) {
    forall i, j, id :: InGroup(items, i, id) && InGroup(items, j, id) ==> items[i].place == items[j].place
  }

  /** Every item to order is picked, workspace by workspace. */
  ghost predicate Ordering(items: seq<Item>, order: seq<nat>) {
    && Picks(items, order) && ByPlace(Places(items, order))
    && (forall i: nat :: i in order <==> i < |items| && Placeable(items[i]))
  }

  function IdOf(items: seq<Item>, order: seq<nat>, k: nat): string
    requires Picks(items, order) && k < |order|
  {
    items[order[k]].place.value.id
  }

  /** A maximal stretch of one identifier. */
  ghost predicate Stretch(items: seq<Item>, order: seq<nat>, start: nat, end: nat)
    requires Picks(items, order)
  {
    && start < end <= |order|
    && (forall k :: start <= k < end ==> IdOf(items, order, k) == IdOf(items, order, start))
    && (end < |order| ==> IdOf(items, order, end) != IdOf(items, order, start))
    && (start > 0 ==> IdOf(items, order, start - 1) != IdOf(items, order, start))
  }

  /** Items of one identifier stand together, so a stretch has them all. */
  lemma StretchIsWhole(items: seq<Item>, order: seq<nat>, start: nat, end: nat)
    requires Ordering(items, order) && OnePlaceEach(items) && Stretch(items, order, start, end)
    ensures WholeGroup(items, order[start..end], IdOf(items, order, start))
    ensures forall k :: 0 <= k < start ==> IdOf(items, order, k) != IdOf(items, order, start)
  {
    var group, id := order[start..end], IdOf(items, order, start);
    forall k | 0 <= k < |order| && !(start <= k < end) ensures IdOf(items, order, k) != id {
      Apart(items, order, start, end, k);
    }
    hide ByPlace;
    hide OnePlaceEach;
    forall l | 0 <= l < |group| ensures InGroup(items, group[l], id) {
      assert group[l] == order[start + l] && IdOf(items, order, start + l) == id;
    }
    forall i | InGroup(items, i, id) ensures i in group {
      Picked(items, order, i);
      var k :| 0 <= k < |order| && order[k] == i;
      assert IdOf(items, order, k) == id;
      assert group[k - start] == i;
    }
    StretchPicks(items, order, start, end);
  }

  lemma Picked(items: seq<Item>, order: seq<nat>, i: nat)
    requires Ordering(items, order) && i < |items| && Placeable(items[i])
    ensures exists k :: 0 <= k < |order| && order[k] == i
  {
    assert i in order;
  }

  lemma StretchPicks(items: seq<Item>, order: seq<nat>, start: nat, end: nat)
    requires Picks(items, order) && start <= end <= |order|
    ensures Picks(items, order[start..end])
  {
  }

  lemma Apart(items: seq<Item>, order: seq<nat>, start: nat, end: nat, k: nat)
    requires Ordering(items, order) && OnePlaceEach(items) && Stretch(items, order, start, end)
    requires k < |order| && !(start <= k < end)
    ensures IdOf(items, order, k) != IdOf(items, order, start)
  {
    var ps := Places(items, order);
    hide PlaceLess;
    var edge := if k < start then start - 1 else end;
    assert IdOf(items, order, edge) != IdOf(items, order, start);
    PlaceLessIsTotal(ps[edge], ps[start]);
    assert ps[k] != ps[start];
    assert InGroup(items, order[k], IdOf(items, order, k)) && InGroup(items, order[start], IdOf(items, order, start));
  }

  /** What an item is told, and that it is true of the desktop. */
  ghost predicate Settled(init: Windows, items: seq<Item>, i: int, outcome: Option<Outcome>, all: Windows)
    requires 0 <= i < |items| && Placeable(items[i])
  {
    var id := items[i].place.value.id;
    && outcome.Some?
    && (outcome.value.Unsupported? <==> GroupStacked(items, id))
    && (outcome.value.Applied? <==> !GroupStacked(items, id) && GroupApart(init, items, id))
    && (outcome.value.Applied? ==> InPlace(all, items[i]))
  }

  /** What another group or the focus does later leaves a settled item settled. */
  lemma StaysSettled(init: Windows, items: seq<Item>, i: int, outcome: Option<Outcome>, all: Windows, later: Windows)
    requires 0 <= i < |items| && Placeable(items[i]) && Settled(init, items, i, outcome, all)
    requires
      var id := items[i].place.value.id;
      SameColumns(OnWorkspace(all, id), OnWorkspace(later, id))
    ensures Settled(init, items, i, outcome, later)
  {
    var id := items[i].place.value.id;
    SameColumnsFind(OnWorkspace(all, id), OnWorkspace(later, id), items[i].window);
  }

  /** A group's own turn settles it. */
  lemma GroupSettles(init: Windows, items: seq<Item>, group: seq<nat>, id: string, outcome: Outcome, all: Windows)
    requires WholeGroup(items, group, id)
    requires
      var ts := Targets(items, group);
      && (outcome.Unsupported? <==> Stacked(ts))
      && (outcome.Applied? <==> !Stacked(ts) && MovableSet(OnWorkspace(init, id), id, Elements(ts)))
      && (outcome.Applied? ==> AllAtColumns(OnWorkspace(all, id), id, ts))
    ensures forall i :: InGroup(items, i, id) ==> Settled(init, items, i, Some(outcome), all)
  {
    var ts := Targets(items, group);
    GroupStackedIs(items, group, id);
    if !Stacked(ts) {
      GroupApartIs(init, items, group, id);
    }
    forall i | InGroup(items, i, id) && outcome.Applied? ensures InPlace(all, items[i]) {
      var k :| 0 <= k < |group| && group[k] == i;
      assert ts[k] in ts;
    }
    hide Stacked;
    hide MovableSet;
    hide GroupStacked;
    hide GroupApart;
    hide InPlace;
  }

  /** Every item of a group is told the same. */
  method MarkAll(outcomes: seq<Option<Outcome>>, group: seq<nat>, outcome: Outcome) returns (r: seq<Option<Outcome>>)
    requires forall k :: 0 <= k < |group| ==> group[k] < |outcomes|
    ensures |r| == |outcomes|
    ensures forall i :: 0 <= i < |r| ==> r[i] == if i in group then Some(outcome) else outcomes[i]
  {
    r := outcomes;
    for k := 0 to |group|
      invariant |r| == |outcomes|
      invariant forall i :: 0 <= i < |r| ==> r[i] == if i in group[..k] then Some(outcome) else outcomes[i]
    {
      assert group[..k + 1] == group[..k] + [group[k]];
      r := r[group[k] := Some(outcome)];
    }
    assert group[..|group|] == group;
  }

  /** From action n on nothing but giving the focus back, until it shows or patience is over. */
  ghost predicate FocusGivenBack(env: Environment, h: seq<Action>, n: nat, id: int, patience: nat) {
    && n < |h| && h[n] == Focus(id) && (forall i :: n < i < |h| ==> !Acts(h[i]))
    && var last := h[|h| - 1];
       || (|h| == n + 1 && !env.accepts(h))
       || (last == Observe && env.windows(h).Some? && exists w <- env.windows(h).value :: w.id == id && w.focused)
       || (last == Pause && (!env.accepts(h) || PausesSince(h) == patience + 1))
  }

  /** Gives the focus back, and looks for it as long as patience lasts; nobody waits for the result. */
  method RestoreFocus(env: Environment, past: seq<Action>, id: int, patience: nat, ghost init: Windows)
    returns (after: seq<Action>)
    ensures Desktop(init, after) == FocusOn(Desktop(init, past), id)
    ensures past <= after && FocusGivenBack(env, after, |past|, id, patience)
  {
    hide DesktopEffect;
    DesktopStep(init, past, Focus(id));
    FocusIsEffect(Desktop(init, past), id);
    PausesStep(past, Focus(id));
    after := past + [Focus(id)];
    if !env.accepts(after) {
      return;
    }
    var pauses := 0;
    while true
      invariant past + [Focus(id)] <= after && pauses <= patience && PausesSince(after) == pauses
      invariant forall i :: |past| < i < |after| ==> !Acts(after[i])
      invariant Desktop(init, after) == FocusOn(Desktop(init, past), id)
      decreases patience - pauses
    {
      DesktopStep(init, after, Observe);
      NoEffectOf(Desktop(init, after), Observe);
      PausesStep(after, Observe);
      after := after + [Observe];
      var windows := env.windows(after);
      if windows.Some? && exists w <- windows.value :: w.id == id && w.focused {
        return;
      }
      DesktopStep(init, after, Pause);
      NoEffectOf(Desktop(init, after), Pause);
      PausesStep(after, Pause);
      after := after + [Pause];
      if !env.accepts(after) || pauses == patience {
        return;
      }
      pauses := pauses + 1;
    }
  }

  lemma FocusIsEffect(all: Windows, id: int)
    ensures DesktopEffect(all, Focus(id)) == FocusOn(all, id)
  {
  }

  /** Where the stretch that begins at `start` ends. */
  method FindEnd(items: seq<Item>, order: seq<nat>, start: nat) returns (end: nat)
    requires Picks(items, order) && start < |order|
    requires start > 0 ==> IdOf(items, order, start - 1) != IdOf(items, order, start)
    ensures Stretch(items, order, start, end)
  {
    end := start + 1;
    while end < |order| && IdOf(items, order, end) == IdOf(items, order, start)
      invariant start < end <= |order|
      invariant forall k :: start <= k < end ==> IdOf(items, order, k) == IdOf(items, order, start)
    {
      end := end + 1;
    }
  }

  /** The first `done` picked items are settled; those not picked are as they were. */
  ghost predicate SettledSoFar(
    init: Windows, items: seq<Item>, order: seq<nat>, done: nat, outcomes: seq<Option<Outcome>>, all: Windows)
  {
    && Picks(items, order) && done <= |order| && |outcomes| == |items|
    && forall k :: 0 <= k < done ==> Settled(init, items, order[k], outcomes[order[k]], all)
  }

  ghost predicate Ideal(env: Environment, init: Windows, delay: nat -> nat, patience: nat, items: seq<Item>) {
    TimelyDesktop(env, init, delay, patience) && OnePlaceEach(items)
  }

  /** What an applied group saw last is the desktop. */
  lemma AppliedGroup(
    env: Environment, init: Windows, delay: nat -> nat, patience: nat, past: seq<Action>, after: seq<Action>,
    id: string, ts: seq<Target>, outcome: Outcome)
    requires TimelyDesktop(env, init, delay, patience) && DesktopShown(init, delay, after) == Desktop(init, after)
    requires past <= after && GroupTold(env, after, |past|, |after|, id, patience, ts, outcome)
    ensures outcome.Unsupported? <==> Stacked(ts)
    ensures outcome.Applied? ==> AllAtColumns(OnWorkspace(Desktop(init, after), id), id, ts)
  {
    assert TimelyDesktopAnswer(env, init, delay, after);
    assert after[..|after|] == after;
    hide Stacked;
    hide AtColumn;
    hide OnWorkspace;
    hide Sound;
    hide Blamed;
    hide Justified;
  }

  lemma NextSettled(
    env: Environment, init: Windows, delay: nat -> nat, patience: nat, items: seq<Item>, order: seq<nat>,
    start: nat, end: nat, past: seq<Action>, after: seq<Action>, outcomes: seq<Option<Outcome>>,
    marked: seq<Option<Outcome>>, outcome: Outcome)
    requires Sound(init) && OnePlaceEach(items) && Ordering(items, order) && Stretch(items, order, start, end)
    requires Picks(items, order[start..end]) && past <= after
    requires
      var id, ts := IdOf(items, order, start), Targets(items, order[start..end]);
      && TrueMoves(OnWorkspace(Desktop(init, past), id), after[|past|..], ts)
      && (outcome.Unsupported? <==> Stacked(ts))
      && (outcome.Applied? <==> !Stacked(ts) && MovableSet(OnWorkspace(init, id), id, Elements(ts)))
      && (outcome.Applied? ==> AllAtColumns(OnWorkspace(Desktop(init, after), id), id, ts))
    requires SettledSoFar(init, items, order, start, outcomes, Desktop(init, past))
    requires |marked| == |outcomes|
    requires forall i :: 0 <= i < |marked| ==> marked[i] == if i in order[start..end] then Some(outcome) else outcomes[i]
    ensures SettledSoFar(init, items, order, end, marked, Desktop(init, after))
  {
    var id, group := IdOf(items, order, start), order[start..end];
    StretchIsWhole(items, order, start, end);
    GroupSettles(init, items, group, id, outcome, Desktop(init, after));
    hide Stacked;
    hide Settled;
    hide Ordering;
    hide Stretch;
    hide MovableSet;
    hide AllAtColumns;
    hide TrueMoves;
    hide Sound;
    forall k | 0 <= k < end ensures Settled(init, items, order[k], marked[order[k]], Desktop(init, after)) {
      if k < start {
        var h := after[|past|..];
        assert past + h == after && h[..|h|] == h;
        assert !InGroup(items, order[k], id);
        OthersStay(init, past, h, |h|, id, Targets(items, group), IdOf(items, order, k));
        StaysSettled(init, items, order[k], outcomes[order[k]], Desktop(init, past), Desktop(init, after));
      } else {
        assert group[k - start] == order[k];
        assert InGroup(items, order[k], id);
      }
    }
  }

  /** The members of a stretch are told the same, and some part of the history bears it out. */
  ghost predicate StretchTold(
    env: Environment, history: seq<Action>, items: seq<Item>, order: seq<nat>, start: nat, end: nat, patience: nat,
    outcomes: seq<Option<Outcome>>)
  {
    && Picks(items, order) && Stretch(items, order, start, end) && Picks(items, order[start..end])
    && |outcomes| == |items| && outcomes[order[start]].Some?
    && (forall k :: start <= k < end ==> outcomes[order[k]] == outcomes[order[start]])
    && exists from: nat, to: nat ::
         GroupTold(env, history, from, to, IdOf(items, order, start), patience, Targets(items, order[start..end]),
                   outcomes[order[start]].value)
  }

  ghost predicate AllTold(
    env: Environment, history: seq<Action>, items: seq<Item>, order: seq<nat>, done: nat, patience: nat,
    outcomes: seq<Option<Outcome>>)
    requires Picks(items, order)
  {
    forall start: nat, end: nat :: Stretch(items, order, start, end) && end <= done ==>
      StretchTold(env, history, items, order, start, end, patience, outcomes)
  }

  lemma GroupToldLater(
    env: Environment, history: seq<Action>, later: seq<Action>, from: nat, to: nat, id: string, patience: nat,
    ts: seq<Target>, outcome: Outcome)
    requires GroupTold(env, history, from, to, id, patience, ts, outcome) && history <= later
    ensures GroupTold(env, later, from, to, id, patience, ts, outcome)
  {
    assert later[from..to] == history[from..to] && later[..from] == history[..from] && later[..to] == history[..to];
    assert from + 1 < to ==> later[..to - 1] == history[..to - 1];
    hide Justified;
    hide Stacked;
    hide Blamed;
    hide AtColumn;
    hide OnWorkspace;
  }

  lemma StretchToldLater(
    env: Environment, history: seq<Action>, later: seq<Action>, items: seq<Item>, order: seq<nat>, start: nat,
    end: nat, patience: nat, outcomes: seq<Option<Outcome>>, marked: seq<Option<Outcome>>)
    requires StretchTold(env, history, items, order, start, end, patience, outcomes) && history <= later
    requires |marked| == |outcomes| && forall k :: start <= k < end ==> marked[order[k]] == outcomes[order[k]]
    ensures StretchTold(env, later, items, order, start, end, patience, marked)
  {
    hide GroupTold;
    var id, ts, outcome := IdOf(items, order, start), Targets(items, order[start..end]), outcomes[order[start]].value;
    var from: nat, to: nat :| GroupTold(env, history, from, to, id, patience, ts, outcome);
    GroupToldLater(env, history, later, from, to, id, patience, ts, outcome);
  }

  /** Maximal stretches do not overlap. */
  lemma StretchesApart(items: seq<Item>, order: seq<nat>, start: nat, end: nat, s: nat, e: nat)
    requires Picks(items, order) && Stretch(items, order, start, end) && Stretch(items, order, s, e) && e <= end
    ensures e <= start || (s == start && e == end)
  {
  }

  lemma StretchUntouched(items: seq<Item>, order: seq<nat>, start: nat, end: nat, s: nat, e: nat)
    requires Picks(items, order) && Stretch(items, order, start, end) && Stretch(items, order, s, e) && e <= start
    ensures forall k :: s <= k < e ==> order[k] !in order[start..end]
  {
    var group := order[start..end];
    assert forall l :: 0 <= l < |group| ==> group[l] == order[start + l];
  }

  lemma StretchMarked(
    env: Environment, history: seq<Action>, items: seq<Item>, order: seq<nat>, start: nat, end: nat, from: nat,
    to: nat, patience: nat, outcome: Outcome, marked: seq<Option<Outcome>>)
    requires Picks(items, order) && Stretch(items, order, start, end) && Picks(items, order[start..end])
    requires
      GroupTold(env, history, from, to, IdOf(items, order, start), patience, Targets(items, order[start..end]), outcome)
    requires |marked| == |items| && forall i :: i in order[start..end] ==> marked[i] == Some(outcome)
    ensures StretchTold(env, history, items, order, start, end, patience, marked)
  {
    forall k | start <= k < end ensures marked[order[k]] == Some(outcome) {
      assert order[start..end][k - start] == order[k];
    }
    hide GroupTold;
  }

  lemma NextTold(
    env: Environment, past: seq<Action>, after: seq<Action>, items: seq<Item>, order: seq<nat>, start: nat, end: nat,
    patience: nat, outcomes: seq<Option<Outcome>>, marked: seq<Option<Outcome>>, outcome: Outcome)
    requires Picks(items, order) && Stretch(items, order, start, end) && Picks(items, order[start..end])
    requires AllTold(env, past, items, order, start, patience, outcomes) && past <= after
    requires
      GroupTold(env, after, |past|, |after|, IdOf(items, order, start), patience, Targets(items, order[start..end]), outcome)
    requires |marked| == |outcomes| == |items|
    requires forall i :: 0 <= i < |marked| ==> marked[i] == if i in order[start..end] then Some(outcome) else outcomes[i]
    ensures AllTold(env, after, items, order, end, patience, marked)
  {
    hide GroupTold;
    hide StretchTold;
    hide Stretch;
    forall s: nat, e: nat | Stretch(items, order, s, e) && e <= end
      ensures StretchTold(env, after, items, order, s, e, patience, marked)
    {
      StretchesApart(items, order, start, end, s, e);
      StretchFits(items, order, s, e);
      if e <= start {
        StretchUntouched(items, order, start, end, s, e);
        StretchToldLater(env, past, after, items, order, s, e, patience, outcomes, marked);
      } else {
        StretchMarked(env, after, items, order, start, end, |past|, |after|, patience, outcome, marked);
      }
    }
  }

  /**
   Two observations just before an action show the same of a workspace, and on it the window of an
   item that the action is for: a move finds it focused and takes it to its captured column.
   */
  ghost predicate ItemAct(env: Environment, h: seq<Action>, i: nat, a: Action, items: seq<Item>)
    requires i <= |h|
  {
    && i > 1 && h[i - 1] == h[i - 2] == Observe && env.windows(h[..i - 1]).Some? && env.windows(h[..i]).Some?
    && ActsOnSome(env.windows(h[..i - 1]).value, env.windows(h[..i]).value, a, items)
  }

  ghost predicate ActsOnSome(before: Windows, all: Windows, a: Action, items: seq<Item>) {
    exists x :: ActsOn(before, all, a, items, x)
  }

  ghost predicate ActsOn(before: Windows, all: Windows, a: Action, items: seq<Item>, x: int) {
    && 0 <= x < |items| && Placeable(items[x])
    && var id := items[x].place.value.id;
       var w := Find(OnWorkspace(all, id), items[x].window);
       OnWorkspace(before, id) == OnWorkspace(all, id) && w.Some? && match a
                  case Focus(id) => items[x].window == id
                  case MoveColumn(c) => items[x].column == Some(c) && w.value.focused
                  case _ => true
  }

  ghost predicate ItemActs(env: Environment, h: seq<Action>, items: seq<Item>) {
    forall i :: 0 <= i < |h| && Acts(h[i]) ==> ItemAct(env, h, i, h[i], items)
  }

  lemma GroupActs(
    env: Environment, past: seq<Action>, h: seq<Action>, i: nat, items: seq<Item>, group: seq<nat>, id: string)
    requires Picks(items, group) && forall k :: 0 <= k < |group| ==> items[group[k]].place.value.id == id
    requires Justified(View(env, past, id), h, Targets(items, group)) && i < |h| && Acts(h[i])
    ensures ItemAct(env, past + h, |past| + i, h[i], items)
  {
    var ts, all := Targets(items, group), past + h;
    assert ActJustified(View(env, past, id), h, i, h[i], ts);
    assert all[..|past| + i] == past + h[..i] && all[|past| + i - 1] == h[i - 1];
    assert all[..|past| + i - 1] == past + h[..i - 1] && all[|past| + i - 2] == h[i - 2];
    var before, windows := env.windows(past + h[..i - 1]).value, env.windows(past + h[..i]).value;
    var t :| t in ts && Find(OnWorkspace(windows, id), t.window).Some?
             && match h[i]
                case Focus(w) => t.window == w
                case MoveColumn(c) => t.column == c && Find(OnWorkspace(windows, id), t.window).value.focused
                case _ => true;
    var k :| 0 <= k < |ts| && ts[k] == t;
    assert ActsOn(before, windows, h[i], items, group[k]);
  }

  lemma ItemActLater(env: Environment, past: seq<Action>, after: seq<Action>, i: nat, items: seq<Item>)
    requires past <= after && i < |past| && ItemAct(env, past, i, past[i], items)
    ensures ItemAct(env, after, i, after[i], items)
  {
    assert after[..i] == past[..i] && (i > 0 ==> after[..i - 1] == past[..i - 1]);
    hide ActsOnSome;
  }

  lemma NextActs(
    env: Environment, past: seq<Action>, after: seq<Action>, items: seq<Item>, order: seq<nat>, start: nat, end: nat,
    patience: nat, outcome: Outcome)
    requires Picks(items, order) && Stretch(items, order, start, end) && Picks(items, order[start..end])
    requires ItemActs(env, past, items) && past <= after
    requires
      GroupTold(env, after, |past|, |after|, IdOf(items, order, start), patience, Targets(items, order[start..end]), outcome)
    ensures ItemActs(env, after, items)
  {
    var id, group, h := IdOf(items, order, start), order[start..end], after[|past|..];
    assert after[|past|..|after|] == h && after[..|past|] == past && past + h == after;
    assert Justified(View(env, past, id), h, Targets(items, group));
    forall k | 0 <= k < |group| ensures items[group[k]].place.value.id == id {
      assert IdOf(items, order, start + k) == id;
    }
    hide GroupTold;
    hide Justified;
    hide ItemAct;
    forall i | 0 <= i < |after| && Acts(after[i]) ensures ItemAct(env, after, i, after[i], items) {
      if i < |past| {
        assert ItemAct(env, past, i, past[i], items);
        ItemActLater(env, past, after, i, items);
      } else {
        GroupActs(env, past, h, i - |past|, items, group, id);
      }
    }
  }

  /** Orders the groups one after the other. */
  method OrderGroups(
    env: Environment, patience: nat, items: seq<Item>, order: seq<nat>, unmarked: seq<Option<Outcome>>,
    ghost init: Windows, ghost delay: nat -> nat)
    returns (outcomes: seq<Option<Outcome>>, history: seq<Action>)
    requires Ordering(items, order) && Picks(items, order) && |unmarked| == |items|
    ensures |outcomes| == |items| && forall i :: 0 <= i < |items| && !Placeable(items[i]) ==> outcomes[i] == unmarked[i]
    ensures AllTold(env, history, items, order, |order|, patience, outcomes)
    ensures ItemActs(env, history, items)
    ensures Ideal(env, init, delay, patience, items) ==>
      SettledSoFar(init, items, order, |order|, outcomes, Desktop(init, history))
    ensures order == [] ==> history == []
  {
    hide *;
    outcomes, history := unmarked, [];
    var start := 0;
    NothingSettled(init, items, order, outcomes, Desktop(init, history));
    NothingTold(env, init, delay, items, order, patience, outcomes);
    while start < |order|
      invariant start <= |order| && |outcomes| == |items|
      invariant forall i :: 0 <= i < |items| && !Placeable(items[i]) ==> outcomes[i] == unmarked[i]
      invariant 0 < start < |order| ==> IdOf(items, order, start - 1) != IdOf(items, order, start)
      invariant AllTold(env, history, items, order, start, patience, outcomes)
      invariant ItemActs(env, history, items)
      invariant Ideal(env, init, delay, patience, items) ==>
        && SettledSoFar(init, items, order, start, outcomes, Desktop(init, history))
        && DesktopShown(init, delay, history) == Desktop(init, history)
      invariant order == [] ==> history == []
    {
      var end := FindEnd(items, order, start);
      StretchBounds(items, order, start, end);
      var group := order[start..end];
      ghost var id, ts := IdOf(items, order, start), Targets(items, group);
      var outcome, after := OrderOne(env, history, IdOf(items, order, start), patience, Targets(items, group), init, delay);
      var marked := MarkAll(outcomes, group, outcome);
      NextTold(env, history, after, items, order, start, end, patience, outcomes, marked, outcome);
      NextActs(env, history, after, items, order, start, end, patience, outcome);
      if Ideal(env, init, delay, patience, items) {
        IdealIsTimely(env, init, delay, patience, items);
        AppliedGroup(env, init, delay, patience, history, after, id, ts, outcome);
        NextSettled(env, init, delay, patience, items, order, start, end, history, after, outcomes, marked, outcome);
      }
      outcomes, history, start := marked, after, end;
    }
  }

  lemma NothingTold(
    env: Environment, init: Windows, delay: nat -> nat, items: seq<Item>, order: seq<nat>, patience: nat,
    outcomes: seq<Option<Outcome>>)
    requires Picks(items, order)
    ensures AllTold(env, [], items, order, 0, patience, outcomes) && ItemActs(env, [], items)
    ensures DesktopShown(init, delay, []) == Desktop(init, [])
  {
  }

  lemma OrderingPicks(items: seq<Item>, order: seq<nat>)
    requires Ordering(items, order)
    ensures Picks(items, order)
  {
  }

  lemma NothingSettled(
    init: Windows, items: seq<Item>, order: seq<nat>, outcomes: seq<Option<Outcome>>, all: Windows)
    requires Picks(items, order) && |outcomes| == |items|
    ensures SettledSoFar(init, items, order, 0, outcomes, all)
  {
  }

  lemma StretchBounds(items: seq<Item>, order: seq<nat>, start: nat, end: nat)
    requires Picks(items, order) && Stretch(items, order, start, end)
    ensures start < end <= |order| && Picks(items, order[start..end])
    ensures end < |order| ==> IdOf(items, order, end - 1) != IdOf(items, order, end)
    ensures forall k :: 0 <= k < end - start ==> order[start..end][k] < |items|
    ensures forall i :: i in order[start..end] ==> 0 <= i < |items| && Placeable(items[i])
  {
    StretchPicks(items, order, start, end);
    if end < |order| {
      assert IdOf(items, order, end - 1) == IdOf(items, order, start);
    }
    var group := order[start..end];
    forall i | i in group ensures 0 <= i < |items| && Placeable(items[i]) {
      var l :| 0 <= l < |group| && group[l] == i;
    }
  }

  lemma IdealIsTimely(env: Environment, init: Windows, delay: nat -> nat, patience: nat, items: seq<Item>)
    requires Ideal(env, init, delay, patience, items)
    ensures TimelyDesktop(env, init, delay, patience) && Sound(init) && OnePlaceEach(items)
  {
    hide Sound;
    hide OnePlaceEach;
  }

  /** The outcome of an item that cannot be ordered at all. */
  function Unordered(item: Item, available: bool): Option<Outcome> {
    if item.column.None? then None
    else if item.place.None? || !available then Some(Unsupported)
    else None
  }

  /** Some observation shows the item where it was captured. */
  ghost predicate SeenInPlace(env: Environment, history: seq<Action>, item: Item) {
    exists n: nat :: ShowsInPlace(env, history, n, item)
  }

  ghost predicate ShowsInPlace(env: Environment, history: seq<Action>, n: nat, item: Item) {
    && 0 < n <= |history| && history[n - 1] == Observe && env.windows(history[..n]).Some?
    && Placeable(item) && InPlace(env.windows(history[..n]).value, item)
  }

  /**
   Orders the columns of a plan's targets on all their workspaces, then gives the focus back.
   An item without a captured column is told nothing, one without a workspace that it is not
   supported.

   Whatever the environment does, the items of one maximal stretch of a workspace are told the same,
   and the history bears it out: they are unsupported exactly if their captured layout needs
   stacking, applied only if an observation showed every one of them in its column, and told an error
   only if what was seen or refused justifies it.  The first `worked` actions order columns, each for
   an item that the observation just before it shows; the rest gives the focus back.

   Under a timely compositor, when every workspace identifier stands for one place, an item is told
   that it was applied if and only if its workspace's captured layout needs no stacking and its
   targets are observable there in pairwise distinct columns; and then it stands in its captured
   column at the end, whatever was done to the other workspaces in between, with the focus where
   it was.
   */
  method OrderColumns(
    env: Environment, available: bool, patience: nat, items: seq<Item>, focused: int,
    ghost init: Windows, ghost delay: nat -> nat)
    returns (outcomes: seq<Option<Outcome>>, history: seq<Action>, ghost order: seq<nat>, ghost worked: nat)
    ensures |outcomes| == |items| && Picks(items, order) && Ordering(items, order)
    ensures forall i :: 0 <= i < |items| && (!Placeable(items[i]) || !available) ==>
      outcomes[i] == Unordered(items[i], available)
    ensures !available || (forall i :: 0 <= i < |items| ==> !Placeable(items[i])) ==> history == []
    ensures worked <= |history| && ItemActs(env, history[..worked], items)
    ensures if focused <= 0 || history == [] then worked == |history| else FocusGivenBack(env, history, worked, focused, patience)
    ensures available ==> forall start: nat, end: nat :: Stretch(items, order, start, end) ==>
      StretchTold(env, history, items, order, start, end, patience, outcomes)
    ensures forall i :: 0 <= i < |items| && outcomes[i] == Some(Applied) ==> SeenInPlace(env, history, items[i])
    ensures available && TimelyDesktop(env, init, delay, patience) && OnePlaceEach(items) ==>
      && (forall i :: 0 <= i < |items| && Placeable(items[i]) ==>
            Settled(init, items, i, outcomes[i], Desktop(init, history)))
      && (focused > 0 && history != [] ==>
            forall w <- Desktop(init, history) :: w.focused <==> w.id == focused)
  {
    hide *;
    outcomes := seq(|items|, i requires 0 <= i < |items| => Unordered(items[i], available));
    history := [];
    var listed := SortByPlace(items);
    order, worked := listed, 0;
    IsOrdering(items, order);
    Untold(env, items, order, outcomes, available);
    if available && |listed| > 0 {
      ghost var unmarked := outcomes;
      outcomes, history := OrderGroups(env, patience, items, listed, outcomes, init, delay);
      worked := |history|;
      ghost var ordered := history;
      if focused > 0 {
        history := RestoreFocus(env, history, focused, patience, init);
        FocusedOnly(Desktop(init, ordered), focused);
        if Ideal(env, init, delay, patience, items) {
          FocusSettled(init, items, order, outcomes, Desktop(init, ordered), focused);
        }
      }
      assert history[..worked] == ordered;
      ToldAll(env, ordered, history, items, order, patience, outcomes);
      AppliedIsSeen(env, history, items, order, patience, outcomes, unmarked);
      if Ideal(env, init, delay, patience, items) {
        AllSettled(init, items, order, outcomes, Desktop(init, history));
      }
      IdealIs(env, init, delay, patience, items);
    }
  }

  lemma Untold(env: Environment, items: seq<Item>, order: seq<nat>, outcomes: seq<Option<Outcome>>, available: bool)
    requires Ordering(items, order) && |outcomes| == |items|
    requires forall i :: 0 <= i < |items| ==> outcomes[i] == Unordered(items[i], available)
    ensures ItemActs(env, [], items)
    ensures forall i :: 0 <= i < |items| ==> outcomes[i] != Some(Applied)
    ensures order == [] ==> forall i :: 0 <= i < |items| ==> !Placeable(items[i])
    ensures order == [] ==> forall start: nat, end: nat :: !Stretch(items, order, start, end)
    ensures order != [] ==> order[0] < |items| && Placeable(items[order[0]])
  {
    forall i | 0 <= i < |items| && Placeable(items[i]) ensures order != [] {
      Picked(items, order, i);
    }
  }

  lemma ToldAll(
    env: Environment, history: seq<Action>, later: seq<Action>, items: seq<Item>, order: seq<nat>, patience: nat,
    outcomes: seq<Option<Outcome>>)
    requires Picks(items, order) && AllTold(env, history, items, order, |order|, patience, outcomes) && history <= later
    ensures forall start: nat, end: nat :: Stretch(items, order, start, end) ==>
      StretchTold(env, later, items, order, start, end, patience, outcomes)
  {
    forall start: nat, end: nat | Stretch(items, order, start, end)
      ensures StretchTold(env, later, items, order, start, end, patience, outcomes)
    {
      StretchFits(items, order, start, end);
      StretchToldLater(env, history, later, items, order, start, end, patience, outcomes, outcomes);
    }
  }

  lemma StretchFits(items: seq<Item>, order: seq<nat>, start: nat, end: nat)
    requires Picks(items, order) && Stretch(items, order, start, end)
    ensures end <= |order| && forall k :: start <= k < end ==> order[k] < |items|
  {
  }

  /** Every item to order belongs to a maximal stretch. */
  lemma {:induction false} StretchOf(items: seq<Item>, order: seq<nat>, k: nat) returns (start: nat, end: nat)
    requires Picks(items, order) && k < |order|
    ensures Stretch(items, order, start, end) && start <= k < end
  {
    start, end := k, k + 1;
    while start > 0 && IdOf(items, order, start - 1) == IdOf(items, order, k)
      invariant start <= k && forall l :: start <= l <= k ==> IdOf(items, order, l) == IdOf(items, order, k)
    {
      start := start - 1;
    }
    while end < |order| && IdOf(items, order, end) == IdOf(items, order, k)
      invariant k < end <= |order| && forall l :: start <= l < end ==> IdOf(items, order, l) == IdOf(items, order, k)
    {
      end := end + 1;
    }
  }

  lemma AppliedIsSeen(
    env: Environment, history: seq<Action>, items: seq<Item>, order: seq<nat>, patience: nat,
    outcomes: seq<Option<Outcome>>, unmarked: seq<Option<Outcome>>)
    requires Ordering(items, order) && |outcomes| == |unmarked| == |items|
    requires forall start: nat, end: nat :: Stretch(items, order, start, end) ==>
      StretchTold(env, history, items, order, start, end, patience, outcomes)
    requires forall i :: 0 <= i < |items| && !Placeable(items[i]) ==> outcomes[i] == unmarked[i]
    requires forall i :: 0 <= i < |items| ==> unmarked[i] != Some(Applied)
    ensures forall i :: 0 <= i < |items| && outcomes[i] == Some(Applied) ==> SeenInPlace(env, history, items[i])
  {
    forall i | 0 <= i < |items| && outcomes[i] == Some(Applied) ensures SeenInPlace(env, history, items[i]) {
      Picked(items, order, i);
      var k :| 0 <= k < |order| && order[k] == i;
      var start, end := StretchOf(items, order, k);
      StretchIsSeen(env, history, items, order, start, end, patience, outcomes, k);
    }
  }

  lemma StretchIsSeen(
    env: Environment, history: seq<Action>, items: seq<Item>, order: seq<nat>, start: nat, end: nat, patience: nat,
    outcomes: seq<Option<Outcome>>, k: nat)
    requires StretchTold(env, history, items, order, start, end, patience, outcomes)
    requires start <= k < end && outcomes[order[k]] == Some(Applied)
    ensures SeenInPlace(env, history, items[order[k]])
  {
    var id, ts := IdOf(items, order, start), Targets(items, order[start..end]);
    assert outcomes[order[k]] == outcomes[order[start]];
    var from: nat, to: nat :| GroupTold(env, history, from, to, id, patience, ts, outcomes[order[start]].value);
    assert ts[k - start] in ts && order[start..end][k - start] == order[k];
    assert IdOf(items, order, k) == id;
    hide AtColumn;
    hide OnWorkspace;
    hide Justified;
    assert ShowsInPlace(env, history, to, items[order[k]]);
  }

  lemma IdealIs(env: Environment, init: Windows, delay: nat -> nat, patience: nat, items: seq<Item>)
    ensures Ideal(env, init, delay, patience, items) <==> TimelyDesktop(env, init, delay, patience) && OnePlaceEach(items)
  {
    hide TimelyDesktop;
    hide OnePlaceEach;
  }

  lemma IsOrdering(items: seq<Item>, order: seq<nat>)
    requires Picks(items, order) && ByPlace(Places(items, order))
    requires forall i: nat :: i in order <==> i < |items| && Placeable(items[i])
    ensures Ordering(items, order)
  {
  }

  lemma FocusedOnly(all: Windows, id: int)
    ensures forall w <- FocusOn(all, id) :: w.focused <==> w.id == id
  {
  }

  lemma FocusSettled(
    init: Windows, items: seq<Item>, order: seq<nat>, outcomes: seq<Option<Outcome>>, all: Windows, id: int)
    requires SettledSoFar(init, items, order, |order|, outcomes, all)
    ensures SettledSoFar(init, items, order, |order|, outcomes, FocusOn(all, id))
  {
    hide Settled;
    forall k | 0 <= k < |order| ensures Settled(init, items, order[k], outcomes[order[k]], FocusOn(all, id)) {
      var place := items[order[k]].place.value.id;
      FocusOnWorkspace(all, id, place);
      FocusKeepsColumns(OnWorkspace(all, place), id);
      StaysSettled(init, items, order[k], outcomes[order[k]], all, FocusOn(all, id));
    }
  }

  lemma AllSettled(init: Windows, items: seq<Item>, order: seq<nat>, outcomes: seq<Option<Outcome>>, all: Windows)
    requires Ordering(items, order) && SettledSoFar(init, items, order, |order|, outcomes, all)
    ensures forall i :: 0 <= i < |items| && Placeable(items[i]) ==> Settled(init, items, i, outcomes[i], all)
  {
    hide Settled;
    forall i | 0 <= i < |items| && Placeable(items[i]) ensures Settled(init, items, i, outcomes[i], all) {
      Picked(items, order, i);
    }
  }
}
