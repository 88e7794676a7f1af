/**
 Rolling checkpoints: their order and pruning (internal/checkpoints/store.go) against the two
 selections a later resume makes (internal/resume/planner.go, planner_all.go).
 */
module Checkpoints {
  import opened Wrappers
  import opened Texts

  type Time = int

  const ZERO_TIME: Time := 0

  /** `terminals` and `sessions` count the terminal windows and active sessions it holds. */
  datatype Checkpoint = Checkpoint(
    boot: string, host: string, profile: string, observedAt: Time, terminals: nat, sessions: nat)

  predicate SameOwner(a: Checkpoint, b: Checkpoint) { a.host == b.host && a.profile == b.profile }

  /** A file name is derived from boot, host and profile, so no two files share all three. */
  ghost predicate OneFileEach(files: seq<Checkpoint>) {
    forall i, j :: 0 <= i < j < |files| ==> !(files[i].boot == files[j].boot && SameOwner(files[i], files[j]))
  }

  // ---------------------------------------------------------------- the order of a listing

  predicate Before(a: Checkpoint, b: Checkpoint) {
    if a.observedAt != b.observedAt then a.observedAt < b.observedAt
    else if a.host != b.host then Less(a.host, b.host)
    else if a.profile != b.profile then Less(a.profile, b.profile)
    else Less(a.boot, b.boot)
  }

  lemma BeforeIsTotal(a: Checkpoint, b: Checkpoint)
    ensures Before(a, b) || Before(b, a) || (a.boot == b.boot && SameOwner(a, b) && a.observedAt == b.observedAt)
  {
    LessIsTotal(a.host, b.host);
    LessIsTotal(a.profile, b.profile);
    LessIsTotal(a.boot, b.boot);
  }

  lemma BeforeIsTransitive(a: Checkpoint, b: Checkpoint, c: Checkpoint)
    requires Before(a, b) && Before(b, c)
    ensures Before(a, c)
  {
    hide Less;
    if Less(a.host, b.host) && Less(b.host, c.host) {
      LessIsTransitive(a.host, b.host, c.host);
    }
    if Less(a.profile, b.profile) && Less(b.profile, c.profile) {
      LessIsTransitive(a.profile, b.profile, c.profile);
    }
    if Less(a.boot, b.boot) && Less(b.boot, c.boot) {
      LessIsTransitive(a.boot, b.boot, c.boot);
    }
    LessIsIrreflexive(a.host);
    LessIsIrreflexive(a.profile);
    NeverBothWays(a, b, c);
  }

  /** Equal ends of two strict steps would make a text less than itself. */
  lemma NeverBothWays(a: Checkpoint, b: Checkpoint, c: Checkpoint)
    ensures !(Less(a.host, b.host) && Less(b.host, a.host))
    ensures !(Less(a.profile, b.profile) && Less(b.profile, a.profile))
  {
    LessIsIrreflexive(a.host);
    LessIsIrreflexive(a.profile);
    if Less(a.host, b.host) && Less(b.host, a.host) {
      LessIsTransitive(a.host, b.host, a.host);
    }
    if Less(a.profile, b.profile) && Less(b.profile, a.profile) {
      LessIsTransitive(a.profile, b.profile, a.profile);
    }
  }

  lemma NotBeforeBack(a: Checkpoint, b: Checkpoint)
    requires Before(a, b)
    ensures !Before(b, a) && a != b
  {
    LessIsIrreflexive(a.boot);
    NeverBothWays(a, b, b);
    if Less(a.boot, b.boot) && Less(b.boot, a.boot) {
      LessIsTransitive(a.boot, b.boot, a.boot);
    }
  }

  ghost predicate Listed(list: seq<Checkpoint>) {
    forall i, j :: 0 <= i < j < |list| ==> Before(list[i], list[j])
  }

  // ---------------------------------------------------------------- selecting

  /** What a selection looks for; an empty host or profile stands for any. */
  datatype Options = Options(current: string, host: string, profile: string, now: Time, maxAge: int)

  predicate Owner(o: Options, c: Checkpoint) {
    (o.host == "" || c.host == o.host) && (o.profile == "" || c.profile == o.profile)
  }

  /** The three searches: Select's, and SelectAll's for the current boot and for a prior one. */
  datatype Search = Prior | AllCurrent | AllPrior

  predicate Matches(search: Search, o: Options, c: Checkpoint) {
    && Trim(c.boot) != "" && Owner(o, c)
    && match search
       case Prior => Trim(c.boot) != Trim(o.current)
       case AllCurrent => c.boot == Trim(o.current)
       case AllPrior => c.boot != Trim(o.current)
  }

  /** The first of the newest matching checkpoints of a list. */
  function Pick(list: seq<Checkpoint>, search: Search, o: Options): (r: Option<Checkpoint>)
    ensures r.Some? ==> r.value in list && Matches(search, o, r.value)
  {
    if list == [] then None
    else
      var n := |list| - 1;
      var before := Pick(list[..n], search, o);
      if Matches(search, o, list[n]) && (before.None? || list[n].observedAt > before.value.observedAt)
      then Some(list[n]) else before
  }

  datatype Status = NotFound | Ready | Stale | Empty

  datatype Source = Unsaid | CurrentActive | PriorActive

  datatype Selection = Selection(status: Status, source: Source, checkpoint: Option<Checkpoint>, age: int)

  function Age(observedAt: Time, now: Time): (age: int)
    ensures age >= 0
  {
    if now == ZERO_TIME || now < observedAt then 0 else now - observedAt
  }

  function Select(list: seq<Checkpoint>, o: Options): Selection {
    var c := Pick(list, Prior, o);
    if c.None? then Selection(NotFound, Unsaid, None, 0)
    else
      var age := Age(c.value.observedAt, o.now);
      var status := if o.maxAge > 0 && age > o.maxAge then Stale else if c.value.terminals == 0 then Empty else Ready;
      Selection(status, Unsaid, c, age)
  }

  function SelectAll(list: seq<Checkpoint>, o: Options): Selection {
    var current := Pick(list, AllCurrent, o);
    var prior := Pick(list, AllPrior, o);
    if current.Some? then Selection(Ready, CurrentActive, current, Age(current.value.observedAt, o.now))
    else if prior.None? then Selection(NotFound, PriorActive, None, 0)
    else
      var age := Age(prior.value.observedAt, o.now);
      var status := if prior.value.sessions == 0 then Empty else if o.maxAge > 0 && age > o.maxAge then Stale else Ready;
      Selection(status, PriorActive, prior, age)
  }

  /** The checkpoint a search has to find among all files, whatever their order. */
  ghost predicate Chosen(all: set<Checkpoint>, search: Search, o: Options, c: Checkpoint) {
    && c in all && Matches(search, o, c)
    && forall d <- all :: Matches(search, o, d) && d != c ==>
         d.observedAt < c.observedAt || (d.observedAt == c.observedAt && Before(c, d))
  }

  ghost function Elements(list: seq<Checkpoint>): set<Checkpoint> { set c | c in list }

  /** In any list the picked checkpoint is the first of the newest that match. */
  ghost predicate PickedAt(list: seq<Checkpoint>, search: Search, o: Options, k: int) {
    && 0 <= k < |list| && Pick(list, search, o) == Some(list[k])
    && forall j :: 0 <= j < |list| && Matches(search, o, list[j]) ==>
         list[j].observedAt < list[k].observedAt || (list[j].observedAt == list[k].observedAt && k <= j)
  }

  lemma {:induction false} FirstOfNewest(list: seq<Checkpoint>, search: Search, o: Options) returns (k: int)
    ensures
      if Pick(list, search, o).Some? then PickedAt(list, search, o, k)
      else forall d <- list :: !Matches(search, o, d)
  {
    k := 0;
    if list != [] {
      var n := |list| - 1;
      var head := list[..n];
      k := FirstOfNewest(head, search, o);
      PickStep(list, search, o);
      hide Matches;
      hide Pick;
      assert list == head + [list[n]];
      if Pick(head, search, o).Some? && Pick(list, search, o) == Pick(head, search, o) {
        StillFirst(head, list[n], search, o, k);
      } else {
        LastIsFirst(head, list[n], search, o, k);
        k := n;
      }
    }
  }

  /** The last one does not match, or is not newer than the first of the newest before it. */
  lemma StillFirst(head: seq<Checkpoint>, last: Checkpoint, search: Search, o: Options, k: int)
    requires PickedAt(head, search, o, k) && Pick(head + [last], search, o) == Pick(head, search, o)
    requires Matches(search, o, last) ==> last.observedAt <= head[k].observedAt
    ensures PickedAt(head + [last], search, o, k)
  {
    hide Matches;
    hide Pick;
  }

  /** The last one is newer than every match before it, or nothing matches at all. */
  lemma LastIsFirst(head: seq<Checkpoint>, last: Checkpoint, search: Search, o: Options, k: int)
    requires
      var before := Pick(head, search, o);
      var newer := Matches(search, o, last) && (before.Some? ==> last.observedAt > before.value.observedAt);
      && Pick(head + [last], search, o) == (if newer then Some(last) else before)
      && if before.Some? then PickedAt(head, search, o, k) && newer
         else forall d <- head :: !Matches(search, o, d)
    ensures
      if Pick(head + [last], search, o).Some? then PickedAt(head + [last], search, o, |head|)
      else forall d <- head + [last] :: !Matches(search, o, d)
  {
    hide Matches;
    hide Pick;
    forall j | 0 <= j < |head| ensures head[j] in head {
    }
  }

  lemma PickStep(list: seq<Checkpoint>, search: Search, o: Options)
    requires list != []
    ensures
      var last := list[|list| - 1];
      var before := Pick(list[..|list| - 1], search, o);
      Pick(list, search, o) ==
        if Matches(search, o, last) && (before.None? || last.observedAt > before.value.observedAt)
        then Some(last) else before
  {
    hide Matches;
  }

  lemma PickedIsNewest(list: seq<Checkpoint>, search: Search, o: Options)
    requires Listed(list)
    ensures Pick(list, search, o).None? ==> forall d <- list :: !Matches(search, o, d)
    ensures Pick(list, search, o).Some? ==> Chosen(Elements(list), search, o, Pick(list, search, o).value)
  {
    var k := FirstOfNewest(list, search, o);
    if Pick(list, search, o).Some? {
      var c := list[k];
      hide Matches;
      hide Before;
      hide Pick;
      forall d <- Elements(list) | Matches(search, o, d) && d != c
        ensures d.observedAt < c.observedAt || (d.observedAt == c.observedAt && Before(c, d))
      {
        var j :| 0 <= j < |list| && list[j] == d;
        assert k < j ==> Before(list[k], list[j]);
      }
    }
  }

  // ---------------------------------------------------------------- what a selection tells

  /** Of a named boot, and of the host and profile asked for. */
  ghost predicate Asked(o: Options, c: Checkpoint) {
    Trim(c.boot) != "" && (o.host != "" ==> c.host == o.host) && (o.profile != "" ==> c.profile == o.profile)
  }

  /** The first of the newest checkpoints of a list that are asked for and of a boot in question. */
  ghost predicate Newest(list: seq<Checkpoint>, o: Options, boots: string -> bool, k: int) {
    && 0 <= k < |list| && Asked(o, list[k]) && boots(list[k].boot)
    && forall j :: 0 <= j < |list| && Asked(o, list[j]) && boots(list[j].boot) ==>
         list[j].observedAt < list[k].observedAt || (list[j].observedAt == list[k].observedAt && k <= j)
  }

  ghost predicate NoneAsked(list: seq<Checkpoint>, o: Options, boots: string -> bool) {
    forall c <- list :: !(Asked(o, c) && boots(c.boot))
  }

  /** More time has passed since the checkpoint than a positive maximum age allows. */
  ghost predicate Outdated(o: Options, c: Checkpoint) {
    o.maxAge > 0 && o.now != ZERO_TIME && o.now - c.observedAt > o.maxAge
  }

  /** The age told is the time passed, or nothing when the clock is unset or behind. */
  ghost predicate AgeTold(o: Options, c: Checkpoint, age: int) {
    age == if o.now == ZERO_TIME || o.now < c.observedAt then 0 else o.now - c.observedAt
  }

  /**
   What the answer for one boot means: a prior checkpoint too old is stale whatever it holds, one
   that is not is ready if and only if it holds terminals.
   */
  ghost predicate SelectionTells(list: seq<Checkpoint>, o: Options, s: Selection) {
    var prior := (boot: string) => Trim(boot) != Trim(o.current);
    if s.status == NotFound then s.checkpoint.None? && NoneAsked(list, o, prior)
    else
      exists k :: Newest(list, o, prior, k) && s.checkpoint == Some(list[k]) && AgeTold(o, list[k], s.age)
                  && (s.status == Stale <==> Outdated(o, list[k]))
                  && (s.status == Empty <==> !Outdated(o, list[k]) && list[k].terminals == 0)
                  && (s.status == Ready <==> !Outdated(o, list[k]) && list[k].terminals > 0)
  }

  /**
   What the answer for all sessions means: a checkpoint of the current boot is ready whatever it
   holds; without one, a prior checkpoint without sessions is empty however old it is, and one
   with sessions is stale if and only if it is too old.
   */
  ghost predicate AllTells(list: seq<Checkpoint>, o: Options, s: Selection) {
    var current := (boot: string) => boot == Trim(o.current);
    var prior := (boot: string) => boot != Trim(o.current);
    if !NoneAsked(list, o, current) then
      s.status == Ready && s.source == CurrentActive
      && exists k :: Newest(list, o, current, k) && s.checkpoint == Some(list[k]) && AgeTold(o, list[k], s.age)
    else
      && s.source == PriorActive
      && if s.status == NotFound then s.checkpoint.None? && NoneAsked(list, o, prior)
         else
           exists k :: Newest(list, o, prior, k) && s.checkpoint == Some(list[k]) && AgeTold(o, list[k], s.age)
                       && (s.status == Empty <==> list[k].sessions == 0)
                       && (s.status == Stale <==> list[k].sessions > 0 && Outdated(o, list[k]))
                       && (s.status == Ready <==> list[k].sessions > 0 && !Outdated(o, list[k]))
  }

  lemma MatchIsAsked(search: Search, o: Options, c: Checkpoint)
    ensures Matches(search, o, c) <==>
      && Asked(o, c)
      && match search
         case Prior => Trim(c.boot) != Trim(o.current)
         case AllCurrent => c.boot == Trim(o.current)
         case AllPrior => c.boot != Trim(o.current)
  {
    hide Trim;
  }

  lemma PickIsNewest(list: seq<Checkpoint>, search: Search, o: Options, boots: string -> bool) returns (k: int)
    requires forall c <- list :: Matches(search, o, c) <==> Asked(o, c) && boots(c.boot)
    ensures
      var p := Pick(list, search, o);
      if p.Some? then Newest(list, o, boots, k) && p.value == list[k] else NoneAsked(list, o, boots)
  {
    k := FirstOfNewest(list, search, o);
    hide Matches;
    hide Asked;
    hide Pick;
  }

  lemma SelectTells(list: seq<Checkpoint>, o: Options)
    ensures SelectionTells(list, o, Select(list, o))
  {
    var prior := (boot: string) => Trim(boot) != Trim(o.current);
    forall c <- list ensures Matches(Prior, o, c) <==> Asked(o, c) && prior(c.boot) {
      MatchIsAsked(Prior, o, c);
    }
    var k := PickIsNewest(list, Prior, o, prior);
    hide Newest;
    hide NoneAsked;
    hide Trim;
    hide Pick;
    hide Matches;
  }

  lemma SelectAllTells(list: seq<Checkpoint>, o: Options)
    ensures AllTells(list, o, SelectAll(list, o))
  {
    var current := (boot: string) => boot == Trim(o.current);
    var prior := (boot: string) => boot != Trim(o.current);
    forall c <- list
      ensures Matches(AllCurrent, o, c) <==> Asked(o, c) && current(c.boot)
      ensures Matches(AllPrior, o, c) <==> Asked(o, c) && prior(c.boot)
    {
      MatchIsAsked(AllCurrent, o, c);
      MatchIsAsked(AllPrior, o, c);
    }
    var k := PickIsNewest(list, AllCurrent, o, current);
    var l := PickIsNewest(list, AllPrior, o, prior);
    NewestIsAsked(list, o, current, k);
    hide Newest;
    hide NoneAsked;
    hide Trim;
    hide Pick;
    hide Matches;
  }

  lemma NewestIsAsked(list: seq<Checkpoint>, o: Options, boots: string -> bool, k: int)
    ensures Newest(list, o, boots, k) ==> !NoneAsked(list, o, boots)
  {
  }

  // ---------------------------------------------------------------- pruning

  /** The newest checkpoint of an owner from another boot; the greatest boot ID decides a tie. */
  ghost predicate NewestPrior(files: set<Checkpoint>, current: string, c: Checkpoint) {
    && c in files && c.boot != current
    && forall d <- files :: d.boot != current && SameOwner(c, d) ==>
         d.observedAt < c.observedAt || (d.observedAt == c.observedAt && !Less(c.boot, d.boot))
  }

  /** What pruning keeps. */
  ghost predicate Kept(files: set<Checkpoint>, cutoff: Time, current: string, c: Checkpoint) {
    c in files && (c.boot == current || NewestPrior(files, current, c) || c.observedAt >= cutoff)
  }

  /** At least this newer than another prior checkpoint of its owner. */
  predicate Outranks(c: Checkpoint, d: Checkpoint) {
    c.observedAt > d.observedAt || (c.observedAt == d.observedAt && Less(d.boot, c.boot))
  }

  ghost function Outranking(files: set<Checkpoint>, current: string, c: Checkpoint): set<Checkpoint> {
    set d <- files | d.boot != current && SameOwner(c, d) && Outranks(d, c)
  }

  lemma OutranksIsTransitive(a: Checkpoint, b: Checkpoint, c: Checkpoint)
    requires Outranks(a, b) && Outranks(b, c)
    ensures Outranks(a, c)
  {
    hide Less;
    if Less(c.boot, b.boot) && Less(b.boot, a.boot) {
      LessIsTransitive(c.boot, b.boot, a.boot);
    }
  }

  lemma NeverOutranksItself(c: Checkpoint)
    ensures !Outranks(c, c)
  {
    LessIsIrreflexive(c.boot);
  }

  lemma FewerOutrank(files: set<Checkpoint>, current: string, c: Checkpoint, d: Checkpoint)
    requires d in Outranking(files, current, c)
    ensures |Outranking(files, current, d)| < |Outranking(files, current, c)|
  {
    NeverOutranksItself(d);
    hide Outranks;
    forall e <- Outranking(files, current, d) ensures e in Outranking(files, current, c) {
      OutranksIsTransitive(e, d, c);
    }
    Smaller(Outranking(files, current, d), Outranking(files, current, c), d);
  }

  lemma Smaller<T>(a: set<T>, b: set<T>, x: T)
    requires a <= b && x in b && x !in a
    ensures |a| < |b|
  {
    assert b == a + (b - a);
    assert x in b - a;
  }

  /** Every prior checkpoint has a newest one of its owner, at least as new. */
  lemma {:induction false} NewestPriorExists(files: set<Checkpoint>, current: string, c: Checkpoint)
    returns (p: Checkpoint)
    requires c in files && c.boot != current
    ensures NewestPrior(files, current, p) && SameOwner(c, p) && p.observedAt >= c.observedAt
    decreases |Outranking(files, current, c)|
  {
    hide Less;
    if d :| d in Outranking(files, current, c) {
      FewerOutrank(files, current, c, d);
      p := NewestPriorExists(files, current, d);
    } else {
      p := c;
      forall d <- files | d.boot != current && SameOwner(c, d) ensures !Outranks(d, c) {
        assert d !in Outranking(files, current, c);
      }
    }
  }

  /** Boot IDs as the capture stores them. */
  predicate TrimmedBoots(files: set<Checkpoint>) {
    forall c <- files :: Named(c.boot)
  }

  lemma MatchesOwner(search: Search, o: Options, c: Checkpoint, d: Checkpoint)
    requires Matches(search, o, c) && SameOwner(c, d) && Named(c.boot) && Named(d.boot)
    requires if search == AllCurrent then d.boot == Trim(o.current) else d.boot != Trim(o.current)
    ensures Matches(search, o, d)
  {
  }

  lemma MatchesBoot(search: Search, o: Options, c: Checkpoint)
    requires Matches(search, o, c) && Named(c.boot)
    ensures if search == AllCurrent then c.boot == Trim(o.current) else c.boot != Trim(o.current)
  {
  }

  /** Whatever more is left than pruning has to keep, a match as new as the newest is among it. */
  lemma NewestIsKept(
    files: set<Checkpoint>, left: set<Checkpoint>, cutoff: Time, search: Search, o: Options, c: Checkpoint)
    returns (d: Checkpoint)
    requires TrimmedBoots(files) && Chosen(files, search, o, c) && left <= files
    requires forall e <- files :: Kept(files, cutoff, Trim(o.current), e) ==> e in left
    ensures d in left && Matches(search, o, d) && d.observedAt == c.observedAt
    ensures search == AllCurrent ==> d == c
  {
    MatchesBoot(search, o, c);
    hide Trim;
    if search == AllCurrent {
      assert Kept(files, cutoff, Trim(o.current), c);
      return c;
    }
    d := NewestPriorExists(files, Trim(o.current), c);
    assert Kept(files, cutoff, Trim(o.current), d);
    MatchesOwner(search, o, c, d);
  }

  ghost predicate PrunedTo(files: set<Checkpoint>, left: set<Checkpoint>, cutoff: Time, current: string) {
    left <= files && forall c <- files :: Kept(files, cutoff, current, c) ==> c in left
  }

  /**
   Pruning, even when it stops early, never changes how recent the recovery point is that a
   search finds, nor which one it finds for the current boot.
   */
  lemma PickKeepsItsTime(before: seq<Checkpoint>, after: seq<Checkpoint>, cutoff: Time, search: Search, o: Options)
    requires Listed(before) && Listed(after) && TrimmedBoots(Elements(before))
    requires PrunedTo(Elements(before), Elements(after), cutoff, Trim(o.current))
    ensures Pick(after, search, o).Some? <==> Pick(before, search, o).Some?
    ensures Pick(after, search, o).Some? ==>
      Pick(after, search, o).value.observedAt == Pick(before, search, o).value.observedAt
    ensures search == AllCurrent ==> Pick(after, search, o) == Pick(before, search, o)
  {
    PickedIsNewest(before, search, o);
    PickedIsNewest(after, search, o);
    hide Matches;
    hide Before;
    hide Trim;
    hide TrimmedBoots;
    hide Kept;
    var was, found := Pick(before, search, o), Pick(after, search, o);
    if was.Some? {
      var d := NewestIsKept(Elements(before), Elements(after), cutoff, search, o, was.value);
      hide Pick;
      assert found.Some?;
      if search == AllCurrent {
        SameChoice(Elements(before), Elements(after), search, o, was.value, found.value);
      }
    }
  }

  /** The choice among all is the choice among those left, if it is left. */
  lemma SameChoice(
    files: set<Checkpoint>, left: set<Checkpoint>, search: Search, o: Options, c: Checkpoint, d: Checkpoint)
    requires Chosen(files, search, o, c) && Chosen(left, search, o, d) && left <= files && c in left
    ensures c == d
  {
    hide Matches;
    hide Before;
    if c != d && Before(c, d) {
      NotBeforeBack(c, d);
    }
  }

  /** The selections' recovery points are as recent after pruning as before, and equally old. */
  lemma PruningKeepsTheTime(before: seq<Checkpoint>, after: seq<Checkpoint>, cutoff: Time, o: Options)
    requires Listed(before) && Listed(after) && TrimmedBoots(Elements(before))
    requires PrunedTo(Elements(before), Elements(after), cutoff, Trim(o.current))
    ensures SameTime(Select(before, o), Select(after, o)) && SameTime(SelectAll(before, o), SelectAll(after, o))
    ensures SelectAll(before, o).source == CurrentActive ==> SelectAll(after, o) == SelectAll(before, o)
  {
    PickKeepsItsTime(before, after, cutoff, Prior, o);
    PickKeepsItsTime(before, after, cutoff, AllCurrent, o);
    PickKeepsItsTime(before, after, cutoff, AllPrior, o);
    hide Pick;
    hide PrunedTo;
    hide TrimmedBoots;
  }

  ghost predicate SameTime(a: Selection, b: Selection) {
    && a.source == b.source && a.age == b.age && (a.status == NotFound <==> b.status == NotFound)
    && (a.checkpoint.Some? <==> b.checkpoint.Some?)
    && (a.checkpoint.Some? ==> a.checkpoint.value.observedAt == b.checkpoint.value.observedAt)
  }

  // ---------------------------------------------------------------- exactly when the choice stays

  /** Another match was observed at the same time. */
  ghost predicate Tied(files: set<Checkpoint>, search: Search, o: Options, c: Checkpoint) {
    exists d <- files :: d != c && Matches(search, o, d) && d.observedAt == c.observedAt
  }

  lemma TieLoses(files: set<Checkpoint>, cutoff: Time, search: Search, o: Options, c: Checkpoint)
    requires search != AllCurrent && o.host != "" && o.profile != "" && TrimmedBoots(files)
    requires Chosen(files, search, o, c) && Tied(files, search, o, c) && c.observedAt < cutoff
    ensures !Kept(files, cutoff, Trim(o.current), c)
  {
    var d :| d in files && d != c && Matches(search, o, d) && d.observedAt == c.observedAt;
    MatchesBoot(search, o, c);
    MatchesBoot(search, o, d);
    assert Before(c, d) && SameOwner(c, d);
    hide Less;
    hide Trim;
    assert Less(c.boot, d.boot);
  }

  lemma UntiedStays(files: set<Checkpoint>, cutoff: Time, search: Search, o: Options, c: Checkpoint)
    requires search != AllCurrent && TrimmedBoots(files)
    requires Chosen(files, search, o, c) && (!Tied(files, search, o, c) || c.observedAt >= cutoff)
    ensures Kept(files, cutoff, Trim(o.current), c)
  {
    MatchesBoot(search, o, c);
    hide Trim;
    if c.observedAt < cutoff {
      var p := NewestPriorExists(files, Trim(o.current), c);
      MatchesOwner(search, o, c, p);
      assert p in files;
    }
  }

  ghost function KeptSet(files: set<Checkpoint>, cutoff: Time, current: string): set<Checkpoint> {
    set c <- files | Kept(files, cutoff, current, c)
  }

  /**
   For a fixed host and profile pruning leaves a prior-boot selection as it was if and only if
   there is none, or it is not expired, or no other prior boot was observed at the same time:
   a listing prefers the smallest boot ID of a tie, pruning the greatest.
   */
  lemma PruningKeepsTheChoice(before: seq<Checkpoint>, after: seq<Checkpoint>, cutoff: Time, search: Search, o: Options)
    requires search != AllCurrent && o.host != "" && o.profile != ""
    requires Listed(before) && Listed(after) && TrimmedBoots(Elements(before))
    requires Elements(after) == KeptSet(Elements(before), cutoff, Trim(o.current))
    ensures
      var was := Pick(before, search, o);
      Pick(after, search, o) == was <==>
        was.None? || was.value.observedAt >= cutoff || !Tied(Elements(before), search, o, was.value)
  {
    PickKeepsItsTime(before, after, cutoff, search, o);
    PickedIsNewest(before, search, o);
    PickedIsNewest(after, search, o);
    var was, found := Pick(before, search, o), Pick(after, search, o);
    hide Pick;
    hide Trim;
    hide TrimmedBoots;
    if was.Some? {
      if was.value.observedAt >= cutoff || !Tied(Elements(before), search, o, was.value) {
        UntiedStays(Elements(before), cutoff, search, o, was.value);
        hide Kept;
        hide Chosen;
        SameChoice(Elements(before), Elements(after), search, o, was.value, found.value);
      } else {
        TieLoses(Elements(before), cutoff, search, o, was.value);
        hide Kept;
        assert was.value !in Elements(after);
      }
    }
  }

  const FIRST := Checkpoint("a", "h", "p", 5, 1, 1)
  const SECOND := Checkpoint("b", "h", "p", 5, 1, 1)
  const EXPIRED := Options("c", "h", "p", ZERO_TIME, 0)

  /** Two expired checkpoints of one time: the selection prefers the first, pruning keeps the second. */
  lemma TieChangesTheChoice()
    ensures Listed([FIRST, SECOND]) && TrimmedBoots({FIRST, SECOND}) && Tied({FIRST, SECOND}, Prior, EXPIRED, FIRST)
    ensures Pick([FIRST, SECOND], Prior, EXPIRED) == Some(FIRST)
    ensures KeptSet({FIRST, SECOND}, 20, Trim(EXPIRED.current)) == {SECOND}
    ensures Pick([SECOND], Prior, EXPIRED) == Some(SECOND)
  {
    TiedMatches();
    TiedKept();
    assert FIRST.observedAt == SECOND.observedAt && EXPIRED.current == "c";
    hide *;
    PickOne(FIRST, Prior, EXPIRED);
    PickOne(SECOND, Prior, EXPIRED);
    PickStep([FIRST, SECOND], Prior, EXPIRED);
    assert [FIRST, SECOND][..1] == [FIRST];
    TiedPair();
    OneKept({FIRST, SECOND}, 20, Trim("c"), FIRST, SECOND);
  }

  lemma PickOne(c: Checkpoint, search: Search, o: Options)
    ensures Pick([c], search, o) == if Matches(search, o, c) then Some(c) else None
  {
    PickStep([c], search, o);
    assert [c][..0] == [];
    hide Matches;
  }

  lemma TiedPair()
    ensures Listed([FIRST, SECOND]) && Tied({FIRST, SECOND}, Prior, EXPIRED, FIRST)
  {
    TiedMatches();
    assert Less("a", "b");
    hide Less;
    hide Matches;
    assert Before(FIRST, SECOND);
  }

  lemma OneKept(files: set<Checkpoint>, cutoff: Time, current: string, lost: Checkpoint, kept: Checkpoint)
    requires files == {lost, kept}
    requires !Kept(files, cutoff, current, lost) && Kept(files, cutoff, current, kept)
    ensures KeptSet(files, cutoff, current) == {kept}
  {
    hide Kept;
  }

  lemma TiedMatches()
    ensures Matches(Prior, EXPIRED, FIRST) && Matches(Prior, EXPIRED, SECOND)
    ensures TrimmedBoots({FIRST, SECOND}) && FIRST != SECOND
  {
    TiedTrims();
    hide Trim;
  }

  lemma TiedTrims()
    ensures Trim("a") == "a" && Trim("b") == "b" && Trim("c") == "c"
  {
  }

  lemma TiedKept()
    ensures !Kept({FIRST, SECOND}, 20, Trim("c"), FIRST) && Kept({FIRST, SECOND}, 20, Trim("c"), SECOND)
  {
    TiedTrims();
    hide Trim;
    assert "a" != "c" && "b" != "c" && SameOwner(FIRST, SECOND);
    assert Less("a", "b") && !Less("b", "a");
    LessIsIrreflexive("b");
    hide Less;
    assert FIRST.boot == "a" && SECOND.boot == "b";
  }

  // ---------------------------------------------------------------- exactly when the time stays

  /**
   Pruning leaves a match as new as the newest: that one has not expired, or a checkpoint that
   pruning protects as its owner's newest matches as well and was observed at the same time.
   */
  ghost predicate TimeIsKept(files: set<Checkpoint>, cutoff: Time, search: Search, o: Options, c: Checkpoint) {
    || c.observedAt >= cutoff
    || exists e <- files ::
         Matches(search, o, e) && e.observedAt == c.observedAt && NewestPrior(files, Trim(o.current), e)
  }

  ghost predicate SamePickTime(was: Option<Checkpoint>, found: Option<Checkpoint>) {
    (found.Some? <==> was.Some?) && (was.Some? && found.Some? ==> found.value.observedAt == was.value.observedAt)
  }

  /** What a prior search finds is not of the boot that pruning takes for the current one. */
  lemma PriorIsNotCurrent(search: Search, o: Options, c: Checkpoint)
    requires search != AllCurrent && Matches(search, o, c)
    ensures c.boot != Trim(o.current)
  {
    TrimTwice(o.current);
    hide Trim;
  }

  /**
   For any stored boot IDs, trimmed or not, and any host and profile, a prior-boot search finds
   a checkpoint of the same time after pruning if and only if it found none before, or that
   one's time is kept.
   */
  lemma PickKeepsItsTimeExactly(
    before: seq<Checkpoint>, after: seq<Checkpoint>, cutoff: Time, search: Search, o: Options)
    requires search != AllCurrent && Listed(before) && Listed(after)
    requires Elements(after) == KeptSet(Elements(before), cutoff, Trim(o.current))
    ensures
      var was := Pick(before, search, o);
      SamePickTime(was, Pick(after, search, o)) <==>
        was.None? || TimeIsKept(Elements(before), cutoff, search, o, was.value)
  {
    PickedIsNewest(before, search, o);
    PickedIsNewest(after, search, o);
    var files, was, found := Elements(before), Pick(before, search, o), Pick(after, search, o);
    hide Pick;
    hide Trim;
    hide Before;
    hide NewestPrior;
    if was.Some? && found.Some? {
      PriorIsNotCurrent(search, o, found.value);
      assert found.value in Elements(after) && found.value in files;
    }
    if was.Some? && TimeIsKept(files, cutoff, search, o, was.value) {
      var e: Checkpoint :| e in files && Matches(search, o, e) && e.observedAt == was.value.observedAt
                           && (e.observedAt >= cutoff || NewestPrior(files, Trim(o.current), e));
      assert Kept(files, cutoff, Trim(o.current), e) && e in Elements(after);
    }
    hide Matches;
  }

  lemma CurrentIsKept(before: seq<Checkpoint>, after: seq<Checkpoint>, cutoff: Time, o: Options)
    requires Listed(before) && Listed(after)
    requires Elements(after) == KeptSet(Elements(before), cutoff, Trim(o.current))
    ensures Pick(after, AllCurrent, o) == Pick(before, AllCurrent, o)
  {
    PickedIsNewest(before, AllCurrent, o);
    PickedIsNewest(after, AllCurrent, o);
    var was, found := Pick(before, AllCurrent, o), Pick(after, AllCurrent, o);
    hide Pick;
    hide Trim;
    hide NewestPrior;
    if was.Some? {
      assert Kept(Elements(before), cutoff, Trim(o.current), was.value) && was.value in Elements(after);
      hide Matches;
      hide Before;
      SameChoice(Elements(before), Elements(after), AllCurrent, o, was.value, found.value);
    }
  }

  /** The recovery points that both selections find are as recent after pruning exactly under that condition. */
  lemma PruningKeepsTheTimeExactly(before: seq<Checkpoint>, after: seq<Checkpoint>, cutoff: Time, o: Options)
    requires Listed(before) && Listed(after)
    requires Elements(after) == KeptSet(Elements(before), cutoff, Trim(o.current))
    ensures
      var prior := Pick(before, Prior, o);
      SameTime(Select(before, o), Select(after, o)) <==>
        prior.None? || TimeIsKept(Elements(before), cutoff, Prior, o, prior.value)
    ensures
      var prior := Pick(before, AllPrior, o);
      SameTime(SelectAll(before, o), SelectAll(after, o)) <==>
        || Pick(before, AllCurrent, o).Some?
        || prior.None? || TimeIsKept(Elements(before), cutoff, AllPrior, o, prior.value)
  {
    PickKeepsItsTimeExactly(before, after, cutoff, Prior, o);
    PickKeepsItsTimeExactly(before, after, cutoff, AllPrior, o);
    CurrentIsKept(before, after, cutoff, o);
    hide *;
    SelectTime(before, after, o);
    SelectAllTime(before, after, o);
  }

  lemma SelectTime(before: seq<Checkpoint>, after: seq<Checkpoint>, o: Options)
    ensures SameTime(Select(before, o), Select(after, o)) <==> SamePickTime(Pick(before, Prior, o), Pick(after, Prior, o))
  {
    hide Pick;
  }

  lemma SelectAllTime(before: seq<Checkpoint>, after: seq<Checkpoint>, o: Options)
    requires Pick(after, AllCurrent, o) == Pick(before, AllCurrent, o)
    ensures SameTime(SelectAll(before, o), SelectAll(after, o)) <==>
      || Pick(before, AllCurrent, o).Some?
      || SamePickTime(Pick(before, AllPrior, o), Pick(after, AllPrior, o))
  {
    hide Pick;
  }

  const STRAY := Checkpoint("b ", "h", "p", 10, 1, 1)
  const GOOD := Checkpoint("a", "h", "p", 5, 1, 1)
  const RESUMED := Options("b", "h", "p", ZERO_TIME, 0)

  /** Stored boot IDs need not be trimmed; one that is not can make pruning lose the selection. */
  lemma UntrimmedBootLosesTheChoice()
    ensures Listed([GOOD, STRAY]) && Pick([GOOD, STRAY], Prior, RESUMED) == Some(GOOD)
    ensures KeptSet({GOOD, STRAY}, 20, Trim(RESUMED.current)) == {STRAY} && Pick([STRAY], Prior, RESUMED) == None
  {
    StrayMatches();
    StrayKept();
    StrayTrims();
    assert Before(GOOD, STRAY);
    assert Listed([GOOD, STRAY]);
    hide *;
    PickOne(GOOD, Prior, RESUMED);
    PickOne(STRAY, Prior, RESUMED);
    PickStep([GOOD, STRAY], Prior, RESUMED);
    assert [GOOD, STRAY][..1] == [GOOD];
    OneKept({GOOD, STRAY}, 20, Trim("b"), GOOD, STRAY);
  }

  lemma StrayMatches()
    ensures Matches(Prior, RESUMED, GOOD) && !Matches(Prior, RESUMED, STRAY)
  {
    StrayTrims();
    hide Trim;
  }

  lemma StrayTrims()
    ensures Trim("b ") == "b" && Trim("b") == "b" && Trim("a") == "a"
  {
    assert "b "[..1] == "b";
  }

  lemma StrayKept()
    ensures !Kept({GOOD, STRAY}, 20, Trim("b"), GOOD) && Kept({GOOD, STRAY}, 20, Trim("b"), STRAY)
  {
    StrayTrims();
    hide Trim;
    assert "b " != "b" && "a" != "b";
    LessIsIrreflexive("b ");
    hide Less;
  }

  // ---------------------------------------------------------------- the loops

  /** All files in the order of a listing. */
  method List(files: seq<Checkpoint>) returns (list: seq<Checkpoint>)
    requires OneFileEach(files)
    ensures Listed(list) && |list| == |files| && forall c :: c in list <==> c in files
  {
    list := [];
    for i := 0 to |files|
      invariant Listed(list) && |list| == i && forall c :: c in list <==> c in files[..i]
    {
      forall c <- list ensures !(c.boot == files[i].boot && SameOwner(c, files[i])) {
        assert c in files[..i];
      }
      assert files[..i + 1] == files[..i] + [files[i]];
      list := Insert(list, files[i]);
    }
    assert files[..|files|] == files;
  }

  method Insert(list: seq<Checkpoint>, c: Checkpoint) returns (r: seq<Checkpoint>)
    requires Listed(list) && forall d <- list :: !(d.boot == c.boot && SameOwner(d, c))
    ensures Listed(r) && |r| == |list| + 1 && forall d :: d in r <==> d in list || d == c
  {
    hide Before;
    var i := 0;
    while i < |list| && Before(list[i], c)
      invariant i <= |list| && forall j :: 0 <= j < i ==> Before(list[j], c)
    {
      i := i + 1;
    }
    r := list[..i] + [c] + list[i..];
    forall j | i <= j < |list| ensures Before(c, list[j]) {
      BeforeIsTotal(c, list[i]);
      if j > i {
        BeforeIsTransitive(c, list[i], list[j]);
      }
    }
    assert list == list[..i] + list[i..];
  }

  method PickNewest(list: seq<Checkpoint>, search: Search, o: Options) returns (selected: Option<Checkpoint>)
    ensures selected == Pick(list, search, o)
  {
    hide Matches;
    selected := None;
    for i := 0 to |list|
      invariant selected == Pick(list[..i], search, o)
    {
      assert list[..i + 1][..i] == list[..i];
      if Matches(search, o, list[i]) && (selected.None? || list[i].observedAt > selected.value.observedAt) {
        selected := Some(list[i]);
      }
    }
    assert list[..|list|] == list;
  }

  method Choose(list: seq<Checkpoint>, o: Options) returns (s: Selection)
    ensures s == Select(list, o) && SelectionTells(list, o, s)
  {
    SelectTells(list, o);
    hide SelectionTells;
    var selected := PickNewest(list, Prior, o);
    if selected.None? {
      return Selection(NotFound, Unsaid, None, 0);
    }
    s := Selection(Ready, Unsaid, selected, Age(selected.value.observedAt, o.now));
    if o.maxAge > 0 && s.age > o.maxAge {
      s := s.(status := Stale);
    } else if selected.value.terminals == 0 {
      s := s.(status := Empty);
    }
  }

  /** One pass keeps the newest of the current boot and the newest of any other. */
  method ChooseAll(list: seq<Checkpoint>, o: Options) returns (s: Selection)
    ensures s == SelectAll(list, o) && AllTells(list, o, s)
  {
    SelectAllTells(list, o);
    hide AllTells;
    var current, prior := None, None;
    for i := 0 to |list|
      invariant current == Pick(list[..i], AllCurrent, o) && prior == Pick(list[..i], AllPrior, o)
    {
      var c := list[i];
      PickStep(list[..i + 1], AllCurrent, o);
      PickStep(list[..i + 1], AllPrior, o);
      assert list[..i + 1][..i] == list[..i];
      hide Pick;
      if Trim(c.boot) != "" && Owner(o, c) {
        if c.boot == Trim(o.current) {
          if current.None? || c.observedAt > current.value.observedAt {
            current := Some(c);
          }
        } else if prior.None? || c.observedAt > prior.value.observedAt {
          prior := Some(c);
        }
      }
    }
    assert list[..|list|] == list;
    if current.Some? {
      return Selection(Ready, CurrentActive, current, Age(current.value.observedAt, o.now));
    }
    if prior.None? {
      return Selection(NotFound, PriorActive, None, 0);
    }
    s := Selection(Ready, PriorActive, prior, Age(prior.value.observedAt, o.now));
    if prior.value.sessions == 0 {
      s := s.(status := Empty);
    } else if o.maxAge > 0 && s.age > o.maxAge {
      s := s.(status := Stale);
    }
  }

  /** The newest prior checkpoint of each owner among the files read so far. */
  ghost predicate Ranked(newest: map<(string, string), Checkpoint>, files: set<Checkpoint>, current: string) {
    && (forall k <- newest :: (newest[k].host, newest[k].profile) == k && NewestPrior(files, current, newest[k]))
    && (forall c <- files :: c.boot != current ==> (c.host, c.profile) in newest)
  }

  lemma RankedMore(newest: map<(string, string), Checkpoint>, files: set<Checkpoint>, current: string, c: Checkpoint)
    requires Ranked(newest, files, current) && c.boot != current
    ensures
      var key := (c.host, c.profile);
      Ranked(
        if key !in newest || Outranks(c, newest[key]) then newest[key := c] else newest, files + {c}, current)
  {
    var key := (c.host, c.profile);
    LessIsIrreflexive(c.boot);
    hide Less;
    if key in newest {
      var p := newest[key];
      LessIsTotal(p.boot, c.boot);
      forall d <- files | d.boot != current && SameOwner(c, d) && Outranks(c, p) ensures !Outranks(d, c) {
        NeverOutranksItself(p);
        if Outranks(d, c) {
          OutranksIsTransitive(d, c, p);
        }
      }
    }
  }

  lemma RankedCurrent(newest: map<(string, string), Checkpoint>, files: set<Checkpoint>, current: string, c: Checkpoint)
    requires Ranked(newest, files, current) && c.boot == current
    ensures Ranked(newest, files + {c}, current)
  {
    hide Less;
  }

  /** Whether pruning protects a file. */
  lemma RankedIsNewest(newest: map<(string, string), Checkpoint>, files: set<Checkpoint>, current: string, c: Checkpoint)
    requires Ranked(newest, files, current) && c in files && c.boot != current
    requires forall d <- files :: d.boot == c.boot && SameOwner(c, d) ==> d == c
    ensures (c.host, c.profile) in newest
    ensures NewestPrior(files, current, c) <==> newest[(c.host, c.profile)] == c
  {
    var p := newest[(c.host, c.profile)];
    LessIsTotal(c.boot, p.boot);
    hide Less;
  }

  method RankPriors(files: seq<Checkpoint>, current: string) returns (newest: map<(string, string), Checkpoint>)
    ensures Ranked(newest, Elements(files), current)
  {
    hide NewestPrior;
    hide Outranks;
    newest := map[];
    for i := 0 to |files|
      invariant Ranked(newest, Elements(files[..i]), current)
    {
      var c := files[i];
      ElementsMore(files, i);
      if c.boot == current {
        RankedCurrent(newest, Elements(files[..i]), current, c);
      } else {
        RankedMore(newest, Elements(files[..i]), current, c);
        var key := (c.host, c.profile);
        if key !in newest || Outranks(c, newest[key]) {
          newest := newest[key := c];
        }
      }
    }
    assert files[..|files|] == files;
  }

  /** The first i files were looked at: those to keep are left, and others were removed. */
  ghost predicate Sifted(files: seq<Checkpoint>, i: nat, left: seq<Checkpoint>, cutoff: Time, current: string) {
    && i <= |files|
    && (forall c <- left :: c in files[..i] && Kept(Elements(files), cutoff, current, c))
    && (forall c <- files[..i] :: Kept(Elements(files), cutoff, current, c) ==> c in left)
  }

  lemma SiftedMore(files: seq<Checkpoint>, i: nat, left: seq<Checkpoint>, cutoff: Time, current: string)
    requires i < |files| && Sifted(files, i, left, cutoff, current)
    ensures
      Sifted(files, i + 1, if Kept(Elements(files), cutoff, current, files[i]) then left + [files[i]] else left, cutoff, current)
  {
    assert files[..i + 1] == files[..i] + [files[i]];
    hide Kept;
  }

  lemma SiftedEnds(files: seq<Checkpoint>, i: nat, left: seq<Checkpoint>, cutoff: Time, current: string)
    requires Sifted(files, i, left, cutoff, current)
    ensures PrunedTo(Elements(files), Elements(left + files[i..]), cutoff, current)
    ensures i == |files| ==> Elements(left) == KeptSet(Elements(files), cutoff, current) && left + files[i..] == left
  {
    assert files == files[..i] + files[i..];
  }

  lemma KeptIs(
    files: seq<Checkpoint>, newest: map<(string, string), Checkpoint>, cutoff: Time, current: string, c: Checkpoint)
    requires OneFileEach(files) && c in files && Ranked(newest, Elements(files), current)
    ensures c.boot != current ==> (c.host, c.profile) in newest
    ensures Kept(Elements(files), cutoff, current, c) <==>
      c.boot == current || newest[(c.host, c.profile)] == c || c.observedAt >= cutoff
  {
    if c.boot != current {
      OnlyOne(files, c);
      RankedIsNewest(newest, Elements(files), current, c);
    }
    hide NewestPrior;
  }

  /** Removes the expired files it need not keep; `fails` tells which removal fails and ends the run. */
  method Prune(files: seq<Checkpoint>, cutoff: Time, currentBootID: string, fails: nat -> bool)
    returns (r: Result<seq<Checkpoint>, string>, removed: nat)
    requires OneFileEach(files)
    ensures r.Err? <==> Trim(currentBootID) == ""
    ensures r.Ok? ==>
      && PrunedTo(Elements(files), Elements(r.value), cutoff, Trim(currentBootID))
      && ((forall k :: !fails(k)) ==> Elements(r.value) == KeptSet(Elements(files), cutoff, Trim(currentBootID)))
      && removed + |r.value| == |files|
  {
    var current := Trim(currentBootID);
    if current == "" {
      return Err("current boot ID is required to prune rolling checkpoints"), 0;
    }
    var newest := RankPriors(files, current);
    var left: seq<Checkpoint> := [];
    removed := 0;
    assert Sifted(files, 0, left, cutoff, current);
    hide *;
    var i := 0;
    while i < |files|
      invariant i <= |files| && removed + |left| == i && Sifted(files, i, left, cutoff, current)
    {
      var c := files[i];
      KeptIs(files, newest, cutoff, current, c);
      SiftedMore(files, i, left, cutoff, current);
      SiftedEnds(files, i, left, cutoff, current);
      if c.boot == current || newest[(c.host, c.profile)] == c || c.observedAt >= cutoff {
        left := left + [c];
      } else if fails(removed) {
        return Ok(left + files[i..]), removed;
      } else {
        removed := removed + 1;
      }
      i := i + 1;
    }
    SiftedEnds(files, i, left, cutoff, current);
    return Ok(left), removed;
  }

  lemma ElementsMore(files: seq<Checkpoint>, i: nat)
    requires i < |files|
    ensures Elements(files[..i + 1]) == Elements(files[..i]) + {files[i]}
  {
    assert files[..i + 1] == files[..i] + [files[i]];
  }

  lemma OnlyOne(files: seq<Checkpoint>, c: Checkpoint)
    requires OneFileEach(files) && c in files
    ensures forall d <- Elements(files) :: d.boot == c.boot && SameOwner(c, d) ==> d == c
  {
    var i :| 0 <= i < |files| && files[i] == c;
    forall d <- Elements(files) | d.boot == c.boot && SameOwner(c, d) ensures d == c {
      var j :| 0 <= j < |files| && files[j] == d;
    }
  }
}
