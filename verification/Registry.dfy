/** The registry of live agents: socket events and snapshots become a stream of
    changes. Whoever folds the stream knows the agents; whoever asks the registry
    to vouch for a key is refused from the moment an event contradicts it. */
module Registry {
  import opened Keys
  import opened Topics
  import opened SharePolicy
  import opened Sorting

  datatype Row = Row(
    key: Key,
    workspaceId: string,
    workspaceLabel: string,
    tabLabel: string,
    kind: string,
    name: string,
    title: string,
    status: Status,
    cwd: string)

  function OrElse(a: string, b: string): string {
    if a != "" then a else b
  }

  const SEPARATOR := " \U{00B7} "

  function Label(a: Row): string {
    var ws, who := OrElse(a.workspaceLabel, a.workspaceId), OrElse(a.name, OrElse(a.tabLabel, a.kind));
    if ws == "" then who else if who == "" then ws else ws + SEPARATOR + who
  }

  /** The workspace, by label or else by id, and the agent, by name or else by tab or
      else by kind, with the dot only between two that are not empty. */
  lemma LabelExactly(a: Row)
    ensures
      var ws := if a.workspaceLabel == "" then a.workspaceId else a.workspaceLabel;
      var who := if a.name != "" then a.name else if a.tabLabel != "" then a.tabLabel else a.kind;
      Label(a) == ws + (if ws != "" && who != "" then " \U{00B7} " else "") + who
  {
  }

  /** What the rest of the program sees of an agent. */
  function View(a: Row): Agent {
    Agent(a.key, Label(a), a.status, a.kind, a.cwd)
  }

  predicate Differs(a: Row, b: Row) {
    Label(a) != Label(b) || a.status != b.status || a.kind != b.kind || a.cwd != b.cwd
  }

  lemma DiffersIsVisible(a: Row, b: Row)
    requires a.key == b.key
    ensures Differs(a, b) <==> View(a) != View(b)
  {
    if View(a) == View(b) {
      assert View(a).caption == View(b).caption && View(a).status == View(b).status;
    }
  }

  // ---- the stream of changes ----

  datatype Change = Appeared(agent: Row) | Changed(agent: Row) | Gone(agent: Row) {
    function Of(): Key {
      agent.key
    }
  }

  /** Appeared adds, changed replaces, gone removes. */
  function Fold(m: map<Key, Agent>, events: seq<Change>): map<Key, Agent> {
    if events == [] then m
    else
      var last := events[|events| - 1];
      var before := Fold(m, events[..|events| - 1]);
      match last
      case Appeared(a) => before[a.key := View(a)]
      case Changed(a) => before[a.key := View(a)]
      case Gone(a) => before - {a.key}
  }

  lemma FoldNone(m: map<Key, Agent>)
    ensures Fold(m, []) == m
  {
  }

  /** The change tells the truth about target. */
  predicate Tells(e: Change, target: map<Key, Agent>) {
    if e.Gone? then e.Of() !in target else e.Of() in target && target[e.Of()] == View(e.agent)
  }

  ghost predicate Silent(events: seq<Change>, k: Key) {
    forall e <- events :: e.Of() != k
  }

  ghost predicate SameAt(m: map<Key, Agent>, n: map<Key, Agent>, k: Key) {
    (k in m <==> k in n) && (k in m ==> m[k] == n[k])
  }

  /** Changes that tell the truth, and all of it, lead to target in any order. */
  lemma {:induction false} FoldSettles(m: map<Key, Agent>, events: seq<Change>, target: map<Key, Agent>, k: Key)
    requires forall e <- events :: Tells(e, target)
    ensures SameAt(Fold(m, events), if Silent(events, k) then m else target, k)
  {
    hide View;
    if events != [] {
      var last, before := events[|events| - 1], events[..|events| - 1];
      assert last in events && forall e <- before :: e in events;
      FoldSettles(m, before, target, k);
      if last.Of() != k {
        assert Silent(events, k) <==> Silent(before, k) by {
          assert events == before + [last];
        }
      } else {
        assert Tells(last, target) && !Silent(events, k);
      }
    }
  }

  // ---- the order of a snapshot's changes ----

  /** A replacement that is still the same agent. */
  predicate SameRestart(prev: Row, next: Row) {
    if prev.key == next.key || prev.key.pane == [] || prev.key.pane != next.key.pane then false
    else if prev.key.digest != [] && next.key.digest != [] then prev.key.SameSession(next.key)
    else
      && !prev.key.ConflictsWith(next.key) && next.cwd != "" && (prev.cwd == "" || prev.cwd == next.cwd)
      && (prev.kind == "" || prev.kind == next.kind)
      && DesiredName(View(prev)) == DesiredName(View(next))
  }

  /** Field by field: another key in the same pane, and the same known session or,
      where one is unknown, directory, kind and name as far as they were known. */
  lemma RestartExactly(prev: Row, next: Row)
    ensures SameRestart(prev, next) <==>
      && prev.key != next.key && prev.key.pane != [] && prev.key.pane == next.key.pane
      && if prev.key.digest != [] && next.key.digest != [] then prev.key.digest == next.key.digest
         else
           && next.cwd != "" && (prev.cwd == "" || prev.cwd == next.cwd) && (prev.kind == "" || prev.kind == next.kind)
           && DesiredName(View(prev)) == DesiredName(View(next))
  {
    hide DesiredName, View;
  }

  function Matches(gone: seq<Change>, appeared: seq<Change>, i: nat, n: nat): nat
    requires i < |appeared| && n <= |gone|
  {
    if n == 0 then 0
    else Matches(gone, appeared, i, n - 1) + if SameRestart(gone[n - 1].agent, appeared[i].agent) then 1 else 0
  }

  function Owners(gone: seq<Change>, appeared: seq<Change>, o: nat, n: nat): nat
    requires o < |gone| && n <= |appeared|
  {
    if n == 0 then 0
    else Owners(gone, appeared, o, n - 1) + if SameRestart(gone[o].agent, appeared[n - 1].agent) then 1 else 0
  }

  /** appeared[i] continues exactly one agent that left, and is its only heir. */
  ghost predicate Paired(gone: seq<Change>, appeared: seq<Change>, i: nat)
    requires i < |appeared|
  {
    && Matches(gone, appeared, i, |gone|) == 1
    && exists o: nat | o < |gone| ::
         SameRestart(gone[o].agent, appeared[i].agent) && Owners(gone, appeared, o, |appeared|) == 1
  }

  method CountMatches(gone: seq<Change>, appeared: seq<Change>, i: nat) returns (n: nat)
    requires i < |appeared|
    ensures n == Matches(gone, appeared, i, |gone|)
  {
    n := 0;
    for o := 0 to |gone|
      invariant n == Matches(gone, appeared, i, o)
    {
      if SameRestart(gone[o].agent, appeared[i].agent) {
        n := n + 1;
      }
    }
  }

  method CountOwners(gone: seq<Change>, appeared: seq<Change>, o: nat) returns (n: nat)
    requires o < |gone|
    ensures n == Owners(gone, appeared, o, |appeared|)
  {
    n := 0;
    for i := 0 to |appeared|
      invariant n == Owners(gone, appeared, o, i)
    {
      if SameRestart(gone[o].agent, appeared[i].agent) {
        n := n + 1;
      }
    }
  }

  method IsPaired(gone: seq<Change>, appeared: seq<Change>, i: nat) returns (yes: bool)
    requires i < |appeared|
    ensures yes <==> Paired(gone, appeared, i)
  {
    hide SameRestart;
    var matches := CountMatches(gone, appeared, i);
    if matches != 1 {
      return false;
    }
    for o := 0 to |gone|
      invariant forall x: nat | x < o ::
                  !(SameRestart(gone[x].agent, appeared[i].agent) && Owners(gone, appeared, x, |appeared|) == 1)
    {
      var owners := CountOwners(gone, appeared, o);
      if owners == 1 && SameRestart(gone[o].agent, appeared[i].agent) {
        return true;
      }
    }
    return false;
  }

  predicate KeyOrder(e: Change, f: Change) {
    AtMost(String(e.agent.key), String(f.agent.key))
  }

  lemma KeyOrderLinear()
    ensures Linear(KeyOrder)
  {
    hide String, Before;
    forall e: Change, f: Change, g: Change
      ensures KeyOrder(e, f) || KeyOrder(f, e)
      ensures KeyOrder(e, f) && KeyOrder(f, g) ==> KeyOrder(e, g)
    {
      BeforeTotal(String(e.agent.key), String(f.agent.key), String(g.agent.key));
    }
  }

  method SortEvents(events: seq<Change>) returns (sorted: seq<Change>)
    ensures Sorted(sorted, KeyOrder) && multiset(sorted) == multiset(events)
    ensures forall e :: e in sorted <==> e in events
  {
    hide Linear, Sorted;
    KeyOrderLinear();
    sorted := SortBy(events, KeyOrder);
    SameMembers(events, sorted);
  }

  /** The new agents that continue one that left, and the others, in their order. */
  method Part(gone: seq<Change>, appeared: seq<Change>) returns (heirs: seq<Change>, others: seq<Change>)
    requires Sorted(appeared, KeyOrder)
    ensures Sorted(heirs, KeyOrder) && Sorted(others, KeyOrder)
    ensures multiset(heirs) + multiset(others) == multiset(appeared)
    ensures forall e :: e in heirs <==> exists i: nat | i < |appeared| :: appeared[i] == e && Paired(gone, appeared, i)
    ensures forall e :: e in others <==> exists i: nat | i < |appeared| :: appeared[i] == e && !Paired(gone, appeared, i)
  {
    hide Paired, Sorted, KeyOrder;
    heirs, others := [], [];
    NothingSorted(KeyOrder);
    for i := 0 to |appeared|
      invariant Sorted(heirs, KeyOrder) && Sorted(others, KeyOrder)
      invariant multiset(heirs) + multiset(others) == multiset(appeared[..i])
      invariant forall e :: e in heirs <==> exists x: nat | x < i :: appeared[x] == e && Paired(gone, appeared, x)
      invariant forall e :: e in others <==> exists x: nat | x < i :: appeared[x] == e && !Paired(gone, appeared, x)
    {
      var paired := IsPaired(gone, appeared, i);
      if paired {
        PickedSorted(appeared, heirs, i, KeyOrder);
        heirs := heirs + [appeared[i]];
      } else {
        PickedSorted(appeared, others, i, KeyOrder);
        others := others + [appeared[i]];
      }
      assert appeared[..i + 1] == appeared[..i] + [appeared[i]];
    }
    assert appeared[..|appeared|] == appeared;
  }

  /** The groups of a snapshot's changes, each by key: heirs and others are the new
      agents that continue one that left and those that do not, come is both. */
  datatype Groups = Groups(heirs: seq<Change>, left: seq<Change>, others: seq<Change>, altered: seq<Change>, come: seq<Change>)

  /** Heirs first, then the agents that left, then the other new ones, then the
      changes. */
  ghost predicate Arranged(g: Groups, events: seq<Change>) {
    && events == g.heirs + g.left + g.others + g.altered
    && Sorted(g.heirs, KeyOrder) && Sorted(g.left, KeyOrder) && Sorted(g.others, KeyOrder) && Sorted(g.altered, KeyOrder)
    && multiset(g.heirs) + multiset(g.others) == multiset(g.come)
    && (forall e :: e in g.heirs <==> exists i: nat | i < |g.come| :: g.come[i] == e && Paired(g.left, g.come, i))
    && (forall e :: e in g.others <==> exists i: nat | i < |g.come| :: g.come[i] == e && !Paired(g.left, g.come, i))
  }

  method OrderEvents(gone: seq<Change>, appeared: seq<Change>, changed: seq<Change>)
    returns (events: seq<Change>, ghost g: Groups)
    ensures Arranged(g, events)
    ensures multiset(g.left) == multiset(gone) && multiset(g.come) == multiset(appeared)
    ensures multiset(g.altered) == multiset(changed)
  {
    hide Paired, Sorted, KeyOrder;
    var sortedGone := SortEvents(gone);
    var sortedAppeared := SortEvents(appeared);
    var sortedChanged := SortEvents(changed);
    var first, rest := Part(sortedGone, sortedAppeared);
    events := first + sortedGone + rest + sortedChanged;
    g := Groups(first, sortedGone, rest, sortedChanged, sortedAppeared);
  }

  // ---- the registry ----

  function Exit(a: Row): Row {
    a.(status := Exited)
  }

  function Views(agents: map<Key, Row>): map<Key, Agent> {
    map k | k in agents :: View(agents[k])
  }

  /** What a snapshot that replaces old by next has to tell. */
  predicate Due(old_: map<Key, Row>, next: map<Key, Row>, e: Change) {
    match e
    case Gone(a) => a.key in old_ && a.key !in next && a == Exit(old_[a.key])
    case Appeared(a) => a.key !in old_ && a.key in next && a == next[a.key]
    case Changed(a) => a.key in old_ && a.key in next && a == next[a.key] && Differs(old_[a.key], a)
  }

  ghost predicate Keyed(agents: map<Key, Row>) {
    forall k <- agents :: agents[k].key == k
  }

  lemma SnapshotTold(before: map<Key, Row>, next: map<Key, Row>, events: seq<Change>)
    requires Keyed(before) && Keyed(next) && forall e :: e in events <==> Due(before, next, e)
    ensures Fold(Views(before), events) == Views(next)
  {
    hide View, Differs, Fold;
    forall k ensures SameAt(Fold(Views(before), events), Views(next), k) {
      FoldSettles(Views(before), events, Views(next), k);
      if Silent(events, k) {
        NotTold(before, next, events, k);
      }
    }
    EqualMaps(Fold(Views(before), events), Views(next));
  }

  lemma EqualMaps(m: map<Key, Agent>, n: map<Key, Agent>)
    requires forall k :: SameAt(m, n, k)
    ensures m == n
  {
    forall k ensures k in m.Keys <==> k in n.Keys {
      assert SameAt(m, n, k);
    }
    forall k | k in m ensures m[k] == n[k] {
      assert SameAt(m, n, k);
    }
  }

  lemma DueAt(before: map<Key, Row>, next: map<Key, Row>, k: Key)
    requires Keyed(before) && Keyed(next)
    ensures k in before && k !in next ==> Due(before, next, Gone(Exit(before[k])))
    ensures k !in before && k in next ==> Due(before, next, Appeared(next[k]))
    ensures k in before && k in next && Differs(before[k], next[k]) ==> Due(before, next, Changed(next[k]))
  {
  }

  /** A key nothing is told about is as it was. */
  lemma NotTold(before: map<Key, Row>, next: map<Key, Row>, events: seq<Change>, k: Key)
    requires Keyed(before) && Keyed(next) && forall e :: e in events <==> Due(before, next, e)
    requires Silent(events, k)
    ensures SameAt(Views(before), Views(next), k)
  {
    hide Due, Differs, View;
    DueAt(before, next, k);
    if k in before && k in next {
      DiffersIsVisible(before[k], next[k]);
    }
  }

  function Visible(before: Row, after: Row): seq<Change> {
    if Differs(before, after) then [Changed(after)] else []
  }

  /** Storing a row tells exactly what became visible. */
  lemma StoreTold(m: map<Key, Row>, key: Key, a: Row)
    requires Keyed(m) && key in m && a.key == key
    ensures Fold(Views(m), Visible(m[key], a)) == Views(m[key := a])
  {
    DiffersIsVisible(m[key], a);
    hide View, Differs;
    if Differs(m[key], a) {
      assert [Changed(a)][..0] == [];
      assert Fold(Views(m), [Changed(a)]) == Views(m)[key := View(a)];
      assert Views(m)[key := View(a)] == Views(m[key := a]);
    } else {
      assert Views(m) == Views(m[key := a]);
    }
  }

  /** A pane reports neither names nor labels; what it leaves out stays. */
  function Fresher(row: Row, report: Row): Row {
    report.(workspaceLabel := OrElse(report.workspaceLabel, row.workspaceLabel),
            tabLabel := OrElse(report.tabLabel, row.tabLabel), name := row.name, cwd := OrElse(report.cwd, row.cwd))
  }

  datatype Socket =
    | StatusChanged(pane: Text, report: Option<Row>)
    | Updated(report: Option<Row>)
    | PaneClosed(pane: Text)
    | PaneExited(pane: Text)
    | Detected(pane: Text, released: bool)
    | Structural   // stream reset, renamed tab or workspace
    | Unrelated

  /** The panes whose agent the event says is no longer there, when these keys are
      known: closed, exited, released, or reporting a key that is new. */
  function Contradicted(ev: Socket, known: set<Key>): set<Text> {
    match ev
    case PaneClosed(p) => {p}
    case PaneExited(p) => {p}
    case Detected(p, released) => if released then {p} else {}
    case Updated(report) =>
      if report.Some? && report.value.kind != "" && report.value.key !in known then {report.value.key.pane} else {}
    case _ => {}
  }

  /** No two agents share a pane. */
  ghost predicate OnePerPane(agents: map<Key, Row>) {
    forall j, k | j in agents && k in agents && j.pane == k.pane :: j == k
  }

  class Registry {
    var agents: map<Key, Row>
    var byPane: map<Text, Key>
    var retired: set<Key>
    /** What all changes emitted so far add up to. */
    ghost var told: map<Key, Agent>
    /** The panes an event reported to have lost their agent since the last snapshot. */
    ghost var barred: set<Text>

    ghost predicate Valid()
      reads this
    {
      && Keyed(agents) && told == Views(agents)
      && (forall p <- byPane :: byPane[p] in agents && byPane[p].pane == p)
      && (forall k <- agents :: k.pane in byPane)
      && (forall k :: k in retired <==> k.pane in barred && k.pane in byPane && byPane[k.pane] == k)
    }

    constructor ()
      ensures Valid() && agents == map[] && retired == {} && barred == {} && told == map[]
    {
      agents, byPane, retired, told, barred := map[], map[], {}, map[], {};
    }

    /** The agent behind a key, unless an event contradicted it. */
    function Agent(key: Key): Option<Row>
      reads this
    {
      if key in retired || key !in agents then None else Some(agents[key])
    }

    /** What Agent answers, for every key at once. */
    ghost function Vouched(): map<Key, Topics.Agent>
      reads this
    {
      map k | k in agents && k !in retired :: View(agents[k])
    }

    method RetirePane(pane: Text)
      requires Valid()
      modifies this`retired, this`barred
      ensures Valid() && barred == old(barred) + {pane}
      ensures retired == old(retired) + if pane in byPane then {byPane[pane]} else {}
    {
      barred := barred + {pane};
      if pane in byPane && byPane[pane] !in retired {
        retired := retired + {byPane[pane]};
      }
    }

    /** Stores a fresher row for a known key; the change is told if it shows. */
    method Store(key: Key, a: Row) returns (events: seq<Change>)
      requires Valid() && key in agents && a.key == key
      modifies this`agents, this`told
      ensures Valid() && agents == old(agents)[key := a] && told == Fold(old(told), events)
      ensures events == Visible(old(agents)[key], a)
    {
      hide Fold, Views, Differs;
      var before := agents[key];
      agents := agents[key := a];
      events := if Differs(before, a) then [Changed(a)] else [];
      StoreTold(old(agents), key, a);
      told := Fold(told, events);
    }

    method ApplyStatus(pane: Text, report: Option<Row>) returns (events: seq<Change>, structural: bool)
      requires Valid()
      modifies this`agents, this`told
      ensures Valid() && agents.Keys == old(agents.Keys) && told == Fold(old(told), events)
      ensures structural <==> pane !in byPane || report.None? || byPane[pane] in retired
      ensures structural ==> agents == old(agents) && events == []
      ensures !structural ==>
        var row := old(agents)[byPane[pane]];
        agents == old(agents)[byPane[pane] :=
          row.(status := report.value.status, title := OrElse(report.value.title, row.title))]
        && events == Visible(row, agents[byPane[pane]])
    {
      if pane !in byPane || report.None? || byPane[pane] in retired {
        return [], true;
      }
      var key := byPane[pane];
      var a := agents[key].(status := report.value.status);
      if report.value.title != "" {
        a := a.(title := report.value.title);
      }
      events := Store(key, a);
      structural := false;
    }

    /** A pane's report about itself. A key that is not known yet waits for a
        snapshot, and the key it replaces is retired at once. */
    method ApplyUpdate(report: Option<Row>) returns (events: seq<Change>, structural: bool)
      requires Valid()
      modifies this`agents, this`told, this`retired, this`barred
      ensures Valid() && agents.Keys == old(agents.Keys) && told == Fold(old(told), events)
      ensures retired >= old(retired)
      ensures barred == old(barred) +
        if report.Some? && report.value.kind != "" && report.value.key !in old(agents) then {report.value.key.pane} else {}
      ensures structural <==> report.Some? && report.value.kind != ""
                              && (report.value.key !in old(agents) || report.value.key in old(retired))
      ensures report.None? || report.value.kind == "" || structural ==> agents == old(agents) && events == []
      ensures report.Some? && report.value.kind != "" && !structural ==>
        agents == old(agents)[report.value.key := Fresher(old(agents)[report.value.key], report.value)]
        && events == Visible(old(agents)[report.value.key], agents[report.value.key])
    {
      FoldNone(told);
      hide Fold, Views;
      events, structural := [], false;
      if report.None? || report.value.kind == "" {
        return;
      }
      var a := report.value;
      if a.key !in agents {
        RetirePane(a.key.pane);
        return [], true;
      }
      if a.key in retired {
        return [], true;
      }
      var before := agents[a.key];
      if a.workspaceLabel == "" {
        a := a.(workspaceLabel := before.workspaceLabel);
      }
      if a.tabLabel == "" {
        a := a.(tabLabel := before.tabLabel);
      }
      a := a.(name := before.name);
      if a.cwd == "" {
        a := a.(cwd := before.cwd);
      }
      assert a == Fresher(before, report.value);
      events := Store(a.key, a);
    }

    method Apply(ev: Socket) returns (events: seq<Change>, structural: bool)
      requires Valid()
      modifies this
      ensures Valid() && agents.Keys == old(agents.Keys) && byPane == old(byPane)
      ensures told == Fold(old(told), events)
      ensures retired >= old(retired)
      ensures barred == old(barred) + Contradicted(ev, old(agents.Keys))
      ensures !ev.StatusChanged? && !ev.Updated? ==> agents == old(agents) && events == [] && (structural <==> !ev.Unrelated?)
      ensures ev.StatusChanged? ==>
        var heard := ev.pane in byPane && ev.report.Some? && byPane[ev.pane] !in old(retired);
        && (structural <==> !heard)
        && if !heard then agents == old(agents) && events == []
           else
             var row := old(agents)[byPane[ev.pane]];
             && agents == old(agents)[byPane[ev.pane] :=
                  row.(status := ev.report.value.status, title := OrElse(ev.report.value.title, row.title))]
             && events == Visible(row, agents[byPane[ev.pane]])
      ensures ev.Updated? ==>
        var sent := ev.report.Some? && ev.report.value.kind != "";
        && (structural <==> sent && (ev.report.value.key !in old(agents) || ev.report.value.key in old(retired)))
        && if !sent || structural then agents == old(agents) && events == []
           else
             && agents == old(agents)[ev.report.value.key := Fresher(old(agents)[ev.report.value.key], ev.report.value)]
             && events == Visible(old(agents)[ev.report.value.key], agents[ev.report.value.key])
    {
      match ev {
        case StatusChanged(pane, report) => events, structural := ApplyStatus(pane, report);
        case Updated(report) => events, structural := ApplyUpdate(report);
        case PaneClosed(pane) =>
          RetirePane(pane);
          return [], true;
        case PaneExited(pane) =>
          RetirePane(pane);
          return [], true;
        case Detected(pane, released) =>
          if released {
            RetirePane(pane);
          }
          return [], true;
        case Structural => return [], true;
        case Unrelated => return [], false;
      }
    }

    /** A snapshot is the truth: it replaces everything, clears all doubts and tells
        each difference once, in order. */
    method ApplySnapshot(list: seq<Row>) returns (events: seq<Change>, ghost g: Groups)
      requires Valid()
      modifies this
      ensures Valid() && retired == {} && barred == {}
      ensures agents == Listed(list)
      ensures forall e :: multiset(events)[e] == if Due(old(agents), agents, e) then 1 else 0
      ensures Arranged(g, events)
      ensures forall e :: e in g.left <==> e.Gone? && Due(old(agents), agents, e)
      ensures forall e :: e in g.come <==> e.Appeared? && Due(old(agents), agents, e)
      ensures forall e :: e in g.altered <==> e.Changed? && Due(old(agents), agents, e)
      ensures told == Fold(old(told), events)
    {
      hide Listed, Due, Differs, Fold, Views, Arranged;
      var next := CollectAgents(list);
      ListedKeyed(list);
      events, g := Differences(next);
      SnapshotTold(agents, next, events);
      agents, retired, barred := next, {}, {};
      told := Fold(told, events);
      byPane := PaneIndex(next);
    }

    method Differences(next: map<Key, Row>) returns (events: seq<Change>, ghost g: Groups)
      requires Keyed(agents) && Keyed(next)
      ensures forall e :: multiset(events)[e] == if Due(agents, next, e) then 1 else 0
      ensures forall e :: e in events <==> Due(agents, next, e)
      ensures Arranged(g, events)
      ensures forall e :: e in g.left <==> e.Gone? && Due(agents, next, e)
      ensures forall e :: e in g.come <==> e.Appeared? && Due(agents, next, e)
      ensures forall e :: e in g.altered <==> e.Changed? && Due(agents, next, e)
    {
      hide Due, Arranged;
      var gone, appeared, changed := Compare(next);
      events, g := OrderEvents(gone, appeared, changed);
      SameMembers(gone, g.left);
      SameMembers(appeared, g.come);
      SameMembers(changed, g.altered);
      AllDue(agents, next, g, events);
    }

    /** The three kinds of differences, each one once, in any order. */
    method Compare(next: map<Key, Row>) returns (gone: seq<Change>, appeared: seq<Change>, changed: seq<Change>)
      requires Keyed(agents) && Keyed(next)
      ensures forall e :: e in gone <==> e.Gone? && Due(agents, next, e)
      ensures forall e :: e in appeared <==> e.Appeared? && Due(agents, next, e)
      ensures forall e :: e in changed <==> e.Changed? && Due(agents, next, e)
      ensures forall e :: multiset(gone)[e] <= 1 && multiset(appeared)[e] <= 1 && multiset(changed)[e] <= 1
    {
      hide Differs;
      gone, appeared, changed := [], [], [];
      var rest := agents.Keys;
      while rest != {}
        invariant rest <= agents.Keys
        invariant forall e :: e in gone <==> e.Gone? && Due(agents, next, e) && e.agent.key !in rest
        invariant forall e :: multiset(gone)[e] <= 1
        decreases rest
      {
        var k :| k in rest;
        if k !in next {
          gone := gone + [Gone(Exit(agents[k]))];
        }
        rest := rest - {k};
      }
      rest := next.Keys;
      while rest != {}
        invariant rest <= next.Keys
        invariant forall e :: e in appeared <==> e.Appeared? && Due(agents, next, e) && e.agent.key !in rest
        invariant forall e :: e in changed <==> e.Changed? && Due(agents, next, e) && e.agent.key !in rest
        invariant forall e :: multiset(appeared)[e] <= 1 && multiset(changed)[e] <= 1
        decreases rest
      {
        var k :| k in rest;
        if k !in agents {
          appeared := appeared + [Appeared(next[k])];
        } else if Differs(agents[k], next[k]) {
          changed := changed + [Changed(next[k])];
        }
        rest := rest - {k};
      }
    }
  }

  /** The agents of a list: rows without a kind are no agents, the last row of a
      key counts. */
  function Listed(list: seq<Row>): map<Key, Row> {
    if list == [] then map[]
    else
      var before, a := Listed(list[..|list| - 1]), list[|list| - 1];
      if a.kind == "" then before else before[a.key := a]
  }

  lemma {:induction false} ListedKeyed(list: seq<Row>)
    ensures Keyed(Listed(list))
  {
    if list != [] {
      ListedKeyed(list[..|list| - 1]);
    }
  }

  method CollectAgents(list: seq<Row>) returns (next: map<Key, Row>)
    ensures next == Listed(list)
  {
    next := map[];
    for i := 0 to |list|
      invariant next == Listed(list[..i])
    {
      assert list[..i + 1][..i] == list[..i];
      if list[i].kind != "" {
        next := next[list[i].key := list[i]];
      }
    }
    assert list[..|list|] == list;
  }

  method PaneIndex(next: map<Key, Row>) returns (byPane: map<Text, Key>)
    ensures forall p <- byPane :: byPane[p] in next && byPane[p].pane == p
    ensures forall k <- next :: k.pane in byPane
  {
    byPane := map[];
    var rest := next.Keys;
    while rest != {}
      invariant rest <= next.Keys
      invariant forall p <- byPane :: byPane[p] in next && byPane[p].pane == p
      invariant forall k <- next | k !in rest :: k.pane in byPane
      decreases rest
    {
      var k :| k in rest;
      byPane := byPane[k.pane := k];
      rest := rest - {k};
    }
  }

  lemma AllDue(before: map<Key, Row>, next: map<Key, Row>, g: Groups, events: seq<Change>)
    requires Arranged(g, events)
    requires forall e :: multiset(g.left)[e] <= 1 && multiset(g.come)[e] <= 1 && multiset(g.altered)[e] <= 1
    requires forall e :: e in g.left <==> e.Gone? && Due(before, next, e)
    requires forall e :: e in g.come <==> e.Appeared? && Due(before, next, e)
    requires forall e :: e in g.altered <==> e.Changed? && Due(before, next, e)
    ensures forall e :: multiset(events)[e] == if Due(before, next, e) then 1 else 0
    ensures forall e :: e in events <==> Due(before, next, e)
  {
    hide Due, Paired, Sorted, KeyOrder;
    assert multiset(events) == multiset(g.come) + multiset(g.left) + multiset(g.altered);
    forall e ensures multiset(events)[e] == if Due(before, next, e) then 1 else 0 {
      assert multiset(events)[e] == multiset(g.come)[e] + multiset(g.left)[e] + multiset(g.altered)[e];
      assert e in g.left <==> multiset(g.left)[e] > 0;
      assert e in g.come <==> multiset(g.come)[e] > 0;
      assert e in g.altered <==> multiset(g.altered)[e] > 0;
    }
    forall e ensures e in events <==> Due(before, next, e) {
      assert e in events <==> multiset(events)[e] > 0;
    }
  }

  datatype Step = Event(ev: Socket) | Snapshot(list: seq<Row>)

  /** The agents the last snapshot listed. */
  function Known(steps: seq<Step>): set<Key> {
    if steps == [] then {}
    else
      match steps[|steps| - 1]
      case Snapshot(list) => Listed(list).Keys
      case Event(_) => Known(steps[..|steps| - 1])
  }

  /** The panes that events contradicted since the last snapshot. */
  function Barred(steps: seq<Step>): set<Text> {
    if steps == [] then {}
    else
      var before := steps[..|steps| - 1];
      match steps[|steps| - 1]
      case Snapshot(_) => {}
      case Event(ev) => Barred(before) + Contradicted(ev, Known(before))
  }

  /** What the registry vouches for, exactly: the agents of the last snapshot but
      for the one that each barred pane is known to hold. */
  lemma VouchedExactly(r: Registry, k: Key)
    requires r.Valid()
    ensures k in r.Vouched() <==> k in r.agents && !(k.pane in r.barred && r.byPane[k.pane] == k)
    ensures k in r.Vouched() <==> r.Agent(k).Some?
    ensures OnePerPane(r.agents) ==> (k in r.Vouched() <==> k in r.agents && k.pane !in r.barred)
  {
    if k in r.agents {
      assert k.pane in r.byPane && r.byPane[k.pane] in r.agents;
    }
  }

  /** And what it does not vouch for gets nothing. */
  lemma UnvouchedAdmitsNothing(d: Desk, o: Origin, action: Action, now: int, vouched: map<Key, Agent>)
    requires o.grant in d.st.grants && d.st.grants[o.grant].key !in vouched
    ensures Decide(d, o, action, now, vouched) == Inactive
  {
  }

  /** Once an event contradicts a pane's agent, no grant for it admits anything:
      the registry does not vouch for the key until a snapshot lists it again.
      This needs the pane to hold one agent only. */
  lemma RetiredAdmitsNothing(r: Registry, d: Desk, o: Origin, action: Action, now: int)
    requires r.Valid() && OnePerPane(r.agents)
    requires o.grant in d.st.grants && d.st.grants[o.grant].key.pane in r.barred
    ensures Decide(d, o, action, now, r.Vouched()) == Inactive
    ensures r.Agent(d.st.grants[o.grant].key) == None
  {
    VouchedExactly(r, d.st.grants[o.grant].key);
  }

  /** Any run: the changes told so far add up to exactly the live agents, and what
      the registry vouches for is decided by the last snapshot and the events since
      it, so no grant of a contradicted pane admits anything before a snapshot lists
      its key again. */
  method Run(steps: seq<Step>) returns (r: Registry, told: seq<Change>)
    ensures r.Valid() && Fold(map[], told) == Views(r.agents)
    ensures r.agents.Keys == Known(steps) && r.barred == Barred(steps)
    ensures forall k :: k in r.Vouched() <==> k in Known(steps) && !(k.pane in Barred(steps) && r.byPane[k.pane] == k)
    ensures OnePerPane(r.agents) ==>
      forall k :: k in r.Vouched() <==> k in Known(steps) && k.pane !in Barred(steps)
    ensures OnePerPane(r.agents) ==>
      forall d: Desk, o: Origin, action: Action, now: int |
        o.grant in d.st.grants && d.st.grants[o.grant].key.pane in Barred(steps) ::
        Decide(d, o, action, now, r.Vouched()) == Inactive
  {
    hide Decide, Contradicted, Listed, Fold, Views;
    r := new Registry();
    told := [];
    FoldNone(map[]);
    for i := 0 to |steps|
      invariant r.Valid() && fresh(r) && Fold(map[], told) == r.told
      invariant r.agents.Keys == Known(steps[..i]) && r.barred == Barred(steps[..i])
    {
      var events, structural;
      assert steps[..i + 1][..i] == steps[..i];
      match steps[i] {
        case Event(ev) => events, structural := r.Apply(ev);
        case Snapshot(list) =>
          ghost var groups;
          events, groups := r.ApplySnapshot(list);
      }
      FoldConcat(map[], told, events);
      told := told + events;
    }
    assert steps[..|steps|] == steps;
    forall k ensures k in r.Vouched() <==> k in r.agents && !(k.pane in r.barred && r.byPane[k.pane] == k) {
      VouchedExactly(r, k);
    }
    if OnePerPane(r.agents) {
      forall k ensures k in r.Vouched() <==> k in r.agents && k.pane !in r.barred {
        VouchedExactly(r, k);
      }
      forall d: Desk, o: Origin, action: Action, now: int |
        o.grant in d.st.grants && d.st.grants[o.grant].key.pane in r.barred
        ensures Decide(d, o, action, now, r.Vouched()) == Inactive
      {
        RetiredAdmitsNothing(r, d, o, action, now);
      }
    }
  }

  lemma {:induction false} FoldConcat(m: map<Key, Agent>, a: seq<Change>, b: seq<Change>)
    ensures Fold(m, a + b) == Fold(Fold(m, a), b)
  {
    if b == [] {
      assert a + b == a;
    } else {
      assert (a + b)[..|a + b| - 1] == a + b[..|b| - 1];
      FoldConcat(m, a, b[..|b| - 1]);
    }
  }
}
