/** What the reconciler's steps mean for the table of topics: which topic shows
    its agent, which table is settled, and how single steps add up to a pass. */
module TopicRules {
  import opened Keys
  import opened Topics
  import opened Reassociation
  import opened Planning
  import opened Mapping
  import opened World
  import opened Sorting

  // ---- what one topic should look like ----

  /** The entry shows the agent as it is now, or an operator muted it. */
  predicate Shown(e: TopicEntry, a: Agent) {
    e.muted || (!e.closed && e.status == a.status && e.name == DesiredName(a))
  }

  datatype Patch = Patch(name: Option<string>, status: Option<Status>) {
    predicate Empty() {
      name.None? && status.None?
    }
  }

  /** What an edit would write: a rename always carries the icon along. */
  function Diff(e: TopicEntry, a: Agent): (p: Patch)
    ensures p.name.Some? <==> e.status.Live() && e.name != DesiredName(a)
    ensures p.Empty() <==> !e.status.Live() || (e.name == DesiredName(a) && e.status == a.status)
    ensures p.status == if p.Empty() then None else Some(a.status)
    ensures e.status.Live() ==> Patched(e, p).name == DesiredName(a) && Patched(e, p).status == a.status
  {
    if !e.status.Live() then Patch(None, None)
    else if e.name != DesiredName(a) then Patch(Some(DesiredName(a)), Some(a.status))
    else if e.status != a.status then Patch(None, Some(a.status))
    else Patch(None, None)
  }

  function Patched(e: TopicEntry, p: Patch): TopicEntry {
    e.(name := if p.name.Some? then p.name.value else e.name,
       status := if p.status.Some? then p.status.value else e.status)
  }

  // ---- what is asked of Telegram for it ----

  function CloseRequests(e: TopicEntry): seq<Request> {
    if e.closed then [] else [CloseTopic(e.thread)]
  }

  function FinishRequest(e: TopicEntry): Request {
    EditTopic(e.thread, None, Some(Exited))
  }

  /** A topic an operator muted is not touched when its agent leaves. */
  function ExitRequests(e: TopicEntry): seq<Request> {
    if e.muted then [] else (if e.status.Live() then [FinishRequest(e)] else []) + CloseRequests(e)
  }

  /** The status is always sent, the name only when it differs. */
  function ShowRequest(e: TopicEntry, a: Agent): Request {
    EditTopic(e.thread, if e.name != DesiredName(a) then Some(DesiredName(a)) else None, Some(a.status))
  }

  function ReviveRequests(e: TopicEntry, a: Agent): seq<Request> {
    if e.muted then [] else (if e.closed then [ReopenTopic(e.thread)] else []) + [ShowRequest(e, a)]
  }

  /** A forced edit sends everything, an ordinary one what changed. */
  function EditRequests(e: TopicEntry, a: Agent, force: bool): seq<Request> {
    var p := if force && e.status.Live() then Patch(Some(DesiredName(a)), Some(a.status)) else Diff(e, a);
    if (e.muted && !force) || p.Empty() then [] else [EditTopic(e.thread, p.name, p.status)]
  }

  function TitleOf(e: TopicEntry): Title {
    Title(e.name, e.status, e.closed)
  }

  /** What accepted requests make of a topic. */
  function After(t: Title, requests: seq<Request>): Title
    decreases |requests|
  {
    if requests == [] then t else After(Taken(t, requests[0]), requests[1..])
  }

  lemma AfterFew(t: Title, r: Request, q: Request)
    ensures After(t, []) == t && After(t, [r]) == Taken(t, r)
    ensures After(t, [r, q]) == Taken(Taken(t, r), q)
  {
    assert [r][1..] == [] && [r, q][1..] == [q] && [q][1..] == [];
    assert After(t, [r]) == After(Taken(t, r), []);
    assert After(t, [r, q]) == After(Taken(t, r), [q]) == After(Taken(Taken(t, r), q), []);
  }

  /** If a topic looked as recorded, the requests for it make it look as wanted; a
      forced edit does so whatever the topic looked like. */
  lemma RequestsShow(e: TopicEntry, a: Agent, t: Title)
    requires !e.muted
    ensures e.status.Live() && !e.closed ==>
              After(TitleOf(e), EditRequests(e, a, false)) == Title(DesiredName(a), a.status, false)
    ensures e.status.Live() && !t.closed ==> After(t, EditRequests(e, a, true)) == Title(DesiredName(a), a.status, false)
    ensures !e.status.Live() ==> After(TitleOf(e), ReviveRequests(e, a)) == Title(DesiredName(a), a.status, false)
    ensures After(TitleOf(e), ExitRequests(e)) == Title(e.name, Exited, true)
  {
    hide After;
    var p := Diff(e, a);
    AfterFew(TitleOf(e), EditTopic(e.thread, p.name, p.status), CloseTopic(e.thread));
    AfterFew(t, EditTopic(e.thread, Some(DesiredName(a)), Some(a.status)), CloseTopic(e.thread));
    AfterFew(TitleOf(e), ReopenTopic(e.thread), ShowRequest(e, a));
    AfterFew(TitleOf(e), ShowRequest(e, a), CloseTopic(e.thread));
    AfterFew(TitleOf(e), FinishRequest(e), CloseTopic(e.thread));
    AfterFew(TitleOf(e), CloseTopic(e.thread), CloseTopic(e.thread));
    assert [ReopenTopic(e.thread)] + [ShowRequest(e, a)] == [ReopenTopic(e.thread), ShowRequest(e, a)];
    assert [FinishRequest(e)] + [CloseTopic(e.thread)] == [FinishRequest(e), CloseTopic(e.thread)];
    assert [] + [ShowRequest(e, a)] == [ShowRequest(e, a)] && [] + [CloseTopic(e.thread)] == [CloseTopic(e.thread)];
    var none: seq<Request> := [];
    assert [FinishRequest(e)] + none == [FinishRequest(e)] && none + none == none;
    assert !e.status.Live() ==> ExitRequests(e) == CloseRequests(e);
    assert e.closed && e.status.Live() ==> ExitRequests(e) == [FinishRequest(e)];
    assert !e.closed && e.status.Live() ==> ExitRequests(e) == [FinishRequest(e), CloseTopic(e.thread)];
  }

  /** Name, status, open state and time may change; the topic may not. */
  predicate SameBinding(e: TopicEntry, f: TopicEntry) {
    f == e.(name := f.name, status := f.status, closed := f.closed, muted := f.muted, updatedAt := f.updatedAt)
  }

  /** Agent a got its topic and nothing else changed. */
  ghost predicate Served(m: Table, m': Table, a: Agent) {
    var s := String(a.key);
    && m'.Keys == m.Keys + {s}
    && (forall t <- m | t != s :: m'[t] == m[t])
    && Shown(m'[s], a)
    && (if s in m then SameBinding(m[s], m'[s]) && m'[s].muted == m[s].muted
        else m'[s].thread !in Threads(m) && MetadataKnown(m'[s], a))
  }

  /** Nothing but the entry under s changed. */
  ghost predicate OnlyAt(m: Table, m': Table, s: Text) {
    s in m && m'.Keys == m.Keys && forall t <- m | t != s :: m'[t] == m[t]
  }

  /** The topic under s is finished and closed; nothing else changed. */
  ghost predicate Finished(m: Table, m': Table, s: Text) {
    OnlyAt(m, m', s) && m'[s] == m[s].(status := Exited, closed := true, updatedAt := m'[s].updatedAt)
  }

  /** Topics, metadata and mutes are untouched. */
  ghost predicate SameBindings(m: Table, m': Table) {
    m'.Keys == m.Keys && forall s <- m :: SameBinding(m[s], m'[s]) && m'[s].muted == m[s].muted
  }

  ghost predicate DeadExited(m: Table, live: set<Key>) {
    forall k | Stored(m, k) && k !in live :: m[String(k)].muted || m[String(k)].status == Exited
  }

  ghost predicate DeadClosed(m: Table, live: set<Key>) {
    forall k | Stored(m, k) && k !in live :: m[String(k)].muted || (m[String(k)].status == Exited && m[String(k)].closed)
  }

  /** The running topics of these agents stay running. */
  ghost predicate RunningKept(m: Table, m': Table, live: set<Key>) {
    forall k <- live | Stored(m, k) && m[String(k)].status.Live() :: Stored(m', k) && m'[String(k)].status.Live()
  }

  lemma RunningKeptOn(m: Table, m': Table, m'': Table, live: set<Key>)
    requires RunningKept(m, m', live) && RunningKept(m', m'', live)
    ensures RunningKept(m, m'', live)
  {
    hide String, ParseKey;
  }

  /** Finishing topics of other agents, or finished ones, is no matter to them. */
  lemma OthersFinished(m: Table, m': Table, keys: seq<Key>, live: set<Key>)
    requires FinishedSoFar(m, m', keys)
    requires forall k <- keys :: Stored(m, k) && (k !in live || !m[String(k)].status.Live())
    ensures RunningKept(m, m', live)
  {
    hide String, ParseKey;
    forall k | k in live && Stored(m, k) && m[String(k)].status.Live() ensures String(k) !in Slots(keys) {
      ParsedIsStored(m, String(k));
    }
  }

  /** The topics of the keys handled so far are finished, the others as before. */
  ghost predicate FinishedSoFar(m: Table, m': Table, keys: seq<Key>) {
    && SameBindings(m, m')
    && (forall k <- keys :: Stored(m, k) && m'[String(k)].status == Exited && m'[String(k)].closed)
    && (forall s <- m :: s !in Slots(keys) ==> m'[s] == m[s])
  }

  ghost function Slots(keys: seq<Key>): set<Text> {
    set k | k in keys :: String(k)
  }

  lemma FinishOneMore(m: Table, before: Table, after: Table, keys: seq<Key>, k: Key)
    requires FinishedSoFar(m, before, keys) && Stored(m, k) && Finished(before, after, String(k))
    ensures FinishedSoFar(m, after, keys + [k])
  {
    hide String, ParseKey;
    assert Slots(keys + [k]) == Slots(keys) + {String(k)};
    forall j | j in keys + [k]
      ensures Stored(m, j) && after[String(j)].status == Exited && after[String(j)].closed
    {
      if String(j) != String(k) {
        assert j in keys && after[String(j)] == before[String(j)];
      } else {
        ParsedIsStored(m, String(k));
      }
    }
    forall s | s in m ensures SameBinding(m[s], after[s]) && after[s].muted == m[s].muted {
      assert SameBinding(m[s], before[s]);
    }
  }

  lemma FinishedNone(m: Table)
    ensures FinishedSoFar(m, m, [])
  {
  }

  lemma FinishedKeys(m: Table, m': Table, keys: seq<Key>)
    requires FinishedSoFar(m, m', keys)
    ensures m'.Keys == m.Keys
  {
  }

  lemma NoOrphans(m: Table, keys: seq<Key>, live: set<Key>)
    requires forall k <- keys :: Stored(m, k) && k !in live && m[String(k)].status.Live() && !m[String(k)].muted
    ensures keys != [] ==> !DeadExited(m, live)
  {
    hide String, ParseKey;
    if keys != [] {
      var k := keys[0];
      assert k in keys && Stored(m, k);
    }
  }

  lemma NoUnclosed(m: Table, keys: seq<Key>)
    requires forall k <- keys ::
               Stored(m, k) && !m[String(k)].status.Live() && !m[String(k)].closed && !m[String(k)].muted
    ensures keys != [] ==> !NoneUnclosed(m)
  {
    hide String, ParseKey;
    if keys != [] {
      var k := keys[0];
      assert k in keys && Stored(m, k);
    }
  }

  lemma AllOrphansFinished(m: Table, m': Table, keys: seq<Key>, live: set<Key>)
    requires FinishedSoFar(m, m', keys)
    requires forall k :: k in keys <==> (Stored(m, k) && k !in live && m[String(k)].status.Live() && !m[String(k)].muted)
    ensures DeadExited(m', live) && SameBindings(m, m')
  {
    hide String, ParseKey;
    forall k | Stored(m, k) && k !in keys ensures String(k) !in Slots(keys) {
    }
  }

  ghost predicate NoneUnclosed(m: Table) {
    forall k | Stored(m, k) :: m[String(k)].status.Live() || m[String(k)].closed || m[String(k)].muted
  }

  lemma AllUnclosedFinished(m: Table, m': Table, keys: seq<Key>, live: set<Key>)
    requires FinishedSoFar(m, m', keys)
    requires forall k :: k in keys <==>
               (Stored(m, k) && !m[String(k)].status.Live() && !m[String(k)].closed && !m[String(k)].muted)
    ensures SameBindings(m, m') && (DeadExited(m, live) ==> DeadClosed(m', live))
  {
    hide String, ParseKey;
    forall k | Stored(m, k) && k !in keys ensures String(k) !in Slots(keys) {
    }
  }

  /** Live agents as the registry lists them, known to the reconciler. */
  ghost predicate Servable(live: seq<Agent>, agents: map<Key, Agent>) {
    && DistinctKeys(live)
    && (forall a <- live :: WellFormed(a.key) && a.status.Live() && a.key in agents && agents[a.key] == a)
  }

  /** The agents without an entry whose request for a topic is unresolved. */
  ghost function Hindered(m: Table, pending: set<Text>, live: seq<Agent>): set<Key> {
    set a | a in live && String(a.key) !in m && String(a.key) in pending :: a.key
  }

  ghost predicate AllShown(m: Table, live: seq<Agent>) {
    forall a <- live :: String(a.key) in m && Shown(m[String(a.key)], a)
  }

  ghost function LiveSlots(live: seq<Agent>): set<Text> {
    set a | a in live :: String(a.key)
  }

  predicate MetadataKept(e: TopicEntry, f: TopicEntry) {
    f.cwd == e.cwd && f.kind == e.kind && f.legacyNoCwd == e.legacyNoCwd
  }

  /** Every agent of live is served and everything else is as it was. */
  ghost predicate ServedAll(m: Table, m': Table, live: seq<Agent>) {
    && m'.Keys == m.Keys + LiveSlots(live)
    && (forall t <- m | t !in LiveSlots(live) :: m'[t] == m[t])
    && AllShown(m', live)
    && (OnePerThread(m) ==> OnePerThread(m'))
    && (forall t <- m :: MetadataKept(m[t], m'[t]))
    && (forall a <- live :: String(a.key) !in m ==> MetadataKnown(m'[String(a.key)], a))
  }

  lemma ServedNone(m: Table)
    ensures ServedAll(m, m, [])
  {
  }

  lemma ServableAt(live: seq<Agent>, agents: map<Key, Agent>, i: nat)
    requires Servable(live, agents) && i < |live|
    ensures live[i].status.Live() && live[i].key in agents && agents[live[i].key] == live[i]
    ensures String(live[i].key) !in LiveSlots(live[..i])
  {
    hide String, ParseKey, WellFormed;
    var a := live[i];
    forall b | b in live[..i] ensures String(b.key) != String(a.key) {
      if String(b.key) == String(a.key) {
        StringInjective(a.key, b.key);
      }
    }
  }

  lemma ShownAt(m: Table, live: seq<Agent>, a: Agent)
    requires AllShown(m, live) && a in live
    ensures String(a.key) in m && Shown(m[String(a.key)], a)
  {
  }

  lemma ServedOnePerThread(m: Table, m': Table, a: Agent)
    requires Served(m, m', a) && OnePerThread(m)
    ensures OnePerThread(m')
  {
    hide String, ParseKey, Threads;
    var s := String(a.key);
    forall t | t in m && t != s ensures m'[t].thread != m'[s].thread {
      if s !in m {
        assert m[t].thread in Threads(m) by {
          InThreads(m, t);
        }
      }
    }
  }

  lemma InThreads(m: Table, s: Text)
    requires s in m
    ensures m[s].thread in Threads(m)
  {
  }

  lemma KeptOneMore(m: Table, before: Table, after: Table, live: seq<Agent>, a: Agent)
    requires ServedAll(m, before, live) && Served(before, after, a)
    ensures forall t <- m :: t in after && MetadataKept(m[t], after[t])
  {
    hide String, ParseKey, Threads, OnePerThread, Shown, AllShown, MetadataKnown, LiveSlots;
    forall t | t in m ensures t in after && MetadataKept(m[t], after[t]) {
      assert MetadataKept(m[t], before[t]);
    }
  }

  lemma ShownOneMore(m: Table, before: Table, after: Table, live: seq<Agent>, a: Agent)
    requires ServedAll(m, before, live) && Served(before, after, a) && String(a.key) !in LiveSlots(live)
    ensures forall b | b in live + [a] ::
              && String(b.key) in after && Shown(after[String(b.key)], b)
              && (String(b.key) !in m ==> MetadataKnown(after[String(b.key)], b))
  {
    hide String, ParseKey, Threads, OnePerThread, Shown, MetadataKept, MetadataKnown;
    forall b | b in live + [a]
      ensures String(b.key) in after && Shown(after[String(b.key)], b)
      ensures String(b.key) !in m ==> MetadataKnown(after[String(b.key)], b)
    {
      if b != a {
        assert b in live && String(b.key) in LiveSlots(live);
      }
    }
  }

  lemma SlotsOneMore(m: Table, before: Table, after: Table, live: seq<Agent>, a: Agent)
    requires ServedAll(m, before, live) && Served(before, after, a)
    ensures LiveSlots(live + [a]) == LiveSlots(live) + {String(a.key)}
    ensures after.Keys == m.Keys + LiveSlots(live + [a])
    ensures forall t <- m | t !in LiveSlots(live + [a]) :: after[t] == m[t]
    ensures OnePerThread(m) ==> OnePerThread(after)
  {
    hide String, ParseKey, Threads, OnePerThread, Shown, AllShown, MetadataKept, MetadataKnown;
    if OnePerThread(before) {
      ServedOnePerThread(before, after, a);
    }
  }

  lemma ServeOneMore(m: Table, before: Table, after: Table, live: seq<Agent>, agents: map<Key, Agent>, i: nat)
    requires Servable(live, agents) && i < |live|
    requires ServedAll(m, before, live[..i]) && Served(before, after, live[i])
    ensures ServedAll(m, after, live[..i + 1])
  {
    hide String, ParseKey, Threads, Servable, OnePerThread, Shown, MetadataKept, MetadataKnown, LiveSlots, Served;
    var a := live[i];
    ServableAt(live, agents, i);
    assert live[..i + 1] == live[..i] + [a];
    SlotsOneMore(m, before, after, live[..i], a);
    KeptOneMore(m, before, after, live[..i], a);
    ShownOneMore(m, before, after, live[..i], a);
  }

  // ---- the order of service ----

  predicate ServedBefore(a: Agent, b: Agent) {
    AtMost(String(a.key), String(b.key))
  }

  lemma ServiceLinear()
    ensures Linear(ServedBefore)
  {
    hide String, Before;
    forall a: Agent, b: Agent, c: Agent
      ensures ServedBefore(a, b) || ServedBefore(b, a)
      ensures ServedBefore(a, b) && ServedBefore(b, c) ==> ServedBefore(a, c)
    {
      BeforeTotal(String(a.key), String(b.key), String(c.key));
    }
  }

  ghost predicate Ahead(k: Key, stuck: set<Key>) {
    forall j <- stuck :: Before(String(k), String(j))
  }

  /** served holds agents of live only, and all that come before the stuck ones. */
  ghost predicate ServedOf(served: seq<Agent>, live: seq<Agent>, stuck: set<Key>) {
    && (forall a <- served :: a in live)
    && (forall a <- live | Ahead(a.key, stuck) :: a in served)
  }

  lemma OrderServable(live: seq<Agent>, order: seq<Agent>, agents: map<Key, Agent>)
    requires multiset(order) == multiset(live)
    ensures Servable(live, agents) ==> Servable(order, agents)
    ensures forall a :: a in order <==> a in live
  {
    hide WellFormed;
    SameMembers(live, order);
    if Servable(live, agents) {
      DistinctStays(live, order, (a: Agent) => a.key);
    }
  }

  lemma ServedUpTo(order: seq<Agent>, live: seq<Agent>, stuck: set<Key>, i: nat)
    requires Sorted(order, ServedBefore) && (forall a :: a in order <==> a in live)
    requires i == |order| || (i < |order| && order[i].key in stuck)
    ensures ServedOf(order[..i], live, stuck)
  {
    hide String, Before;
    forall j | i <= j < |order| ensures !Ahead(order[j].key, stuck) {
      BeforeTotal(String(order[i].key), String(order[j].key), String(order[i].key));
      assert j == i || ServedBefore(order[i], order[j]);
    }
    forall a | a in live && Ahead(a.key, stuck) ensures a in order[..i] {
      var j :| 0 <= j < |order| && order[j] == a;
    }
  }

  /** Serving the agents before it makes no difference to whether one is hindered. */
  lemma HinderedAt(m: Table, before: Table, pending: set<Text>, live: seq<Agent>, order: seq<Agent>,
                   agents: map<Key, Agent>, i: nat)
    requires Servable(order, agents) && i < |order| && ServedAll(m, before, order[..i])
    requires forall a :: a in order <==> a in live
    ensures var s := String(order[i].key);
      order[i].key in Hindered(m, pending, live) <==> s !in before && s in pending
  {
    hide String, ParseKey, Servable, OnePerThread, AllShown, MetadataKept, MetadataKnown, LiveSlots;
    ServableAt(order, agents, i);
    assert order[i] in live;
  }

  lemma NoneHindered(m: Table, pending: set<Text>, live: seq<Agent>, order: seq<Agent>)
    requires forall a <- live :: a in order
    requires forall i | 0 <= i < |order| :: order[i].key !in Hindered(m, pending, live)
    ensures Hindered(m, pending, live) == {}
  {
    hide String;
    forall a | a in live ensures a.key !in Hindered(m, pending, live) {
      var i :| 0 <= i < |order| && order[i] == a;
    }
  }

  /** Everybody before the first stuck agent has its topic. */
  ghost predicate Reached(m: Table, live: seq<Agent>, stuck: set<Key>) {
    forall a <- live | Ahead(a.key, stuck) :: String(a.key) in m && Shown(m[String(a.key)], a)
  }

  lemma ServedAllKnown(m: Table, m': Table, served: seq<Agent>, live: seq<Agent>)
    requires ServedAll(m, m', served) && AllKnown(m, live) && forall a <- live :: a in served
    ensures AllKnown(m', live)
  {
    hide String, ParseKey, Threads;
    forall a | a in live && String(a.key) in m ensures MetadataKnown(m'[String(a.key)], a) {
      assert MetadataKept(m[String(a.key)], m'[String(a.key)]);
    }
  }

  /** What the registry hands over: distinct, well-formed keys of running agents. */
  ghost predicate LiveSnapshot(live: seq<Agent>) {
    DistinctKeys(live) && forall a <- live :: WellFormed(a.key) && a.status.Live()
  }

  /** Every live agent has an up-to-date topic (or a muted one), every other
      readable entry is finished and closed (or muted), one entry per topic. */
  ghost predicate Settled(m: Table, live: seq<Agent>) {
    OnePerThread(m) && AllShown(m, live) && AllKnown(m, live) && DeadClosed(m, KeysOf(live))
  }

  lemma KeysAgree(live: seq<Agent>)
    ensures LastByKey(live).Keys == ByKey(live).Keys == KeysOf(live)
    ensures forall k <- LastByKey(live) :: LastByKey(live)[k].key == k
    ensures LiveSnapshot(live) ==> AllWellFormed(ByKey(live)) && DistinctKeys(live)
  {
    hide WellFormed, DistinctKeys, LastWith;
    forall k | k in ByKey(live) ensures k in KeysOf(live) {
      assert ByKey(live)[k] in live;
    }
  }

  lemma SnapshotServable(live: seq<Agent>, agents: map<Key, Agent>)
    requires LiveSnapshot(live) && agents.Keys <= LastByKey(live).Keys
    requires forall k <- ByKey(live) :: k in agents
    requires forall k <- agents :: agents[k] == LastByKey(live)[k]
    ensures Servable(live, agents)
  {
    hide WellFormed, DistinctKeys, LastByKey, ByKey;
    forall a | a in live ensures a.key in agents && agents[a.key] == a {
      LastIsOnly(live, a);
    }
  }

  lemma SettledNeedsNothing(m: Table, live: seq<Agent>)
    requires LiveSnapshot(live) && Settled(m, live)
    ensures OnePerThread(m) && AllShown(m, live) && AllKnown(m, live)
    ensures forall a <- live :: String(a.key) in m
    ensures DeadExited(m, KeysOf(live)) && NoneUnclosed(m)
  {
    hide String, ParseKey, WellFormed, DistinctKeys, OnePerThread, AllKnown;
    forall k | Stored(m, k) && k in KeysOf(live) ensures m[String(k)].status.Live() || m[String(k)].muted {
      var a :| a in live && a.key == k;
    }
  }

  lemma SameBindingsKeep(m: Table, m': Table, live: seq<Agent>)
    requires SameBindings(m, m')
    ensures OnePerThread(m) ==> OnePerThread(m')
    ensures AllKnown(m, live) ==> AllKnown(m', live)
  {
    hide String, ParseKey;
    if OnePerThread(m) {
      forall s, t | s in m' && t in m' && s != t ensures m'[s].thread != m'[t].thread {
        assert SameBinding(m[s], m'[s]) && SameBinding(m[t], m'[t]);
      }
    }
    if AllKnown(m, live) {
      forall a | a in live && String(a.key) in m' ensures MetadataKnown(m'[String(a.key)], a) {
        assert SameBinding(m[String(a.key)], m'[String(a.key)]);
      }
    }
  }

  /** The dead stay finished while the live are served. */
  lemma ServedLeavesDead(m: Table, m': Table, served: seq<Agent>, live: seq<Agent>)
    requires LiveSnapshot(live) && ServedAll(m, m', served) && DeadClosed(m, KeysOf(live))
    requires forall a <- served :: a in live
    ensures DeadClosed(m', KeysOf(live))
  {
    hide String, ParseKey, WellFormed, DistinctKeys, AllShown, OnePerThread;
    forall k | Stored(m', k) && k !in KeysOf(live)
      ensures m'[String(k)].muted || (m'[String(k)].status == Exited && m'[String(k)].closed)
    {
      ParseString(k);
      forall a | a in served ensures String(a.key) != String(k) {
        if String(a.key) == String(k) {
          StringInjective(a.key, k);
        }
      }
      assert String(k) !in LiveSlots(served);
      assert Stored(m, k);
    }
  }

  /** What a pass without failures leaves behind: the dead are finished, and the
      live are shown up to the first one that is stuck. */
  ghost predicate Replayed(m: Table, live: seq<Agent>, stuck: set<Key>) {
    && OnePerThread(m) && DeadClosed(m, KeysOf(live)) && Reached(m, live, stuck)
    && (stuck == {} ==> Settled(m, live))
  }

  lemma PassSettles(m1: Table, m2: Table, m3: Table, m4: Table, served: seq<Agent>, live: seq<Agent>, stuck: set<Key>)
    requires LiveSnapshot(live) && OnePerThread(m1) && AllKnown(m1, live)
    requires SameBindings(m1, m2) && SameBindings(m2, m3) && DeadClosed(m3, KeysOf(live))
    requires ServedAll(m3, m4, served) && ServedOf(served, live, stuck)
    ensures Replayed(m4, live, stuck)
  {
    hide String, ParseKey, WellFormed, DistinctKeys, LiveSnapshot, OnePerThread, AllKnown, SameBindings, DeadClosed, Shown;
    SameBindingsKeep(m1, m2, live);
    SameBindingsKeep(m2, m3, live);
    ServedLeavesDead(m3, m4, served, live);
    if stuck == {} {
      assert forall a <- live :: a in served;
      ServedAllKnown(m3, m4, served, live);
    }
  }

  lemma SameKeys(m: Table, m': Table, m'': Table)
    requires SameBindings(m, m') && SameBindings(m', m'')
    ensures m''.Keys == m.Keys
  {
    hide SameBinding;
  }

  lemma SameHindered(m: Table, m': Table, m'': Table, pending: set<Text>, live: seq<Agent>)
    requires SameBindings(m, m') && SameBindings(m', m'')
    ensures Hindered(m'', pending, live) == Hindered(m, pending, live)
  {
    hide SameBinding;
  }

  lemma DedupedOpen(m: Table)
    ensures OpenWhileLive(m) ==> OpenWhileLive(Deduped(m))
    ensures Deduped(m).Keys <= m.Keys && forall s <- Deduped(m) :: Deduped(m)[s] == m[s]
  {
    hide Best;
  }

  lemma SameSizeSame(m: Table, kept: Table)
    requires kept.Keys <= m.Keys && forall s <- kept :: kept[s] == m[s]
    requires |kept| >= |m|
    ensures kept == m
  {
    assert kept.Keys <= m.Keys;
    if kept.Keys != m.Keys {
      var s :| s in m && s !in kept;
      SubsetSize(kept.Keys, m.Keys - {s});
    }
  }

  lemma ServedIfShown(m: Table, a: Agent)
    requires String(a.key) in m && Shown(m[String(a.key)], a)
    ensures Served(m, m, a)
  {
  }

  lemma ServedByEdit(m: Table, m': Table, a: Agent)
    requires OnlyAt(m, m', String(a.key)) && Shown(m'[String(a.key)], a)
    requires SameBinding(m[String(a.key)], m'[String(a.key)]) && m'[String(a.key)].muted == m[String(a.key)].muted
    ensures Served(m, m', a)
  {
  }

  /** A step that leaves the binding alone may come before the service. */
  lemma ServedOn(m: Table, m': Table, m'': Table, a: Agent)
    requires OnlyAt(m, m', String(a.key)) && SameBinding(m[String(a.key)], m'[String(a.key)])
    requires m'[String(a.key)].muted == m[String(a.key)].muted
    requires Served(m', m'', a)
    ensures Served(m, m'', a)
  {
    hide String, Threads, MetadataKnown, Shown;
  }

  lemma ServedByLink(m: Table, m': Table, a: Agent)
    requires String(a.key) !in m && String(a.key) in m' && m' == m[String(a.key) := m'[String(a.key)]]
    requires Shown(m'[String(a.key)], a) && MetadataKnown(m'[String(a.key)], a)
    requires m'[String(a.key)].thread !in Threads(m)
    ensures Served(m, m', a)
  {
  }

  /** Only entries of long finished agents went, and their topics are gone. */
  ghost predicate Swept(m: Table, m': Table, existing: set<int>, now: int, maxAge: int) {
    && m'.Keys <= m.Keys && (forall s <- m' :: m'[s] == m[s])
    && forall s | s in m && s !in m' :: m[s].thread !in existing && IsStale(m[s], now, maxAge)
  }

  const SWEEP_BATCH := 50

  /** tried are the first of the stale entries, the oldest first. */
  ghost predicate OldestStale(m: Table, now: int, maxAge: int, tried: seq<Key>) {
    && (forall k <- tried :: Stored(m, k) && IsStale(m[String(k)], now, maxAge))
    && (forall i, j | 0 <= i < j < |tried| :: tried[i] != tried[j] && OlderFirst(m, tried[i], tried[j]))
    && (forall k, t | Stored(m, k) && IsStale(m[String(k)], now, maxAge) && k !in tried && t in tried :: OlderFirst(m, t, k))
  }

  /** Every stale entry was tried, or a whole batch. */
  ghost predicate BatchDone(m: Table, now: int, maxAge: int, tried: seq<Key>) {
    |tried| == 50 || forall k | Stored(m, k) && IsStale(m[String(k)], now, maxAge) :: k in tried
  }

  lemma NothingTried(m: Table, now: int, maxAge: int)
    ensures OldestStale(m, now, maxAge, []) && Deletions(m, []) == [] && m - Confirmed([], []) == m
  {
  }

  lemma StaleAt(m: Table, now: int, maxAge: int, keys: seq<Key>, i: nat)
    requires i < |keys| && OldestStale(m, now, maxAge, keys)
    ensures Stored(m, keys[i]) && IsStale(m[String(keys[i])], now, maxAge) && keys[i] !in keys[..i]
    ensures forall k <- keys[..i] :: Stored(m, k)
  {
    hide String, ParseKey, IsStale, OlderFirst;
    assert keys[i] in keys;
  }

  /** Stopping early leaves the oldest tried. */
  lemma OldestPrefix(m: Table, now: int, maxAge: int, keys: seq<Key>, n: nat)
    requires n <= |keys| && OldestStale(m, now, maxAge, keys)
    ensures OldestStale(m, now, maxAge, keys[..n])
  {
    hide String, ParseKey, IsStale, OlderFirst;
    assert forall i | 0 <= i < n :: keys[i] == keys[..n][i] && keys[i] in keys[..n];
    forall k, t | k in keys && k !in keys[..n] && t in keys[..n] ensures OlderFirst(m, t, k) {
      var i :| 0 <= i < |keys| && keys[i] == k;
      var j :| 0 <= j < n && keys[j] == t;
    }
  }

  lemma FirstOfStale(m: Table, now: int, maxAge: int, keys: seq<Key>, n: nat)
    requires n <= |keys|
    requires forall k :: k in keys <==> Stored(m, k) && IsStale(m[String(k)], now, maxAge)
    requires forall i, j | 0 <= i < j < |keys| :: keys[i] != keys[j] && OlderFirst(m, keys[i], keys[j])
    ensures OldestStale(m, now, maxAge, keys[..n])
    ensures n == |keys| || n == SWEEP_BATCH ==> BatchDone(m, now, maxAge, keys[..n])
  {
    hide String, ParseKey, IsStale, OlderFirst;
    OldestPrefix(m, now, maxAge, keys, n);
    assert n == |keys| ==> keys[..n] == keys;
  }

  /** The requests of a sweep. */
  ghost function Deletions(m: Table, tried: seq<Key>): seq<Request> {
    if tried == [] then []
    else
      var n := |tried| - 1;
      Deletions(m, tried[..n]) + if String(tried[n]) in m then [DeleteTopic(m[String(tried[n])].thread)] else []
  }

  /** The entries whose topics are confirmed to be gone. */
  ghost function Confirmed(tried: seq<Key>, answers: seq<Outcome>): set<Text>
    requires |answers| <= |tried|
  {
    set i | 0 <= i < |answers| && (answers[i] == Accepted || answers[i] == Gone) :: String(tried[i])
  }

  /** Where a sweep stands: what was asked for since the log was log0, and what has
      gone. */
  ghost predicate SweptSo(m: Table, m': Table, existing: set<int>, now: int, maxAge: int,
                          tried: seq<Key>, answers: seq<Outcome>, log0: seq<Request>, log: seq<Request>) {
    && |answers| == |tried| && log == log0 + Deletions(m, tried) && m' == m - Confirmed(tried, answers)
    && Swept(m, m', existing, now, maxAge)
  }

  lemma SweptStart(m: Table, existing: set<int>, now: int, maxAge: int, log: seq<Request>)
    ensures SweptSo(m, m, existing, now, maxAge, [], [], log, log)
  {
  }

  lemma SweptStep(m: Table, before: Table, after: Table, existing: set<int>, existing': set<int>, now: int, maxAge: int,
                  tried: seq<Key>, answers: seq<Outcome>, log0: seq<Request>, log: seq<Request>, k: Key, r: Outcome)
    requires SweptSo(m, before, existing, now, maxAge, tried, answers, log0, log) && existing' <= existing
    requires Stored(m, k) && IsStale(m[String(k)], now, maxAge) && k !in tried && forall j <- tried :: Stored(m, j)
    requires after == if r.Confirms() then before - {String(k)} else before
    requires r.Confirms() ==> m[String(k)].thread !in existing'
    ensures SweptSo(m, after, existing', now, maxAge, tried + [k], answers + [r], log0,
                    log + [DeleteTopic(m[String(k)].thread)])
  {
    hide String, ParseKey, IsStale, Swept, Stored, Confirmed;
    assert (tried + [k])[..|tried|] == tried;
    ConfirmedMore(m, tried, answers, k, r);
    SweptMore(m, before, after, existing, existing', now, maxAge, String(k));
  }

  lemma ConfirmedMore(m: Table, tried: seq<Key>, answers: seq<Outcome>, k: Key, r: Outcome)
    requires |answers| == |tried| && Stored(m, k) && k !in tried && forall j <- tried :: Stored(m, j)
    ensures Confirmed(tried + [k], answers + [r]) == Confirmed(tried, answers) + if r.Confirms() then {String(k)} else {}
    ensures String(k) in m && String(k) !in Confirmed(tried, answers)
  {
    hide String, ParseKey;
    var more, also := tried + [k], answers + [r];
    assert forall i | 0 <= i < |answers| :: more[i] == tried[i] && also[i] == answers[i] && tried[i] in tried;
    assert more[|answers|] == k && also[|answers|] == r;
    forall s | s in Confirmed(tried, answers) ensures s in Confirmed(more, also) {
      var i :| 0 <= i < |answers| && answers[i].Confirms() && String(tried[i]) == s;
      assert also[i].Confirms() && String(more[i]) == s;
    }
    if r.Confirms() {
      assert also[|answers|].Confirms() && String(more[|answers|]) == String(k);
    }
  }

  lemma StillThere(m: Table, m': Table, existing: set<int>, now: int, maxAge: int,
                   tried: seq<Key>, answers: seq<Outcome>, log0: seq<Request>, log: seq<Request>, k: Key)
    requires SweptSo(m, m', existing, now, maxAge, tried, answers, log0, log)
    requires Stored(m, k) && k !in tried && forall j <- tried :: Stored(m, j)
    ensures String(k) in m' && m'[String(k)] == m[String(k)]
  {
    hide String, ParseKey, Swept, Deletions, Stored, Confirmed;
    ConfirmedMore(m, tried, answers, k, Other);
  }

  lemma SweptMore(m: Table, before: Table, after: Table, existing: set<int>, existing': set<int>,
                  now: int, maxAge: int, s: Text)
    requires Swept(m, before, existing, now, maxAge) && existing' <= existing
    requires after == before || (after == before - {s} && s in before && before[s].thread !in existing')
    requires s in m ==> IsStale(m[s], now, maxAge)
    ensures Swept(m, after, existing', now, maxAge)
  {
    hide IsStale;
  }

  lemma SizeWithout(m: Table, s: Text)
    requires s in m
    ensures |m - {s}| == |m| - 1
  {
    assert (m - {s}).Keys == m.Keys - {s};
  }

  lemma OneAgent(a: Agent)
    ensures AllWellFormed(ByKey([a])) <==> WellFormed(a.key)
    ensures ByKey([a]).Keys == {a.key}
    ensures forall m, pending ::
              Hindered(m, pending, [a]) == if String(a.key) !in m && String(a.key) in pending then {a.key} else {}
  {
    assert [a][..0] == [];
  }

  /** The agent's entry names a topic that no entry named before, made for it. */
  ghost predicate Replaced(m: Table, m': Table, a: Agent) {
    var s := String(a.key);
    s in m' && m' == (m - {s})[s := m'[s]] && m'[s].thread !in Threads(m - {s}) && LinkedFor(m'[s], a)
  }

  ghost predicate LinkedFor(e: TopicEntry, a: Agent) {
    e.status == a.status && !e.closed && !e.muted && MetadataKnown(e, a)
  }

  /** Replacing after a step that changed this entry alone is replacing. */
  lemma SameOthers(m: Table, m': Table, m'': Table, a: Agent)
    requires OnlyAt(m, m', String(a.key))
    ensures Replaced(m', m'', a) ==> Replaced(m, m'', a)
  {
    hide String, LinkedFor;
    assert m - {String(a.key)} == m' - {String(a.key)};
  }

  lemma ServedKeys(m: Table, m': Table, a: Agent)
    requires Served(m, m', a)
    ensures String(a.key) in m'
  {
    hide String, Threads, Shown, MetadataKnown;
  }

  lemma ServedThread(m: Table, m': Table, a: Agent)
    ensures Served(m, m', a) && String(a.key) in m ==> m'[String(a.key)].thread == m[String(a.key)].thread
  {
    hide String, Threads, Shown, MetadataKnown;
  }

  lemma ServedShows(m: Table, m': Table, a: Agent)
    requires Served(m, m', a) && String(a.key) in m
    ensures String(a.key) in m' && Shown(m'[String(a.key)], a) && m'[String(a.key)].muted == m[String(a.key)].muted
  {
  }

  lemma FinishedShows(m: Table, m': Table, s: Text)
    requires Finished(m, m', s)
    ensures s in m' && m'[s].status == Exited && m'[s].closed
  {
  }

  lemma ClaimsThread(m: Table, thread: int, k: Option<Key>)
    requires Claims(m, thread, k) && k.Some? && Stored(m, k.value)
    ensures m[String(k.value)].thread == thread
  {
    hide String, ParseKey, Beats;
    var n := m - {[]};
    var s :| Best(n, s) && n[s].thread == thread && k == ParseKey(s);
    ParsedIsStored(m, s);
  }

  lemma OpenAt(m: Table, s: Text)
    requires OpenWhileLive(m) && s in m
    ensures m[s].status.Live() ==> !m[s].closed
  {
  }

  lemma OpenUpdate(m: Table, s: Text, e: TopicEntry)
    requires OpenWhileLive(m) && (e.status.Live() ==> !e.closed)
    ensures OpenWhileLive(m[s := e])
  {
  }

  lemma LinkedOpen(m: Table, m': Table, s: Text)
    requires OpenWhileLive(m) && s in m' && m' == m[s := m'[s]] && !m'[s].closed
    ensures OpenWhileLive(m')
  {
  }

  lemma ThreadsUpdate(m: Table, s: Text, e: TopicEntry)
    requires s in m && e.thread == m[s].thread
    ensures Threads(m[s := e]) == Threads(m)
  {
    var n := m[s := e];
    forall t ensures t in Threads(m) <==> t in Threads(n) {
      if x :| x in m && m[x].thread == t {
        assert n[x].thread == t;
      }
      if x :| x in n && n[x].thread == t {
        assert m[x].thread == t;
      }
    }
  }

  /** Dropping an entry unlinks nothing that exists if its topic is gone. */
  lemma ThreadsForget(m: Table, s: Text, existing: set<int>)
    requires s in m ==> m[s].thread !in existing
    ensures Threads(m) * existing <= Threads(m - {s}) <= Threads(m)
  {
    var n := m - {s};
    forall t | t in existing && t in Threads(m) ensures t in Threads(n) {
      var x :| x in m && m[x].thread == t;
      assert n[x].thread == t;
    }
    forall t | t in Threads(n) ensures t in Threads(m) {
      var x :| x in n && n[x].thread == t;
      assert m[x].thread == t;
    }
  }

  lemma ThreadsLink(m: Table, s: Text, e: TopicEntry)
    requires s !in m
    ensures Threads(m[s := e]) == Threads(m) + {e.thread}
  {
    var n := m[s := e];
    assert n[s].thread == e.thread;
    forall t | t in Threads(m) ensures t in Threads(n) {
      var x :| x in m && m[x].thread == t;
      assert n[x].thread == t;
    }
    forall t | t in Threads(n) ensures t in Threads(m) + {e.thread} {
      var x :| x in n && n[x].thread == t;
      if x != s {
        assert m[x].thread == t;
      }
    }
  }

  /** Without an intent there is no unlinked topic, so the intent may go. */
  lemma GuardedWithoutIntent(existing: set<int>, creator: map<int, Text>, st: Snapshot, key: Text)
    requires Guarded(existing, creator, st)
    requires forall u <- Orphans(existing, creator, st) :: creator[u] != key
    ensures Guarded(existing, creator, Snapshot(st.topics, st.pending - {key}))
  {
    hide Threads;
  }

  lemma IntentCovers(existing: set<int>, creator: map<int, Text>, st: Snapshot, key: Text)
    requires Guarded(existing, creator, st) && key !in st.pending
    ensures forall p :: forall u <- Orphans(existing, creator, Snapshot(st.topics, p)) :: creator[u] != key
  {
    hide Threads;
    forall p, u | u in Orphans(existing, creator, Snapshot(st.topics, p)) ensures creator[u] != key {
      assert u in Orphans(existing, creator, st);
    }
  }

  lemma OrphansFewer(existing: set<int>, fewer: set<int>, creator: map<int, Text>, st: Snapshot, key: Text)
    requires fewer <= existing
    requires forall u <- Orphans(existing, creator, st) :: creator[u] != key
    ensures forall u <- Orphans(fewer, creator, st) :: creator[u] != key
  {
  }

  lemma OrphansNew(existing: set<int>, existing': set<int>, creator: map<int, Text>, st: Snapshot, key: Text, t: int)
    requires existing' <= existing + {t}
    requires forall u <- Orphans(existing, creator, st) :: creator[u] != key
    ensures var creator' := creator[t := key];
      forall u <- Orphans(existing', creator', st) :: u == t || creator'[u] != key
  {
    hide Threads;
  }

  // ---- reassociation ----

  /** The live agents took over their entries: the moves of a plan, possibly with
      newer metadata. */
  ghost predicate Adopted(m: Table, live: seq<Agent>, m': Table) {
    exists p, moved :: IsPlan(m, ByKey(live), p) && IsMoved(m, p.assignments, moved) && Refreshed(moved, m')
  }

  ghost predicate FindsNone(m: Table, live: seq<Agent>, k: Key) {
    forall s, r :: !Assigns(m, ByKey(live), k, s, r)
  }

  /** The agents whose request for a topic is unresolved and that may not take over
      any stored entry. */
  ghost function Stuck(m: Table, pending: set<Text>, live: seq<Agent>): set<Key> {
    set a | a in live && String(a.key) in pending && FindsNone(m, live, a.key) :: a.key
  }

  /** An agent has an entry afterwards exactly if the rules assign it one. */
  lemma AdoptedExactly(m: Table, live: seq<Agent>, m': Table, k: Key)
    requires Adopted(m, live, m') && AllWellFormed(ByKey(live)) && k in ByKey(live)
    ensures String(k) in m' <==> !FindsNone(m, live, k)
  {
    hide String, ParseKey, Assigns, IsMoved, AllWellFormed, ByKey;
    var p, moved :| IsPlan(m, ByKey(live), p) && IsMoved(m, p.assignments, moved) && Refreshed(moved, m');
    if String(k) in m' {
      StoredWasAssigned(m, ByKey(live), p, moved, k);
    }
    if s, r :| Assigns(m, ByKey(live), k, s, r) {
      var a :| a in p.assignments && a.to == k && String(a.from) == s && a.reason == r;
      AssignedBecomesExact(m, ByKey(live), p, moved, a);
    }
  }

  lemma StuckAreHindered(m: Table, live: seq<Agent>, m': Table, pending: set<Text>)
    requires Adopted(m, live, m') && AllWellFormed(ByKey(live))
    ensures Hindered(m', pending, live) == Stuck(m, pending, live)
  {
    hide String, FindsNone, Adopted, AllWellFormed;
    forall a | a in live ensures String(a.key) in m' <==> !FindsNone(m, live, a.key) {
      AdoptedExactly(m, live, m', a.key);
    }
  }

  lemma AdoptedBy(m: Table, live: seq<Agent>, p: Plan, moved: Table, m': Table)
    requires IsPlan(m, ByKey(live), p) && IsMoved(m, p.assignments, moved) && Refreshed(moved, m')
    ensures Adopted(m, live, m')
  {
  }

  /** Agents that already have their entries take over nothing. */
  lemma AdoptedAtHome(m: Table, live: seq<Agent>, m': Table)
    requires Adopted(m, live, m') && AllWellFormed(ByKey(live)) && forall a <- live :: String(a.key) in m
    ensures Refreshed(m, m')
  {
    hide String, IsPlan, IsMoved, Refreshed, AllWellFormed;
    var p, moved :| IsPlan(m, ByKey(live), p) && IsMoved(m, p.assignments, moved) && Refreshed(moved, m');
    AllExactMovesNothing(m, ByKey(live), p, moved);
  }

  ghost predicate Refreshed(m: Table, m': Table) {
    m'.Keys == m.Keys && forall s <- m :: SameTopic(m[s], m'[s])
  }

  lemma NothingAdopted(m: Table)
    ensures Refreshed(m, m)
  {
  }

  lemma RefreshedAt(m: Table, m': Table, s: Text)
    requires Refreshed(m, m') && s in m
    ensures s in m' && m'[s].status == m[s].status
  {
  }

  lemma RefreshedThreads(m: Table, m': Table)
    requires Refreshed(m, m')
    ensures Threads(m') == Threads(m)
    ensures OnePerThread(m) ==> OnePerThread(m')
    ensures OpenWhileLive(m) ==> OpenWhileLive(m')
  {
    forall t ensures t in Threads(m) <==> t in Threads(m') {
      if x :| x in m && m[x].thread == t {
        assert m'[x].thread == t;
      }
      if x :| x in m' && m'[x].thread == t {
        assert m[x].thread == t;
      }
    }
  }

  lemma MovedInvariants(m: Table, p: seq<Assignment>, m': Table)
    requires Applicable(m, p) && IsMoved(m, p, m')
    ensures Threads(m') == Threads(m)
    ensures OnePerThread(m) ==> OnePerThread(m')
    ensures OpenWhileLive(m) ==> OpenWhileLive(m')
  {
    hide String, ParseKey, Applicable, Destination, Threads;
    MovedConserves(m, p, m');
    if OnePerThread(m) {
      forall s, t | s in m' && t in m' && s != t ensures m'[s].thread != m'[t].thread {
        var x :| x in m && Destination(p, x) == s;
        var y :| y in m && Destination(p, y) == t;
      }
    }
    if OpenWhileLive(m) {
      forall s | s in m' ensures m'[s].status.Live() ==> !m'[s].closed {
        var x :| x in m && Destination(p, x) == s;
      }
    }
  }

  /** An entry that moves was not stored under the key of a live agent. */
  lemma MovesFromDead(m: Table, A: map<Key, Agent>, p: Plan, a: Assignment)
    requires IsPlan(m, A, p) && AllWellFormed(A) && a in p.assignments && a.from != a.to
    ensures a.from !in A
  {
    hide String, ParseKey;
    AssignedFrom(m, A, a.to, From(a), a.reason);
    if a.from in A {
      ExactIffStored(m, a.from);
      AssignsOnce(m, A, a.to, a.from, From(a), a.reason, ExactIdentity);
      ExactMeansSame(m, a.to);
    }
  }

  /** After the moves, a live agent that has an entry was assigned it. */
  lemma StoredWasAssigned(m: Table, A: map<Key, Agent>, p: Plan, moved: Table, k: Key)
    requires IsPlan(m, A, p) && AllWellFormed(A) && IsMoved(m, p.assignments, moved)
    requires k in A && String(k) in moved
    ensures exists a <- p.assignments :: a.to == k
  {
    hide String, ParseKey, Destination, Applicable, Assigns;
    PlanApplicable(m, A, p);
    var s :| s in m && Destination(p.assignments, s) == String(k);
    if a :| a in p.assignments && From(a) == s {
      DestinationOf(m, p.assignments, a);
      AssignedFrom(m, A, a.to, From(a), a.reason);
      StringInjective(a.to, k);
    } else {
      assert forall a <- p.assignments :: From(a) != s;
      ExactIffStored(m, k);
      assert Assigns(m, A, k, s, ExactIdentity) by {
        ExactAssigns(m, A, k);
      }
    }
  }

  lemma ExactAssigns(m: Table, A: map<Key, Agent>, k: Key)
    requires k in A && Exact(m, k)
    ensures Assigns(m, A, k, String(k), ExactIdentity)
  {
  }

  /** When every live agent already has its entry, the plan moves nothing. */
  lemma AllExactMovesNothing(m: Table, A: map<Key, Agent>, p: Plan, moved: Table)
    requires IsPlan(m, A, p) && AllWellFormed(A) && (forall k <- A :: String(k) in m)
    requires IsMoved(m, p.assignments, moved)
    ensures moved == m
    ensures forall a <- p.assignments :: a.from == a.to
  {
    hide String, ParseKey, Destination, Applicable, Assigns;
    PlanApplicable(m, A, p);
    forall a | a in p.assignments ensures a.from == a.to && Destination(p.assignments, From(a)) == From(a) {
      AssignedFrom(m, A, a.to, From(a), a.reason);
      ExactIffStored(m, a.to);
      ExactAssigns(m, A, a.to);
      AssignsOne(m, A, a.to, From(a), String(a.to), a.reason, ExactIdentity);
      ExactMeansSame(m, a.to);
      DestinationOf(m, p.assignments, a);
    }
    forall s | s in m ensures Destination(p.assignments, s) == s {
      if a :| a in p.assignments && From(a) == s {
      } else {
        assert forall a <- p.assignments :: From(a) != s;
      }
    }
  }

  /** Of several agents with one key, the last counts. */
  function LastByKey(live: seq<Agent>): map<Key, Agent> {
    map a | a in live :: a.key := LastWith(live, a.key)
  }

  function LastWith(live: seq<Agent>, k: Key): (a: Agent)
    requires exists a <- live :: a.key == k
    ensures a in live && a.key == k
  {
    if live[|live| - 1].key == k then live[|live| - 1]
    else LastWith(live[..|live| - 1], k)
  }

  ghost function MovedFrom(p: seq<Assignment>): set<Key> {
    set a | a in p && a.from != a.to :: a.from
  }

  /** k is no longer known once the agents of live found their entries: its own
      went to another one. */
  ghost predicate TakenOver(m: Table, live: seq<Agent>, k: Key) {
    exists to, s, r :: Assigns(m, ByKey(live), to, s, r) && ParseKey(s) == Some(k) && k != to
  }

  lemma MovedFromExactly(m: Table, live: seq<Agent>, p: Plan, k: Key)
    requires IsPlan(m, ByKey(live), p)
    ensures k in MovedFrom(p.assignments) <==> TakenOver(m, live, k)
  {
    hide String, ParseKey, Assigns, ByKey, Refuses;
    if k in MovedFrom(p.assignments) {
      var a :| a in p.assignments && a.from != a.to && a.from == k;
      assert Assigns(m, ByKey(live), a.to, String(a.from), a.reason);
    }
    if to, s, r :| Assigns(m, ByKey(live), to, s, r) && ParseKey(s) == Some(k) && k != to {
      var a :| a in p.assignments && a.to == to && String(a.from) == s && a.reason == r;
    }
  }

  lemma MovedFromAdd(p: seq<Assignment>, a: Assignment)
    ensures MovedFrom(p + [a]) == MovedFrom(p) + if a.from != a.to then {a.from} else {}
  {
  }

  lemma MovedFromHas(p: seq<Assignment>, i: nat)
    requires i < |p| && p[i].from != p[i].to
    ensures p[i].from in MovedFrom(p)
  {
  }

  ghost predicate KnownFor(m: Table, p: seq<Assignment>, byKey: map<Key, Agent>) {
    forall a <- p :: To(a) in m && a.to in byKey ==> MetadataKnown(m[To(a)], byKey[a.to])
  }

  ghost predicate AllKnown(m: Table, live: seq<Agent>) {
    forall a <- live :: String(a.key) in m ==> MetadataKnown(m[String(a.key)], a)
  }

  lemma LearnStep(m0: Table, m: Table, m': Table, p: seq<Assignment>, a: Assignment, byKey: map<Key, Agent>)
    requires Refreshed(m0, m) && KnownFor(m, p, byKey)
    requires forall b <- p :: To(b) != To(a)
    requires m'.Keys == m.Keys && forall t <- m | t != To(a) :: m'[t] == m[t]
    requires To(a) in m ==> SameTopic(m[To(a)], m'[To(a)])
    requires To(a) in m && a.to in byKey ==> MetadataKnown(m'[To(a)], byKey[a.to])
    ensures Refreshed(m0, m') && KnownFor(m', p + [a], byKey)
  {
    hide String, ParseKey;
  }

  lemma NothingLearned(m: Table, byKey: map<Key, Agent>)
    ensures Refreshed(m, m) && KnownFor(m, [], byKey) && MovedFrom([]) == {}
  {
  }

  lemma RefreshedKeys(m: Table, m': Table)
    requires Refreshed(m, m')
    ensures m'.Keys == m.Keys
  {
  }

  lemma KnownMember(m: Table, p: seq<Assignment>, byKey: map<Key, Agent>, a: Assignment)
    requires KnownFor(m, p, byKey) && a in p && To(a) in m && a.to in byKey
    ensures MetadataKnown(m[To(a)], byKey[a.to])
  {
  }

  lemma SameKeySameAgent(live: seq<Agent>, a: Agent, b: Agent)
    requires DistinctKeys(live) && a in live && b in live && a.key == b.key
    ensures a == b
  {
    var i :| 0 <= i < |live| && live[i] == a;
    var j :| 0 <= j < |live| && live[j] == b;
  }

  lemma LastIsOnly(live: seq<Agent>, a: Agent)
    requires DistinctKeys(live) && a in live
    ensures a.key in LastByKey(live) && LastByKey(live)[a.key] == a
    ensures a.key in ByKey(live) && ByKey(live)[a.key] == a
  {
    hide DistinctKeys, LastWith, ByKey;
    assert a.key in LastByKey(live);
    SameKeySameAgent(live, a, LastByKey(live)[a.key]);
    SameKeySameAgent(live, a, ByKey(live)[a.key]);
  }

  lemma LearnedAll(m: Table, live: seq<Agent>, p: Plan, moved: Table, m': Table)
    requires IsPlan(m, ByKey(live), p) && AllWellFormed(ByKey(live)) && DistinctKeys(live)
    requires IsMoved(m, p.assignments, moved) && m'.Keys == moved.Keys
    requires KnownFor(m', p.assignments, LastByKey(live))
    ensures AllKnown(m', live)
  {
    hide String, ParseKey, IsPlan, IsMoved, KnownFor, DistinctKeys, LastByKey, ByKey;
    forall x | x in live && String(x.key) in m' ensures MetadataKnown(m'[String(x.key)], x) {
      LastIsOnly(live, x);
      StoredWasAssigned(m, ByKey(live), p, moved, x.key);
      var a :| a in p.assignments && a.to == x.key;
      KnownMember(m', p.assignments, LastByKey(live), a);
    }
  }

  /** When every live agent has an up-to-date entry there is nothing to learn. */
  lemma NothingToLearn(m: Table, live: seq<Agent>, p: Plan, moved: Table)
    requires IsPlan(m, ByKey(live), p) && AllWellFormed(ByKey(live)) && DistinctKeys(live)
    requires IsMoved(m, p.assignments, moved)
    requires AllKnown(m, live) && forall a <- live :: String(a.key) in m
    ensures moved == m && MovedFrom(p.assignments) == {} && KnownFor(m, p.assignments, LastByKey(live))
  {
    hide String, ParseKey, IsMoved, LastByKey, Assigns;
    AllExactMovesNothing(m, ByKey(live), p, moved);
    forall a | a in p.assignments && a.to in LastByKey(live)
      ensures To(a) in m && MetadataKnown(m[To(a)], LastByKey(live)[a.to])
    {
      AssignedFrom(m, ByKey(live), a.to, From(a), a.reason);
      var x := ByKey(live)[a.to];
      LastIsOnly(live, x);
    }
  }

  lemma LiveStay(m: Table, A: map<Key, Agent>, p: Plan)
    requires IsPlan(m, A, p) && AllWellFormed(A)
    ensures MovedFrom(p.assignments) !! A.Keys
  {
    hide IsPlan;
    forall a | a in p.assignments && a.from != a.to ensures a.from !in A {
      MovesFromDead(m, A, p, a);
    }
  }

  /** What holds once the plan is applied and the metadata is learned. */
  lemma AdoptionKeeps(m: Table, live: seq<Agent>, p: Plan, moved: Table, m': Table)
    requires IsPlan(m, ByKey(live), p) && Applicable(m, p.assignments) && IsMoved(m, p.assignments, moved)
    requires Refreshed(moved, m') && KnownFor(m', p.assignments, LastByKey(live))
    ensures Adopted(m, live, m') && Threads(m') == Threads(m)
    ensures OpenWhileLive(m) ==> OpenWhileLive(m')
    ensures OnePerThread(m) ==> OnePerThread(m')
    ensures AllWellFormed(ByKey(live)) ==> MovedFrom(p.assignments) !! ByKey(live).Keys
    ensures AllWellFormed(ByKey(live)) && DistinctKeys(live) ==> AllKnown(m', live)
    ensures AllWellFormed(ByKey(live)) && DistinctKeys(live) && AllKnown(m, live) && (forall a <- live :: String(a.key) in m) ==>
              moved == m && MovedFrom(p.assignments) == {} && KnownFor(m, p.assignments, LastByKey(live))
  {
    hide String, ParseKey, IsPlan, Applicable, IsMoved, Refreshed, KnownFor, Threads, OpenWhileLive, OnePerThread;
    hide AllWellFormed, DistinctKeys, AllKnown, MovedFrom, ByKey, LastByKey, Adopted;
    MovedInvariants(m, p.assignments, moved);
    RefreshedThreads(moved, m');
    RefreshedKeys(moved, m');
    AdoptedBy(m, live, p, moved, m');
    if AllWellFormed(ByKey(live)) {
      LiveStay(m, ByKey(live), p);
      if DistinctKeys(live) {
        LearnedAll(m, live, p, moved, m');
        if AllKnown(m, live) && forall a <- live :: String(a.key) in m {
          NothingToLearn(m, live, p, moved);
        }
      }
    }
  }

  lemma DestinationsDistinct(m: Table, p: seq<Assignment>)
    requires Applicable(m, p)
    ensures forall i, j | 0 <= i < j < |p| :: To(p[i]) != To(p[j])
  {
  }

  lemma NothingMoved(m: Table, p: seq<Assignment>, moved: Table)
    requires Applicable(m, p) && IsMoved(m, p, moved)
    requires forall a <- p :: To(a) in moved ==> a.from == a.to
    ensures moved == m
  {
    hide String, ParseKey, Destination;
    forall s | s in m ensures Destination(p, s) == s {
      if a :| a in p && From(a) == s {
        DestinationOf(m, p, a);
      }
    }
  }

  ghost predicate DistinctKeys(live: seq<Agent>) {
    forall i, j | 0 <= i < j < |live| :: live[i].key != live[j].key
  }
}
