/** What Telegram shows agrees with what the mapping says, but for what is known
    to be unsure: how the steps of the reconciler keep that so. */
module Agreement {
  import opened Keys
  import opened Topics
  import opened Reassociation
  import opened Mapping
  import opened World
  import opened TopicRules
  import opened Planning

  /** An existing topic looks as its entry says, except for what is unsure. Of a
      muted topic only the name is kept up to date. */
  ghost predicate Looks(existing: set<int>, screen: Screen, e: TopicEntry) {
    e.thread in existing ==>
      && e.thread in screen.titles
      && var t := screen.titles[e.thread];
      && (Name(e.thread) in screen.unsure || t.name == e.name)
      && (e.muted || Icon(e.thread) in screen.unsure || t.status == e.status)
      && (e.muted || Door(e.thread) in screen.unsure || t.closed == e.closed)
  }

  /** Every entry looks as recorded. Two entries cannot both keep up with one
      topic, so everything about such a topic is unsure. */
  ghost predicate Agreed(existing: set<int>, screen: Screen, m: Table) {
    && (forall s <- m :: Looks(existing, screen, m[s]))
    && (forall s, t | s in m && t in m && s != t && m[s].thread == m[t].thread :: Parts(m[s].thread) <= screen.unsure)
  }

  ghost predicate NoNewDoubt(before: Screen, after: Screen) {
    after.unsure <= before.unsure && after.causes == before.causes
  }

  /** Whatever became unsure did so by a request that was not accepted. */
  ghost predicate OnlyRefusals(before: Screen, after: Screen) {
    && after.causes == before.causes.(refused := after.causes.refused)
    && before.causes.refused <= after.causes.refused
  }

  lemma NoNewDoubts(s: Screen, s': Screen, s'': Screen)
    ensures NoNewDoubt(s, s) && OnlyRefusals(s, s)
    ensures NoNewDoubt(s, s') && NoNewDoubt(s', s'') ==> NoNewDoubt(s, s'')
    ensures OnlyRefusals(s, s') && OnlyRefusals(s', s'') ==> OnlyRefusals(s, s'')
  {
  }

  /** Beside refusals, these actions of an operator and these lifted mutes. */
  ghost predicate CausedBy(before: Causes, after: Causes, operated: set<Part>, lifted: set<int>) {
    && after.given == before.given && after.lost == before.lost && before.refused <= after.refused
    && after.operated == before.operated + operated
    && before.lifted <= after.lifted <= before.lifted + lifted
  }

  lemma NoCause(c: Causes)
    ensures CausedBy(c, c, {}, {})
  {
  }

  lemma OperatorCause(c: Causes, parts: set<Part>)
    ensures CausedBy(c, c.(operated := c.operated + parts), parts, {})
  {
  }

  lemma NoOperator(s: Screen, s': Screen)
    requires OnlyRefusals(s, s')
    ensures CausedBy(s.causes, s'.causes, {}, {})
    ensures NoNewDoubt(s, s') ==> s'.unsure <= s.unsure && s'.causes == s.causes
  {
  }

  lemma AgreedDoubted(existing: set<int>, screen: Screen, screen': Screen, m: Table)
    requires Agreed(existing, screen, m) && screen'.titles == screen.titles && screen.unsure <= screen'.unsure
    ensures Agreed(existing, screen', m)
  {
    hide Parts;
    forall s | s in m ensures Looks(existing, screen', m[s]) {
      assert Looks(existing, screen, m[s]);
    }
  }

  /** No other entry claims the topic of the one under s. */
  ghost predicate Alone(m: Table, s: Text) {
    s in m && forall t <- m | t != s :: m[t].thread != m[s].thread
  }

  /** What is not on disk as it is in memory becomes unsure with a crash. */
  ghost function Lost(memory: Table, disk: Table): set<Part> {
    set s, p | s in disk && (s !in memory || memory[s] != disk[s]) && p in Parts(disk[s].thread) :: p
  }

  /** The entry after an accepted request. */
  function Recorded(e: TopicEntry, r: Request): (f: TopicEntry)
    ensures SameBinding(e, f) && f.muted == e.muted
  {
    var t := Taken(TitleOf(e), r);
    e.(name := t.name, status := t.status, closed := t.closed)
  }

  /** What becomes of the titles when topics vanish and one may change. */
  ghost predicate OnlyTitle(existing: set<int>, existing': set<int>, screen: Screen, screen': Screen, thread: int) {
    && existing' <= existing && existing <= screen.titles.Keys
    && existing' <= screen'.titles.Keys
    && forall t <- existing' | t != thread :: screen'.titles[t] == screen.titles[t]
  }

  lemma PartsOfOthers(r: Request, t: int)
    requires (r.EditTopic? || r.CloseTopic? || r.ReopenTopic?) && t != r.thread
    ensures Parts(t) !! Told(r)
  {
  }

  lemma LooksOther(existing: set<int>, existing': set<int>, screen: Screen, screen': Screen, r: Request, e: TopicEntry)
    requires r.EditTopic? || r.CloseTopic? || r.ReopenTopic?
    requires OnlyTitle(existing, existing', screen, screen', r.thread) && screen.unsure - Told(r) <= screen'.unsure
    requires Looks(existing, screen, e) && e.thread != r.thread
    ensures Looks(existing', screen', e)
  {
    PartsOfOthers(r, e.thread);
  }

  /** An accepted request and its record. */
  lemma LooksTold(existing: set<int>, existing': set<int>, screen: Screen, screen': Screen, r: Request, e: TopicEntry)
    requires r.EditTopic? || r.CloseTopic? || r.ReopenTopic?
    requires OnlyTitle(existing, existing', screen, screen', r.thread) && screen.unsure - Told(r) <= screen'.unsure
    requires r.thread in existing' ==> screen'.titles[r.thread] == Taken(screen.titles[r.thread], r)
    requires Looks(existing, screen, e) && e.thread == r.thread
    ensures Looks(existing', screen', Recorded(e, r))
  {
  }

  lemma AgreedTold(existing: set<int>, existing': set<int>, screen: Screen, screen': Screen, m: Table, s: Text,
                   r: Request, e: TopicEntry)
    requires r.EditTopic? || r.CloseTopic? || r.ReopenTopic?
    requires Agreed(existing, screen, m) && s in m && r.thread == m[s].thread
    requires OnlyTitle(existing, existing', screen, screen', r.thread)
    requires r.thread in existing' ==> screen'.titles[r.thread] == Taken(screen.titles[r.thread], r)
    requires screen'.unsure == if Alone(m, s) then screen.unsure - Told(r) else screen.unsure
    requires e == Recorded(m[s], r).(updatedAt := e.updatedAt)
    ensures Agreed(existing', screen', m[s := e])
  {
    hide Looks, Told, Taken, Parts;
    var m' := m[s := e];
    LooksTold(existing, existing', screen, screen', r, m[s]);
    LooksTime(existing', screen', Recorded(m[s], r), e);
    forall t | t in m' ensures Looks(existing', screen', m'[t]) {
      if t != s {
        if m[t].thread != r.thread {
          LooksOther(existing, existing', screen, screen', r, m[t]);
        } else {
          LooksUnsure(existing, existing', screen, screen', m[t]);
        }
      }
    }
    forall t, u | t in m' && u in m' && t != u && m'[t].thread == m'[u].thread ensures Parts(m'[t].thread) <= screen'.unsure {
      assert m[t].thread == m[u].thread;
      if m[t].thread != r.thread {
        PartsOfOthers(r, m[t].thread);
      } else {
        assert !Alone(m, s);
      }
    }
  }

  lemma LooksTime(existing: set<int>, screen: Screen, e: TopicEntry, f: TopicEntry)
    requires Looks(existing, screen, e) && f == e.(updatedAt := f.updatedAt)
    ensures Looks(existing, screen, f)
  {
  }

  lemma LooksUnsure(existing: set<int>, existing': set<int>, screen: Screen, screen': Screen, e: TopicEntry)
    requires existing' <= screen'.titles.Keys && Parts(e.thread) <= screen'.unsure
    ensures Looks(existing', screen', e)
  {
  }

  /** A request that was not accepted leaves what it is about unsure. */
  lemma AgreedRefused(existing: set<int>, existing': set<int>, screen: Screen, screen': Screen, m: Table, r: Request)
    requires r.EditTopic? || r.CloseTopic? || r.ReopenTopic?
    requires Agreed(existing, screen, m) && OnlyTitle(existing, existing', screen, screen', r.thread)
    requires r.thread in existing' ==>
               screen'.titles[r.thread] in {screen.titles[r.thread], Taken(screen.titles[r.thread], r)}
    requires screen'.unsure == screen.unsure + Told(r)
    ensures Agreed(existing', screen', m)
  {
    hide Parts;
    forall s | s in m ensures Looks(existing', screen', m[s]) {
      assert Looks(existing, screen, m[s]);
    }
  }

  /** An entry may be rewritten as long as it tells what its topic looks like. */
  lemma AgreedUpdate(existing: set<int>, screen: Screen, m: Table, s: Text, e: TopicEntry)
    requires Agreed(existing, screen, m) && s in m && e.thread == m[s].thread && Looks(existing, screen, e)
    ensures Agreed(existing, screen, m[s := e])
  {
    hide Looks, Parts;
    var m' := m[s := e];
    forall t, u | t in m' && u in m' && t != u && m'[t].thread == m'[u].thread ensures Parts(m'[t].thread) <= screen.unsure {
      assert m[t].thread == m[u].thread;
    }
  }

  /** Entries may go and topics may vanish. */
  lemma AgreedFewer(existing: set<int>, fewer: set<int>, screen: Screen, m: Table, m': Table)
    requires Agreed(existing, screen, m) && fewer <= existing
    requires m'.Keys <= m.Keys && forall s <- m' :: m'[s] == m[s]
    ensures Agreed(fewer, screen, m')
  {
    hide Parts;
    forall s | s in m' ensures Looks(fewer, screen, m'[s]) {
      assert Looks(existing, screen, m[s]);
    }
  }

  /** New topics concern no entry yet. */
  lemma AgreedMade(existing: set<int>, existing': set<int>, used: set<int>, screen: Screen, screen': Screen, m: Table,
                   made: set<int>)
    requires Agreed(existing, screen, m) && Threads(m) <= used && made !! used
    requires existing <= screen.titles.Keys && existing' <= existing + made && existing <= used
    requires forall u <- used | u in screen.titles :: u in screen'.titles && screen'.titles[u] == screen.titles[u]
    requires forall p <- screen.unsure :: p in screen'.unsure || p.thread in made
    ensures Agreed(existing', screen', m)
  {
    forall s | s in m ensures Looks(existing', screen', m[s]) && m[s].thread in used && m[s].thread !in made {
      assert m[s].thread in Threads(m);
      assert Looks(existing, screen, m[s]);
    }
  }

  lemma AgreedLink(existing: set<int>, used: set<int>, screen: Screen, m: Table, s: Text, e: TopicEntry)
    requires Agreed(existing, screen, m) && s !in m && Threads(m) <= used && e.thread !in used
    requires Looks(existing, screen, e)
    ensures Agreed(existing, screen, m[s := e])
  {
    hide Looks, Parts;
    forall t | t in m ensures m[t].thread != e.thread {
      assert m[t].thread in Threads(m);
    }
  }

  lemma LooksAsMade(existing: set<int>, screen: Screen, e: TopicEntry)
    requires e.thread in screen.titles && screen.titles[e.thread] == TitleOf(e)
    ensures Looks(existing, screen, e)
  {
  }

  /** Moving entries to other keys tells nothing about their topics. */
  lemma AgreedMoved(existing: set<int>, screen: Screen, m: Table, p: seq<Assignment>, m': Table)
    requires Agreed(existing, screen, m) && Applicable(m, p) && IsMoved(m, p, m')
    ensures Agreed(existing, screen, m')
  {
    hide Looks, Parts, Applicable, Destination;
    forall s, t | s in m' && t in m' && s != t && m'[s].thread == m'[t].thread ensures Parts(m'[s].thread) <= screen.unsure {
      var x :| x in m && Destination(p, x) == s;
      var y :| y in m && Destination(p, y) == t;
      assert m[x].thread == m[y].thread;
    }
    forall s | s in m' ensures Looks(existing, screen, m'[s]) {
      var x :| x in m && Destination(p, x) == s;
    }
  }

  lemma AgreedRefreshed(existing: set<int>, screen: Screen, m: Table, m': Table)
    requires Agreed(existing, screen, m) && Refreshed(m, m')
    ensures Agreed(existing, screen, m')
  {
    hide Parts;
    forall s | s in m' ensures Looks(existing, screen, m'[s]) {
      assert Looks(existing, screen, m[s]) && SameTopic(m[s], m'[s]);
    }
    forall s, t | s in m' && t in m' && s != t && m'[s].thread == m'[t].thread ensures Parts(m'[s].thread) <= screen.unsure {
      assert SameTopic(m[s], m'[s]) && SameTopic(m[t], m'[t]);
    }
  }

  lemma AloneStill(m: Table, m': Table, s: Text)
    requires OnlyAt(m, m', s) && m'[s].thread == m[s].thread
    ensures Alone(m, s) == Alone(m', s)
  {
  }

  lemma ToldBy(t: int, name: Option<string>, status: Option<Status>)
    ensures name.Some? ==> Name(t) in Told(EditTopic(t, name, status))
    ensures status.Some? ==> Icon(t) in Told(EditTopic(t, name, status))
    ensures Door(t) in Told(CloseTopic(t)) && Door(t) in Told(ReopenTopic(t))
  {
  }

  // ---- what a forced pass makes sure ----

  /** Of every one of these agents that has a running topic the icon is sure, and
      unless its topic was a finished one in m0, so is the name. */
  ghost predicate PartsSure(m0: Table, m: Table, screen: Screen, served: seq<Agent>) {
    forall a <- served | String(a.key) in m && m[String(a.key)].status.Live() ::
      && Icon(m[String(a.key)].thread) !in screen.unsure
      && (NotFinished(m0, String(a.key)) ==> Name(m[String(a.key)].thread) !in screen.unsure)
  }

  predicate NotFinished(m: Table, s: Text) {
    s in m ==> m[s].status.Live()
  }

  lemma PartsSureMore(m0: Table, before: Table, after: Table, screen: Screen, screen': Screen, served: seq<Agent>, a: Agent)
    requires PartsSure(m0, before, screen, served) && NoNewDoubt(screen, screen') && Served(before, after, a)
    requires after[String(a.key)].status.Live() ==>
      && Icon(after[String(a.key)].thread) !in screen'.unsure
      && (NotFinished(m0, String(a.key)) ==> Name(after[String(a.key)].thread) !in screen'.unsure)
    ensures PartsSure(m0, after, screen', served + [a])
  {
    hide String, Threads, Shown, MetadataKnown, SameBinding, NotFinished;
  }

  lemma PartsSureStill(m0: Table, m: Table, screen: Screen, screen': Screen, served: seq<Agent>)
    requires PartsSure(m0, m, screen, served) && NoNewDoubt(screen, screen')
    ensures PartsSure(m0, m, screen', served)
  {
    hide String, NotFinished;
  }

  /** The agents served first leave the entry of the next one alone. */
  lemma NotYetServed(m: Table, before: Table, order: seq<Agent>, agents: map<Key, Agent>, i: nat)
    requires Servable(order, agents) && i < |order| && ServedAll(m, before, order[..i])
    ensures NotFinished(m, String(order[i].key)) <==> NotFinished(before, String(order[i].key))
  {
    hide String, Servable, OnePerThread, AllShown, MetadataKept, MetadataKnown, LiveSlots;
    ServableAt(order, agents, i);
  }

  /** Where the service of agents in their order stands. */
  ghost predicate ServedSo(m: Table, m': Table, pending: set<Text>, pending': set<Text>, force: bool, screen: Screen,
                           served: seq<Agent>) {
    && ServedAll(m, m', served) && pending' == pending
    && (force && OnePerThread(m) ==> PartsSure(m, m', screen, served))
  }

  lemma ServedSoNone(m: Table, pending: set<Text>, force: bool, screen: Screen)
    ensures ServedSo(m, m, pending, pending, force, screen, [])
  {
    ServedNone(m);
  }

  lemma ServedSoMeans(m: Table, m': Table, pending: set<Text>, pending': set<Text>, force: bool, screen: Screen,
                      served: seq<Agent>)
    ensures ServedSo(m, m', pending, pending', force, screen, served) ==>
      && ServedAll(m, m', served) && pending' == pending
      && (force && OnePerThread(m) ==> PartsSure(m, m', screen, served))
  {
  }

  lemma ServedSoStill(m: Table, m': Table, pending: set<Text>, force: bool, screen: Screen, screen': Screen,
                      served: seq<Agent>)
    requires ServedSo(m, m', pending, pending, force, screen, served) && NoNewDoubt(screen, screen')
    ensures ServedSo(m, m', pending, pending, force, screen', served)
  {
    hide PartsSure, NoNewDoubt;
    if force && OnePerThread(m) {
      PartsSureStill(m, m', screen, screen', served);
    }
  }

  lemma ServedSoMore(m: Table, before: Table, after: Table, pending: set<Text>, force: bool, screen: Screen, screen': Screen,
                     order: seq<Agent>, agents: map<Key, Agent>, i: nat)
    requires Servable(order, agents) && i < |order| && ServedSo(m, before, pending, pending, force, screen, order[..i])
    requires Served(before, after, order[i]) && NoNewDoubt(screen, screen')
    requires force && OnePerThread(m) && String(order[i].key) in after && after[String(order[i].key)].status.Live() ==>
      && Icon(after[String(order[i].key)].thread) !in screen'.unsure
      && (NotFinished(before, String(order[i].key)) ==> Name(after[String(order[i].key)].thread) !in screen'.unsure)
    ensures ServedSo(m, after, pending, pending, force, screen', order[..i + 1])
  {
    hide String, ServedAll, Servable, Served, PartsSure, OnePerThread, NoNewDoubt, NotFinished;
    NotYetServed(m, before, order, agents, i);
    ServeOneMore(m, before, after, order, agents, i);
    assert order[..i + 1] == order[..i] + [order[i]];
    ServedKeys(before, after, order[i]);
    if force && OnePerThread(m) {
      PartsSureMore(m, before, after, screen, screen', order[..i], order[i]);
    }
  }

  lemma AloneOfOne(m: Table, s: Text)
    requires OnePerThread(m) && s in m
    ensures Alone(m, s)
  {
  }

  lemma OnePerThreadServed(m: Table, before: Table, served: seq<Agent>)
    requires ServedAll(m, before, served) && OnePerThread(m)
    ensures OnePerThread(before)
  {
  }

  lemma PartsSureOf(m1: Table, m3: Table, m: Table, screen: Screen, served: seq<Agent>, live: seq<Agent>)
    requires PartsSure(m3, m, screen, served) && ServedOf(served, live, {})
    requires m3.Keys == m1.Keys && RunningKept(m1, m3, KeysOf(live)) && LiveSnapshot(live)
    ensures PartsSure(m1, m, screen, live)
  {
    hide String, ParseKey, WellFormed, DistinctKeys;
    forall a | a in live ensures a in served && (NotFinished(m1, String(a.key)) ==> NotFinished(m3, String(a.key))) {
      assert Ahead(a.key, {});
      ParseString(a.key);
      assert Stored(m3, a.key) <==> String(a.key) in m3;
    }
  }

  lemma LooksAt(existing: set<int>, screen: Screen, m: Table, s: Text)
    requires Agreed(existing, screen, m) && s in m
    ensures Looks(existing, screen, m[s])
  {
  }

  /** Once muted, only the name matters. */
  lemma LooksMuted(existing: set<int>, screen: Screen, e: TopicEntry, f: TopicEntry)
    requires Looks(existing, screen, e) && f.thread == e.thread && f.name == e.name && f.muted
    ensures Looks(existing, screen, f)
  {
  }

  /** What an operator did to the door may be recorded either way. */
  lemma LooksDoor(existing: set<int>, screen: Screen, e: TopicEntry, closed: bool)
    requires Looks(existing, screen, e) && Door(e.thread) in screen.unsure
    ensures Looks(existing, screen, e.(closed := closed))
    ensures Icon(e.thread) in screen.unsure || !e.muted ==> Looks(existing, screen, e.(muted := false, closed := closed))
  {
  }

  /** More doubt does no harm, whatever the doubted parts have become. */
  lemma AgreedMeddled(existing: set<int>, screen: Screen, screen': Screen, m: Table, thread: int, parts: set<Part>)
    requires Agreed(existing, screen, m) && existing <= screen'.titles.Keys && screen'.unsure == screen.unsure + parts
    requires forall t <- screen.titles | t != thread :: t in screen'.titles && screen'.titles[t] == screen.titles[t]
    requires thread in screen.titles ==>
      && thread in screen'.titles
      && (Name(thread) !in parts ==> screen'.titles[thread].name == screen.titles[thread].name)
      && (Icon(thread) !in parts ==> screen'.titles[thread].status == screen.titles[thread].status)
      && (Door(thread) !in parts ==> screen'.titles[thread].closed == screen.titles[thread].closed)
    ensures Agreed(existing, screen', m)
  {
    hide Parts;
    forall s | s in m ensures Looks(existing, screen', m[s]) {
      assert Looks(existing, screen, m[s]);
    }
  }

  /** After a crash the file speaks for the topics, but for what it had not been
      told. */
  lemma AgreedAfterCrash(existing: set<int>, screen: Screen, screen': Screen, memory: Table, disk: Table)
    requires Agreed(existing, screen, memory) && existing <= screen.titles.Keys
    requires screen'.titles == screen.titles && screen'.unsure == screen.unsure + Lost(memory, disk)
    ensures Agreed(existing, screen', disk)
  {
    hide Looks, Parts;
    forall s | s in disk ensures Looks(existing, screen', disk[s]) {
      if s in memory && memory[s] == disk[s] {
        LooksMoreUnsure(existing, screen, screen', disk[s]);
      } else {
        LostParts(memory, disk, s);
        LooksUnsure(existing, existing, screen, screen', disk[s]);
      }
    }
    forall s, t | s in disk && t in disk && s != t && disk[s].thread == disk[t].thread
      ensures Parts(disk[s].thread) <= screen'.unsure
    {
      LostParts(memory, disk, s);
      LostParts(memory, disk, t);
    }
  }

  lemma LostParts(memory: Table, disk: Table, s: Text)
    requires s in disk
    ensures s !in memory || memory[s] != disk[s] ==> Parts(disk[s].thread) <= Lost(memory, disk)
  {
  }

  lemma LooksMoreUnsure(existing: set<int>, screen: Screen, screen': Screen, e: TopicEntry)
    requires Looks(existing, screen, e) && screen'.titles == screen.titles && screen.unsure <= screen'.unsure
    ensures Looks(existing, screen', e)
  {
  }

  /** In a settled mapping, the topic of every live agent really shows it: its
      name, its status, and open. */
  lemma SettledIsShown(existing: set<int>, screen: Screen, m: Table, live: seq<Agent>, a: Agent)
    requires Settled(m, live) && Agreed(existing, screen, m) && a in live
    ensures String(a.key) in m
    ensures var e := m[String(a.key)];
      e.thread in existing && !e.muted && Parts(e.thread) !! screen.unsure ==>
        e.thread in screen.titles && screen.titles[e.thread] == Title(DesiredName(a), a.status, false)
  {
    hide String, DeadClosed, OnePerThread, AllKnown;
    assert Looks(existing, screen, m[String(a.key)]);
  }

  /** And the topic of every agent that is gone shows that. */
  lemma SettledIsFinished(existing: set<int>, screen: Screen, m: Table, live: seq<Agent>, k: Key)
    requires Settled(m, live) && Agreed(existing, screen, m) && Stored(m, k) && k !in KeysOf(live)
    ensures var e := m[String(k)];
      e.thread in existing && !e.muted && Parts(e.thread) !! screen.unsure ==>
        e.thread in screen.titles && screen.titles[e.thread] == Title(e.name, Exited, true)
  {
    hide String, ParseKey, AllShown, OnePerThread, AllKnown;
    assert Looks(existing, screen, m[String(k)]);
  }
}
