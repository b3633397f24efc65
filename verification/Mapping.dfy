/** The mapping from agent keys to forum topics, changed in place. */
module Mapping {
  import opened Keys
  import opened Topics
  import opened Reassociation
  import opened Planning
  import opened Sorting

  // ---- single entries ----

  /** Everything the agent reports about itself is already in the entry. */
  predicate MetadataKnown(e: TopicEntry, a: Agent) {
    && (a.cwd == "" || (e.cwd == a.cwd && !e.legacyNoCwd))
    && (a.kind == "" || e.kind == a.kind)
  }

  /** What the agent does not report is as it was. */
  ghost predicate MetadataLeft(e: TopicEntry, f: TopicEntry, a: Agent) {
    && (a.cwd == "" ==> f.cwd == e.cwd && f.legacyNoCwd == e.legacyNoCwd)
    && (a.kind == "" ==> f.kind == e.kind)
  }

  /** Metadata may differ, the topic itself may not. */
  ghost predicate SameTopic(e: TopicEntry, f: TopicEntry) {
    f == e.(cwd := f.cwd, kind := f.kind, legacyNoCwd := f.legacyNoCwd)
  }

  /** k can be read back and has an entry. */
  predicate Stored(m: Table, k: Key) {
    String(k) in m && ParseKey(String(k)) == Some(k)
  }

  lemma ParsedIsStored(m: Table, s: Text)
    ensures ParseKey(s).Some? ==> String(ParseKey(s).value) == s
    ensures forall k :: Stored(m, k) && String(k) == s ==> ParseKey(s) == Some(k)
    ensures s in m && ParseKey(s).Some? ==> Stored(m, ParseKey(s).value)
  {
    hide String, ParseKey;
    if ParseKey(s).Some? {
      StringParse(s);
    }
  }

  ghost predicate OnePerThread(m: Table) {
    forall s, t | s in m && t in m && s != t :: m[s].thread != m[t].thread
  }

  ghost predicate Ascending(keys: seq<Key>) {
    forall i, j | 0 <= i < j < |keys| :: Before(String(keys[i]), String(keys[j]))
  }

  lemma AscendingAdd(keys: seq<Key>, k: Key)
    requires Ascending(keys) && forall j <- keys :: Before(String(j), String(k))
    ensures Ascending(keys + [k])
  {
    hide String, Before;
    forall i | 0 <= i < |keys| ensures Before(String(keys[i]), String(k)) {
      assert keys[i] in keys;
    }
  }

  lemma NothingAscends()
    ensures Ascending([])
  {
  }

  lemma AscendingAt(keys: seq<Key>, i: nat)
    requires Ascending(keys) && i < |keys|
    ensures keys[i] in keys && forall k <- keys[..i] :: Before(String(k), String(keys[i]))
  {
  }

  lemma AscendingDistinct(keys: seq<Key>)
    requires Ascending(keys)
    ensures forall i, j | 0 <= i < j < |keys| :: keys[i] != keys[j]
  {
    hide String, Before;
    forall i, j | 0 <= i < j < |keys| ensures keys[i] != keys[j] {
      BeforeTotal(String(keys[i]), String(keys[j]), String(keys[i]));
    }
  }

  lemma StaleExactly(e: TopicEntry, now: int, maxAge: int)
    ensures IsStale(e, now, maxAge) <==> e.status == Exited && e.closed && e.updatedAt + maxAge < now
  {
  }

  /** By the time of the last change, then by the text of the key. */
  lemma OlderExactly(m: Table, a: Key, b: Key)
    requires String(a) in m && String(b) in m
    ensures OlderFirst(m, a, b) <==>
      || m[String(a)].updatedAt < m[String(b)].updatedAt
      || (m[String(a)].updatedAt == m[String(b)].updatedAt && (String(a) == String(b) || TextOrder(String(a), String(b)) < 0))
  {
    hide String, TextOrder;
  }

  function ChangedAt(m: Table, k: Key): int {
    if String(k) in m then m[String(k)].updatedAt else 0
  }

  /** The order of the sweep: by time, then by key. */
  predicate OlderFirst(m: Table, a: Key, b: Key) {
    if ChangedAt(m, a) != ChangedAt(m, b) then ChangedAt(m, a) < ChangedAt(m, b)
    else AtMost(String(a), String(b))
  }

  function OlderIn(m: Table): (Key, Key) -> bool {
    (a, b) => OlderFirst(m, a, b)
  }

  lemma OlderLinear(m: Table)
    ensures Linear(OlderIn(m))
  {
    hide String, Before, ChangedAt;
    forall a: Key, b: Key, c: Key
      ensures OlderFirst(m, a, b) || OlderFirst(m, b, a)
      ensures OlderFirst(m, a, b) && OlderFirst(m, b, c) ==> OlderFirst(m, a, c)
    {
      BeforeTotal(String(a), String(b), String(c));
    }
  }

  /** The later update wins; at equal times a running agent wins. */
  predicate Newer(a: TopicEntry, b: TopicEntry) {
    if a.updatedAt != b.updatedAt then a.updatedAt > b.updatedAt
    else a.status.Live() && !b.status.Live()
  }

  predicate IsStale(e: TopicEntry, now: int, maxAge: int) {
    !e.status.Live() && e.closed && now - e.updatedAt > maxAge
  }

  /** Of two entries of one topic: the newer one, at a tie the first by key. */
  predicate Beats(m: Table, s: Text, t: Text)
    requires s in m && t in m
  {
    Newer(m[s], m[t]) || (!Newer(m[t], m[s]) && Before(s, t))
  }

  ghost predicate Best(m: Table, s: Text) {
    s in m && forall t <- m | t != s && m[t].thread == m[s].thread :: Beats(m, s, t)
  }

  /** One entry for each topic. */
  ghost function Deduped(m: Table): Table {
    map s | s in m && Best(m, s) :: m[s]
  }

  /** k is the key of the entry that claims the thread; there is none if nobody
      claims it or that entry cannot be read back. An entry under the empty text
      is passed over. */
  ghost predicate Claims(m: Table, thread: int, k: Option<Key>) {
    var n := m - {[]};
    || ((forall s <- n :: n[s].thread != thread) && k.None?)
    || exists s :: Best(n, s) && n[s].thread == thread && k == ParseKey(s)
  }

  /** In terms of what is stored: the latest change wins, then a running agent, then
      the key that comes first. */
  lemma BestExactly(m: Table, s: Text)
    ensures Best(m, s) <==>
      s in m && forall t <- m | t != s && m[t].thread == m[s].thread ::
        || m[t].updatedAt < m[s].updatedAt
        || (m[t].updatedAt == m[s].updatedAt && m[s].status != Exited && m[t].status == Exited)
        || (m[t].updatedAt == m[s].updatedAt && (m[s].status == Exited <==> m[t].status == Exited) && TextOrder(s, t) < 0)
  {
    hide TextOrder;
    if s in m {
      forall t | t in m && t != s && m[t].thread == m[s].thread
        ensures Beats(m, s, t) <==>
          || m[t].updatedAt < m[s].updatedAt
          || (m[t].updatedAt == m[s].updatedAt && m[s].status != Exited && m[t].status == Exited)
          || (m[t].updatedAt == m[s].updatedAt && (m[s].status == Exited <==> m[t].status == Exited) && TextOrder(s, t) < 0)
      {
      }
    }
  }

  lemma ClaimedBy(m: Table, thread: int, s: Text)
    requires s in m && s != [] && m[s].thread == thread
    requires forall t <- m | t != [] && t != s && m[t].thread == thread :: Beats(m, s, t)
    ensures Claims(m, thread, ParseKey(s))
  {
    hide ParseKey, Before, Newer;
    var n := m - {[]};
    forall t | t in n && t != s && n[t].thread == thread ensures Beats(n, s, t) {
      assert Beats(m, s, t);
    }
  }

  /** best names, for each thread of the keys seen, the one that beats the others. */
  ghost predicate BestSoFar(m: Table, seen: set<Text>, best: map<int, Text>)
    requires seen <= m.Keys
  {
    && (forall s <- seen :: m[s].thread in best)
    && (forall t <- best :: best[t] in seen && m[best[t]].thread == t)
    && (forall s <- seen | best[m[s].thread] != s :: Beats(m, best[m[s].thread], s))
  }

  /** Beating the best so far means beating all it has beaten. */
  lemma BeatsOn(m: Table, s: Text, cur: Text, t: Text)
    requires s in m && cur in m && t in m
    requires Newer(m[s], m[cur]) && (cur == t || Beats(m, cur, t))
    ensures Beats(m, s, t)
  {
    hide Before;
  }

  /** The loser of a comparison with what came before it in the walk. */
  lemma BeatenLater(m: Table, s: Text, cur: Text)
    requires s in m && cur in m && Before(cur, s) && !Newer(m[s], m[cur])
    ensures Beats(m, cur, s)
  {
  }

  lemma BestKept(m: Table, best: map<int, Text>, kept: Table)
    requires BestSoFar(m, m.Keys, best)
    requires kept.Keys == set s | s in m && best[m[s].thread] == s
    requires forall s <- kept :: kept[s] == m[s]
    ensures kept == Deduped(m)
  {
    hide Newer, Before;
    forall s | s in m ensures Best(m, s) <==> best[m[s].thread] == s {
      var b := best[m[s].thread];
      if b != s && Best(m, s) {
        assert Beats(m, b, s) && Beats(m, s, b);
        NotBoth(m, s, b);
      }
    }
  }

  lemma NotBoth(m: Table, s: Text, t: Text)
    requires s in m && t in m && s != t
    ensures !(Beats(m, s, t) && Beats(m, t, s))
  {
    hide Before;
    BeforeTotal(s, t, s);
  }

  /** No topic loses its last entry, and none keeps two. */
  lemma DedupedKeeps(m: Table, best: map<int, Text>)
    requires BestSoFar(m, m.Keys, best)
    ensures OnePerThread(Deduped(m)) && Threads(Deduped(m)) == Threads(m)
    ensures OnePerThread(m) ==> Deduped(m) == m
  {
    hide Newer, Before, Beats;
    BestKept(m, best, map s | s in m && best[m[s].thread] == s :: m[s]);
    forall t | t in Threads(m) ensures t in Threads(Deduped(m)) {
      assert best[t] in Deduped(m);
    }
  }

  method BestByThread(m: Table) returns (best: map<int, Text>)
    ensures BestSoFar(m, m.Keys, best)
  {
    hide Newer, Before, Beats;
    best := map[];
    var rest := m.Keys;
    while rest != {}
      invariant Walked(m.Keys, rest)
      invariant BestSoFar(m, m.Keys - rest, best)
      decreases rest
    {
      var s := Next(m.Keys, rest);
      var thread := m[s].thread;
      if thread !in best || Newer(m[s], m[best[thread]]) {
        if thread in best {
          forall t | t in m.Keys - rest && m[t].thread == thread ensures Beats(m, s, t) {
            BeatsOn(m, s, best[thread], t);
          }
        }
        best := best[thread := s];
      } else {
        BeatenLater(m, s, best[thread]);
      }
      rest := rest - {s};
    }
    assert m.Keys - rest == m.Keys;
  }

  method DropOthers(m: Table, best: map<int, Text>) returns (kept: Table, removed: nat)
    requires BestSoFar(m, m.Keys, best)
    ensures kept.Keys == set s | s in m && best[m[s].thread] == s
    ensures forall s <- kept :: kept[s] == m[s]
    ensures removed == |m| - |kept|
  {
    kept, removed := m, 0;
    var rest := m.Keys;
    while rest != {}
      invariant rest <= kept.Keys <= m.Keys
      invariant forall s <- kept :: kept[s] == m[s]
      invariant forall s | s in m :: s in kept <==> s in rest || best[m[s].thread] == s
      invariant removed == |m| - |kept|
      decreases rest
    {
      var s :| s in rest;
      if best[m[s].thread] != s {
        kept := kept - {s};
        removed := removed + 1;
      }
      rest := rest - {s};
    }
  }

  class Mapping {
    var topics: Table
    var pending: set<Text>

    constructor (topics: Table, pending: set<Text>)
      ensures this.topics == topics && this.pending == pending
    {
      this.topics, this.pending := topics, pending;
    }

    /** Matches the live agents to stored entries without changing anything. */
    method PlanReassociation(live: seq<Agent>) returns (plan: Plan)
      ensures IsPlan(topics, ByKey(live), plan) && PlanOrdered(plan)
    {
      hide *;
      ghost var A := ByKey(live);
      var entries := Entries(topics);
      var agents := UniqueAgents(live);
      var exact, matched, used := ExactPass(topics, agents, A);
      var sessionSets := SessionSets(topics, agents, entries, matched, used, A);
      var session, refused, taken, settled := SessionPass(topics, sessionSets, A);
      UsedSessionIs(topics, A, used, taken);
      SettledIs(topics, A, matched, settled);
      var fallbackSets := FallbackSets(topics, agents, entries, matched + settled, used + taken, A);
      var fallback, refused' := FallbackPass(topics, fallbackSets, A);
      PlanComplete(topics, A, exact, session, fallback, refused, refused');
      plan := OrderPlan(topics, Plan(exact + session + fallback, refused + refused'), A);
    }

    /** Moves the selected entries all at once, or not at all. */
    method ApplyReassociation(plan: seq<Assignment>) returns (err: Option<ApplyError>)
      modifies this`topics
      ensures err.None? <==> Applicable(old(topics), plan)
      ensures err.Some? ==> topics == old(topics)
      ensures err.None? ==> IsMoved(old(topics), plan, topics)
    {
      hide *;
      var next;
      err, next := ApplyPlan(topics, plan);
      if err.None? {
        topics := next;
      }
    }

    /** Records a created topic under the name Telegram confirmed, if any. */
    method Link(a: Agent, thread: int, name: string, closed: bool, now: int)
      modifies this`topics
      ensures topics == old(topics)[String(a.key) :=
                TopicEntry(thread, if name != "" then name else DesiredName(a), a.status, closed, false,
                           a.cwd, a.kind, false, now)]
    {
      var confirmed := if name != "" then name else DesiredName(a);
      topics := topics[String(a.key) := TopicEntry(thread, confirmed, a.status, closed, false, a.cwd, a.kind, false, now)];
    }

    /** Learns cwd and kind; unknown live values erase nothing. */
    method UpdateMetadata(k: Key, a: Agent) returns (changed: bool)
      modifies this`topics
      ensures String(k) !in old(topics) ==> !changed
      ensures String(k) in old(topics) ==> changed == !MetadataKnown(old(topics)[String(k)], a)
      ensures !changed ==> topics == old(topics)
      ensures changed ==>
        && String(k) in topics && topics == old(topics)[String(k) := topics[String(k)]]
        && MetadataKnown(topics[String(k)], a) && SameTopic(old(topics)[String(k)], topics[String(k)])
        && MetadataLeft(old(topics)[String(k)], topics[String(k)], a)
    {
      hide String;
      changed := false;
      if String(k) in topics {
        var e := topics[String(k)];
        if a.cwd != "" && e.cwd != a.cwd {
          e, changed := e.(cwd := a.cwd), true;
        }
        if a.cwd != "" && e.legacyNoCwd {
          e, changed := e.(legacyNoCwd := false), true;
        }
        if a.kind != "" && e.kind != a.kind {
          e, changed := e.(kind := a.kind), true;
        }
        topics := topics[String(k) := e];
      }
    }

    /** Replaces an existing entry, stamping it; a missing one stays missing. */
    method Update(k: Key, e: TopicEntry, now: int)
      modifies this`topics
      ensures topics == if String(k) in old(topics) then old(topics)[String(k) := e.(updatedAt := now)] else old(topics)
    {
      if String(k) in topics {
        topics := topics[String(k) := e.(updatedAt := now)];
      }
    }

    method Forget(k: Key)
      modifies this`topics
      ensures topics == old(topics) - {String(k)}
    {
      topics := topics - {String(k)};
    }

    /** The keys that can be read back, in a stable order. */
    method StoredKeys() returns (keys: seq<Key>)
      ensures Ascending(keys) && forall k :: k in keys <==> Stored(topics, k)
    {
      hide String, ParseKey, Ascending, Before;
      keys := [];
      NothingAscends();
      var rest := topics.Keys;
      while rest != {}
        invariant Walked(topics.Keys, rest) && Ascending(keys)
        invariant forall k :: k in keys <==> Stored(topics, k) && String(k) !in rest
        decreases rest
      {
        var s := Next(topics.Keys, rest);
        var k := ParseKey(s);
        ParsedIsStored(topics, s);
        if k.Some? {
          AscendingAdd(keys, k.value);
          keys := keys + [k.value];
        }
        rest := rest - {s};
      }
    }

    /** Entries of running agents that are not in the live set, unless muted. */
    method Orphans(live: set<Key>) returns (keys: seq<Key>)
      ensures Ascending(keys)
      ensures forall k :: k in keys <==>
                Stored(topics, k) && k !in live && topics[String(k)].status.Live() && !topics[String(k)].muted
    {
      hide String, ParseKey, Ascending, Before;
      var all := StoredKeys();
      keys := [];
      NothingAscends();
      for i := 0 to |all|
        invariant Ascending(keys)
        invariant forall k :: k in keys <==>
                    k in all[..i] && Stored(topics, k) && k !in live && topics[String(k)].status.Live() && !topics[String(k)].muted
      {
        var k := all[i];
        AscendingAt(all, i);
        assert all[..i + 1] == all[..i] + [k];
        if topics[String(k)].status.Live() && !topics[String(k)].muted && k !in live {
          AscendingAdd(keys, k);
          keys := keys + [k];
        }
      }
      assert all[..|all|] == all;
    }

    /** Finished entries whose topic is still open, unless muted. */
    method Unclosed() returns (keys: seq<Key>)
      ensures Ascending(keys)
      ensures forall k :: k in keys <==>
                Stored(topics, k) && !topics[String(k)].status.Live() && !topics[String(k)].closed && !topics[String(k)].muted
    {
      hide String, ParseKey, Ascending, Before;
      var all := StoredKeys();
      keys := [];
      NothingAscends();
      for i := 0 to |all|
        invariant Ascending(keys)
        invariant forall k :: k in keys <==>
                    k in all[..i] && Stored(topics, k) && !topics[String(k)].status.Live()
                    && !topics[String(k)].closed && !topics[String(k)].muted
      {
        var k := all[i];
        AscendingAt(all, i);
        assert all[..i + 1] == all[..i] + [k];
        if !topics[String(k)].status.Live() && !topics[String(k)].closed && !topics[String(k)].muted {
          AscendingAdd(keys, k);
          keys := keys + [k];
        }
      }
      assert all[..|all|] == all;
    }

    /** The key whose entry claims the thread, if it can be read back. */
    method KeyForThread(thread: int) returns (k: Option<Key>)
      ensures Claims(topics, thread, k)
      ensures k.Some? ==> Stored(topics, k.value)
    {
      hide String, ParseKey, Before, Newer, Beats;
      var best: Text := [];
      var rest := topics.Keys;
      while rest != {}
        invariant Walked(topics.Keys, rest)
        invariant best == [] ==> forall s | s in topics.Keys - rest && s != [] :: topics[s].thread != thread
        invariant best != [] ==>
          && best in topics.Keys - rest && topics[best].thread == thread
          && forall s | s in topics.Keys - rest && s != [] && s != best && topics[s].thread == thread :: Beats(topics, best, s)
        decreases rest
      {
        var s := Next(topics.Keys, rest);
        EmptyFirst(best);
        if topics[s].thread == thread {
          if best == [] {
            best := s;
          } else if Newer(topics[s], topics[best]) {
            forall t | t in topics.Keys - rest && t != [] && topics[t].thread == thread ensures Beats(topics, s, t) {
              BeatsOn(topics, s, best, t);
            }
            best := s;
          } else {
            BeatenLater(topics, s, best);
          }
        }
        rest := rest - {s};
      }
      if best == [] {
        return None;
      }
      k := ParseKey(best);
      ParsedIsStored(topics, best);
      ClaimedBy(topics, thread, best);
    }

    /** Entries of finished agents whose closed topic has not changed for longer
        than maxAge, the oldest first. */
    method Stale(now: int, maxAge: int) returns (keys: seq<Key>)
      ensures forall k :: k in keys <==> Stored(topics, k) && IsStale(topics[String(k)], now, maxAge)
      ensures forall k | Stored(topics, k) :: k in keys <==>
                var e := topics[String(k)]; e.status == Exited && e.closed && e.updatedAt + maxAge < now
      ensures forall i, j | 0 <= i < j < |keys| :: keys[i] != keys[j] && OlderFirst(topics, keys[i], keys[j])
    {
      hide String, ParseKey, Ascending, Before, OlderFirst, IsStale;
      var all := StoredKeys();
      var found: seq<Key> := [];
      NothingAscends();
      for i := 0 to |all|
        invariant Ascending(found)
        invariant forall k :: k in found <==> k in all[..i] && Stored(topics, k) && IsStale(topics[String(k)], now, maxAge)
      {
        var k := all[i];
        AscendingAt(all, i);
        assert all[..i + 1] == all[..i] + [k];
        if IsStale(topics[String(k)], now, maxAge) {
          AscendingAdd(found, k);
          found := found + [k];
        }
      }
      assert all[..|all|] == all;
      forall k | Stored(topics, k)
        ensures var e := topics[String(k)];
          IsStale(e, now, maxAge) <==> e.status == Exited && e.closed && e.updatedAt + maxAge < now
      {
        StaleExactly(topics[String(k)], now, maxAge);
      }
      OlderLinear(topics);
      keys := SortBy(found, OlderIn(topics));
      SameMembers(found, keys);
      AscendingDistinct(found);
      DistinctStays(found, keys, k => k);
    }

    /** Keeps one entry per thread: the one that beats the others. */
    method DedupeThreads() returns (removed: nat)
      modifies this`topics
      ensures topics == Deduped(old(topics)) && removed == |old(topics)| - |topics|
      ensures OnePerThread(topics) && Threads(topics) == Threads(old(topics))
      ensures OnePerThread(old(topics)) ==> removed == 0 && topics == old(topics)
    {
      hide *;
      var best := BestByThread(topics);
      var kept;
      kept, removed := DropOthers(topics, best);
      BestKept(topics, best, kept);
      DedupedKeeps(topics, best);
      topics := kept;
    }
  }
}
