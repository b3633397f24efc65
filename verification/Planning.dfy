/** How a reassociation plan is computed and carried out: the loops of the
    matcher, pass by pass, and the simultaneous move of a plan's entries. */
module Planning {
  import opened Keys
  import opened Topics
  import opened Reassociation
  import opened Sorting

  /** cands lists exactly the members of s, each once. */
  ghost predicate Lists<T(!new)>(cands: seq<T>, s: set<T>) {
    && (forall x :: x in cands <==> x in s)
    && (forall i, j | 0 <= i < j < |cands| :: cands[i] != cands[j])
  }

  lemma ListsButLast<T(!new)>(cands: seq<T>, s: set<T>)
    requires Lists(cands, s) && cands != []
    ensures var n := |cands| - 1;
      cands[n] in s && Lists(cands[..n], s - {cands[n]})
  {
    var n := |cands| - 1;
    assert cands == cands[..n] + [cands[n]];
    assert forall i | 0 <= i < n :: cands[..n][i] == cands[i];
    forall x ensures x in cands[..n] <==> x in s - {cands[n]} {
      assert x in cands <==> x in cands[..n] || x == cands[n];
      if x in cands[..n] {
        var i :| 0 <= i < n && cands[..n][i] == x;
        assert cands[i] == x;
      }
    }
  }

  lemma {:induction false} ListsSize<T(!new)>(cands: seq<T>, s: set<T>)
    requires Lists(cands, s)
    ensures |cands| == |s|
    ensures |cands| == 1 ==> s == {cands[0]}
  {
    if cands == [] {
      assert s == {};
    } else {
      var x := cands[|cands| - 1];
      ListsButLast(cands, s);
      ListsSize(cands[..|cands| - 1], s - {x});
      hide Lists;
      assert s == (s - {x}) + {x};
    }
  }

  ghost function Elems<T>(xs: seq<T>): set<T> {
    set x | x in xs
  }

  lemma ListsEmpty<T(!new)>()
    ensures Lists<T>([], {})
  {
  }

  lemma ListsAt<T(!new)>(cands: seq<T>, s: set<T>, i: nat)
    requires Lists(cands, s) && i < |cands|
    ensures cands[i] in s && cands[i] !in cands[..i]
    ensures Elems(cands[..i + 1]) == Elems(cands[..i]) + {cands[i]}
  {
    assert cands[..i + 1] == cands[..i] + [cands[i]];
  }

  lemma ListsAll<T(!new)>(cands: seq<T>, s: set<T>)
    requires Lists(cands, s)
    ensures Elems(cands[..|cands|]) == s
  {
    assert cands[..|cands|] == cands;
  }

  lemma ListsAdd<T(!new)>(cands: seq<T>, s: set<T>, x: T)
    requires Lists(cands, s) && x !in s
    ensures Lists(cands + [x], s + {x})
  {
    assert forall i | 0 <= i < |cands| :: cands[i] in cands && cands[i] != x;
  }

  datatype CandidateSet = CandidateSet(agent: Agent, candidates: seq<Text>)

  ghost predicate Covers(agents: seq<Agent>, A: map<Key, Agent>) {
    && (forall a <- agents :: a.key in A && A[a.key] == a)
    && (forall k <- A :: A[k] in agents && A[k].key == k)
    && (forall i, j | 0 <= i < j < |agents| :: agents[i].key != agents[j].key)
  }

  function KeysOf(agents: seq<Agent>): set<Key> {
    set a | a in agents :: a.key
  }

  lemma CoversNone()
    ensures Covers([], map[])
  {
  }

  lemma CoversAdd(agents: seq<Agent>, A: map<Key, Agent>, a: Agent)
    requires Covers(agents, A) && a.key !in A
    ensures Covers(agents + [a], A[a.key := a])
  {
    assert forall b <- agents :: b.key != a.key;
    assert forall k <- A :: A[k] in agents + [a];
  }

  lemma CoversKeys(agents: seq<Agent>, A: map<Key, Agent>, n: nat)
    requires Covers(agents, A) && n <= |agents|
    ensures KeysOf(agents[..n]) <= A.Keys
    ensures n == |agents| ==> KeysOf(agents[..n]) == A.Keys
    ensures n < |agents| ==> agents[n].key in A && A[agents[n].key] == agents[n]
    ensures n < |agents| ==> agents[n].key !in KeysOf(agents[..n])
    ensures n < |agents| ==> KeysOf(agents[..n + 1]) == KeysOf(agents[..n]) + {agents[n].key}
  {
    if n == |agents| {
      assert agents[..n] == agents;
    } else {
      assert agents[..n + 1] == agents[..n] + [agents[n]];
    }
  }

  /** sets records, for every agent in keys that has candidates, which ones. */
  ghost predicate SetsFor(sets: seq<CandidateSet>, A: map<Key, Agent>, cands: map<Key, set<Text>>, keys: set<Key>) {
    && cands.Keys == A.Keys
    && (forall c <- sets ::
          && c.agent.key in A && A[c.agent.key] == c.agent && c.agent.key in keys
          && c.candidates != [] && Lists(c.candidates, cands[c.agent.key]))
    && (forall k <- A | k in keys && cands[k] != {} :: exists c <- sets :: c.agent.key == k)
    && (forall i, j | 0 <= i < j < |sets| :: sets[i].agent.key != sets[j].agent.key)
  }

  lemma SetsEmpty(A: map<Key, Agent>, cands: map<Key, set<Text>>)
    requires cands.Keys == A.Keys
    ensures SetsFor([], A, cands, {})
  {
  }

  lemma SetsAdd(sets: seq<CandidateSet>, A: map<Key, Agent>, cands: map<Key, set<Text>>, keys: set<Key>,
                a: Agent, mine: seq<Text>)
    requires SetsFor(sets, A, cands, keys) && a.key in A && A[a.key] == a && a.key !in keys
    requires Lists(mine, cands[a.key])
    ensures SetsFor(if mine == [] then sets else sets + [CandidateSet(a, mine)], A, cands, keys + {a.key})
  {
    hide Lists;
    if mine == [] {
      assert cands[a.key] == {} by {
        ListsSize(mine, cands[a.key]);
      }
    } else {
      var c := CandidateSet(a, mine);
      var more := sets + [c];
      forall k | k in A && k in keys + {a.key} && cands[k] != {} ensures exists c <- more :: c.agent.key == k {
        if k == a.key {
          assert c in more;
        } else {
          var d :| d in sets && d.agent.key == k;
          assert d in more;
        }
      }
    }
  }

  ghost function Owners(cands: map<Key, set<Text>>, s: Text): set<Key> {
    set k | k in cands && s in cands[k]
  }

  ghost function SessionMap(m: Table, A: map<Key, Agent>): map<Key, set<Text>> {
    map k | k in A :: SessionCands(m, A, k)
  }

  ghost function FallbackMap(m: Table, A: map<Key, Agent>): map<Key, set<Text>> {
    map k | k in A :: FallbackCands(m, A, k)
  }

  /** xs holds the assignments of one pass for the agents in keys. */
  ghost predicate PassDone(m: Table, A: map<Key, Agent>, r: Reason, xs: seq<Assignment>, keys: set<Key>) {
    && (forall a <- xs ::
          a.reason == r && a.to in keys && ParseKey(From(a)) == Some(a.from) && Assigns(m, A, a.to, From(a), r))
    && (forall k, s | k in keys && Assigns(m, A, k, s, r) :: exists a <- xs :: a.to == k && From(a) == s)
    && (forall i, j | 0 <= i < j < |xs| :: xs[i].to != xs[j].to)
  }

  lemma PassStart(m: Table, A: map<Key, Agent>, r: Reason)
    ensures PassDone(m, A, r, [], {})
  {
  }

  lemma PassSkip(m: Table, A: map<Key, Agent>, r: Reason, xs: seq<Assignment>, keys: set<Key>, k: Key)
    requires PassDone(m, A, r, xs, keys)
    requires forall s :: !Assigns(m, A, k, s, r)
    ensures PassDone(m, A, r, xs, keys + {k})
  {
    hide String, ParseKey, Assigns;
  }

  lemma PassAdd(m: Table, A: map<Key, Agent>, r: Reason, xs: seq<Assignment>, keys: set<Key>, k: Key, s: Text)
    requires PassDone(m, A, r, xs, keys) && k !in keys
    requires Assigns(m, A, k, s, r) && ParseKey(s).Some?
    ensures PassDone(m, A, r, xs + [Assignment(StoredKey(s), k, r)], keys + {k})
  {
    hide String, ParseKey, Assigns;
    AssignedFrom(m, A, k, s, r);
    ParseString(StoredKey(s));
    var x := Assignment(StoredKey(s), k, r);
    var ys := xs + [x];
    forall k', t | k' in keys + {k} && Assigns(m, A, k', t, r) ensures exists a <- ys :: a.to == k' && From(a) == t {
      if k' == k {
        AssignsOne(m, A, k, s, t, r, r);
        assert x in ys && x.to == k && From(x) == t;
      } else {
        var a :| a in xs && a.to == k' && From(a) == t;
        assert a in ys;
      }
    }
  }

  method AddOwner(owners: map<Text, set<Key>>, cands: seq<Text>, key: Key) returns (r: map<Text, set<Key>>)
    ensures r.Keys == owners.Keys + Elems(cands)
    ensures forall s <- r :: r[s] == (if s in owners then owners[s] else {}) + (if s in cands then {key} else {})
  {
    r := owners;
    for j := 0 to |cands|
      invariant r.Keys == owners.Keys + Elems(cands[..j])
      invariant forall s <- r ::
                  r[s] == (if s in owners then owners[s] else {}) + (if s in cands[..j] then {key} else {})
    {
      var s := cands[j];
      assert cands[..j + 1] == cands[..j] + [s];
      r := r[s := (if s in r then r[s] else {}) + {key}];
    }
    assert cands[..|cands|] == cands;
  }

  ghost function OwnersIn(sets: seq<CandidateSet>, s: Text): set<Key> {
    set c | c in sets && s in c.candidates :: c.agent.key
  }

  method CandidateOwners(sets: seq<CandidateSet>) returns (owners: map<Text, set<Key>>)
    ensures forall s :: s in owners <==> OwnersIn(sets, s) != {}
    ensures forall s <- owners :: owners[s] == OwnersIn(sets, s)
  {
    hide OwnersIn;
    owners := map[];
    OwnersNone();
    for i := 0 to |sets|
      invariant forall s :: s in owners <==> OwnersIn(sets[..i], s) != {}
      invariant forall s <- owners :: owners[s] == OwnersIn(sets[..i], s)
    {
      assert sets[..i + 1] == sets[..i] + [sets[i]];
      forall s ensures OwnersIn(sets[..i + 1], s)
                       == OwnersIn(sets[..i], s) + (if s in sets[i].candidates then {sets[i].agent.key} else {}) {
        OwnersAdd(sets[..i], sets[i], s);
      }
      owners := AddOwner(owners, sets[i].candidates, sets[i].agent.key);
    }
    assert sets[..|sets|] == sets;
  }

  lemma OwnersNone()
    ensures forall s :: OwnersIn([], s) == {}
  {
  }

  lemma OwnersAdd(sets: seq<CandidateSet>, c: CandidateSet, s: Text)
    ensures OwnersIn(sets + [c], s) == OwnersIn(sets, s) + (if s in c.candidates then {c.agent.key} else {})
  {
  }

  lemma OwnersOf(sets: seq<CandidateSet>, A: map<Key, Agent>, cands: map<Key, set<Text>>, s: Text)
    requires SetsFor(sets, A, cands, A.Keys)
    ensures OwnersIn(sets, s) == Owners(cands, s)
  {
    forall k | k in Owners(cands, s) ensures exists c <- sets :: s in c.candidates && c.agent.key == k {
      var c :| c in sets && c.agent.key == k;
    }
  }

  /** The readable storage keys, in map order. */
  method Entries(m: Table) returns (entries: seq<Text>)
    ensures Lists(entries, ReadableKeys(m))
  {
    hide ParseKey;
    entries := [];
    var rest := m.Keys;
    ghost var done: set<Text> := {};
    while rest != {}
      invariant rest + done == m.Keys && rest !! done
      invariant Lists(entries, set s | s in done && Readable(m, s))
      decreases rest
    {
      hide Lists;
      var s :| s in rest;
      ghost var before := set s | s in done && Readable(m, s);
      if ParseKey(s).Some? {
        ListsAdd(entries, before, s);
        assert (set t | t in done + {s} && Readable(m, t)) == before + {s};
        entries := entries + [s];
      } else {
        assert (set t | t in done + {s} && Readable(m, t)) == before;
      }
      rest, done := rest - {s}, done + {s};
    }
  }

  method UniqueAgents(live: seq<Agent>) returns (agents: seq<Agent>)
    ensures Covers(agents, ByKey(live))
  {
    hide Covers;
    agents := [];
    var seen: set<Key> := {};
    CoversNone();
    for i := 0 to |live|
      invariant Covers(agents, ByKey(live[..i]))
      invariant seen == ByKey(live[..i]).Keys
    {
      assert live[..i + 1][..i] == live[..i];
      if live[i].key !in seen {
        CoversAdd(agents, ByKey(live[..i]), live[i]);
        seen := seen + {live[i].key};
        agents := agents + [live[i]];
      }
    }
    assert live[..|live|] == live;
  }

  method ExactPass(m: Table, agents: seq<Agent>, ghost A: map<Key, Agent>)
    returns (xs: seq<Assignment>, matched: set<Key>, used: set<Text>)
    requires Covers(agents, A)
    ensures PassDone(m, A, ExactIdentity, xs, A.Keys)
    ensures matched == set k | k in A && Exact(m, k)
    ensures used == UsedExact(m, A)
  {
    hide String, ParseKey, Exact, PassDone, Covers;
    xs, matched, used := [], {}, {};
    ghost var keys: set<Key> := {};
    PassStart(m, A, ExactIdentity);
    for i := 0 to |agents|
      invariant keys == KeysOf(agents[..i]) <= A.Keys
      invariant PassDone(m, A, ExactIdentity, xs, keys)
      invariant matched == set k | k in keys && Exact(m, k)
      invariant used == set k | k in keys && Exact(m, k) :: String(k)
    {
      var k := agents[i].key;
      CoversKeys(agents, A, i);
      if Exact(m, k) {
        ExactMeansSame(m, k);
        PassAdd(m, A, ExactIdentity, xs, keys, k, String(k));
        xs := xs + [Assignment(StoredKey(String(k)), k, ExactIdentity)];
        matched, used := matched + {k}, used + {String(k)};
      } else {
        PassSkip(m, A, ExactIdentity, xs, keys, k);
      }
      keys := keys + {k};
    }
    CoversKeys(agents, A, |agents|);
  }

  method SessionCandidates(m: Table, entries: seq<Text>, used: set<Text>, k: Key) returns (cands: seq<Text>)
    requires Lists(entries, ReadableKeys(m))
    ensures Lists(cands, set s | s in m && FitsSession(m, used, k, s))
  {
    hide Lists, ParseKey, Key.SameSession;
    ghost var all := set s | s in m && FitsSession(m, used, k, s);
    cands := [];
    ghost var done: set<Text> := {};
    ListsEmpty<Text>();
    assert all * done == {};
    for i := 0 to |entries|
      invariant done == Elems(entries[..i])
      invariant Lists(cands, all * done)
    {
      var s := entries[i];
      ListsAt(entries, ReadableKeys(m), i);
      if s !in used && StoredKey(s).SameSession(k) {
        ListsAdd(cands, all * done, s);
        cands := cands + [s];
        assert all * (done + {s}) == all * done + {s};
      } else {
        assert all * (done + {s}) == all * done;
      }
      done := done + {s};
    }
    ListsAll(entries, ReadableKeys(m));
    assert all * done == all;
  }

  method FallbackCandidates(m: Table, entries: seq<Text>, used: set<Text>, a: Agent) returns (cands: seq<Text>)
    requires Lists(entries, ReadableKeys(m))
    ensures Lists(cands, set s | s in m && FitsFallback(m, used, a, s))
  {
    hide Lists, ParseKey, EligibleFallback;
    ghost var all := set s | s in m && FitsFallback(m, used, a, s);
    cands := [];
    ghost var done: set<Text> := {};
    ListsEmpty<Text>();
    assert all * done == {};
    for i := 0 to |entries|
      invariant done == Elems(entries[..i])
      invariant Lists(cands, all * done)
    {
      var s := entries[i];
      ListsAt(entries, ReadableKeys(m), i);
      if s !in used && EligibleFallback(StoredKey(s), m[s], a) {
        ListsAdd(cands, all * done, s);
        cands := cands + [s];
        assert all * (done + {s}) == all * done + {s};
      } else {
        assert all * (done + {s}) == all * done;
      }
      done := done + {s};
    }
    ListsAll(entries, ReadableKeys(m));
    assert all * done == all;
  }

  method SessionSets(m: Table, agents: seq<Agent>, entries: seq<Text>, matched: set<Key>, used: set<Text>,
                     ghost A: map<Key, Agent>)
    returns (sets: seq<CandidateSet>)
    requires Covers(agents, A) && Lists(entries, ReadableKeys(m))
    requires matched == (set k | k in A && Exact(m, k)) && used == UsedExact(m, A)
    ensures SetsFor(sets, A, SessionMap(m, A), A.Keys)
  {
    hide String, ParseKey, Exact, SetsFor, Covers, Lists, FitsSession, UsedExact;
    sets := [];
    ghost var keys: set<Key> := {};
    SetsEmpty(A, SessionMap(m, A));
    for i := 0 to |agents|
      invariant keys == KeysOf(agents[..i]) <= A.Keys
      invariant SetsFor(sets, A, SessionMap(m, A), keys)
    {
      var a := agents[i];
      CoversKeys(agents, A, i);
      var cands: seq<Text> := [];
      if a.key in matched || !a.key.Usable() {
        ListsEmpty<Text>();
      } else {
        cands := SessionCandidates(m, entries, used, a.key);
      }
      SetsAdd(sets, A, SessionMap(m, A), keys, a, cands);
      if cands != [] {
        sets := sets + [CandidateSet(a, cands)];
      }
      keys := keys + {a.key};
    }
    CoversKeys(agents, A, |agents|);
  }

  method FallbackSets(m: Table, agents: seq<Agent>, entries: seq<Text>, settled: set<Key>, used: set<Text>,
                      ghost A: map<Key, Agent>)
    returns (sets: seq<CandidateSet>)
    requires Covers(agents, A) && Lists(entries, ReadableKeys(m))
    requires settled == (set k | k in A && (Exact(m, k) || SessionCands(m, A, k) != {})) && used == UsedSession(m, A)
    ensures SetsFor(sets, A, FallbackMap(m, A), A.Keys)
  {
    hide String, ParseKey, Exact, SetsFor, Covers, Lists, FitsFallback, UsedSession, SessionCands;
    sets := [];
    ghost var keys: set<Key> := {};
    SetsEmpty(A, FallbackMap(m, A));
    for i := 0 to |agents|
      invariant keys == KeysOf(agents[..i]) <= A.Keys
      invariant SetsFor(sets, A, FallbackMap(m, A), keys)
    {
      var a := agents[i];
      CoversKeys(agents, A, i);
      var cands: seq<Text> := [];
      if a.key in settled || !a.key.Usable() {
        ListsEmpty<Text>();
      } else {
        cands := FallbackCandidates(m, entries, used, a);
      }
      SetsAdd(sets, A, FallbackMap(m, A), keys, a, cands);
      if cands != [] {
        sets := sets + [CandidateSet(a, cands)];
      }
      keys := keys + {a.key};
    }
    CoversKeys(agents, A, |agents|);
  }

  // ---- deciding the session and metadata matches ----

  lemma Singleton<T>(s: set<T>, x: T)
    requires x in s
    ensures |s| == 1 <==> s == {x}
  {
    if |s| == 1 {
      assert |s - {x}| == 0;
    }
  }

  lemma SingletonSize<T>(x: T)
    ensures |{x}| == 1
  {
  }

  lemma SessionVerdict(m: Table, A: map<Key, Agent>, k: Key, s: Text)
    requires k in A && s in SessionCands(m, A, k)
    ensures var cands, owners := SessionCands(m, A, k), SessionOwners(m, A, s);
      if |cands| != 1 then
        && (forall t :: !SessionTakes(m, A, k, t))
        && (forall n, r :: RefusesSession(m, A, k, n, r) <==> n == |cands| && r == AmbiguousSession)
      else if |owners| > 1 then
        && (forall t :: !SessionTakes(m, A, k, t))
        && (forall n, r :: RefusesSession(m, A, k, n, r) <==> n == |owners| && r == ManyToOne)
      else
        SessionTakes(m, A, k, s) && forall n, r :: !RefusesSession(m, A, k, n, r)
  {
    hide SessionCands;
    Singleton(SessionCands(m, A, k), s);
    assert k in SessionOwners(m, A, s);
    Singleton(SessionOwners(m, A, s), k);
  }

  /** s is what the program selects: a single live candidate, else a single one. */
  lemma FallbackVerdict(m: Table, A: map<Key, Agent>, k: Key, s: Text)
    requires k in A && s in FallbackCands(m, A, k) && Selects(m, FallbackCands(m, A, k), s)
    ensures var owners := FallbackOwners(m, A, s);
      if |owners| > 1 then
        && (forall t :: !FallbackTakes(m, A, k, t))
        && (forall n, r :: RefusesFallback(m, A, k, n, r) <==> n == |owners| && r == ManyToOne)
      else
        FallbackTakes(m, A, k, s) && forall n, r :: !RefusesFallback(m, A, k, n, r)
  {
    hide FallbackCands;
    assert k in FallbackOwners(m, A, s);
    Singleton(FallbackOwners(m, A, s), k);
    forall t | Selects(m, FallbackCands(m, A, k), t) ensures t == s {
      assert s in LiveOnes(m, FallbackCands(m, A, k)) || FallbackCands(m, A, k) == {s};
      assert t in LiveOnes(m, FallbackCands(m, A, k)) || FallbackCands(m, A, k) == {t};
    }
  }

  /** xs and refused hold the outcome of the session pass for the agents in keys. */
  ghost predicate SessionDone(m: Table, A: map<Key, Agent>, xs: seq<Assignment>, refused: seq<Ambiguity>, keys: set<Key>) {
    && PassDone(m, A, SameSession, xs, keys)
    && (forall x <- refused :: x.live in keys && RefusesSession(m, A, x.live, x.count, x.reason))
    && (forall i, j | 0 <= i < j < |refused| :: refused[i].live != refused[j].live)
    && (forall k, n, r | k in keys && RefusesSession(m, A, k, n, r) :: Ambiguity(k, n, r) in refused)
  }

  ghost predicate FallbackDone(m: Table, A: map<Key, Agent>, xs: seq<Assignment>, refused: seq<Ambiguity>, keys: set<Key>) {
    && PassDone(m, A, Fallback, xs, keys)
    && (forall x <- refused :: x.live in keys && RefusesFallback(m, A, x.live, x.count, x.reason))
    && (forall i, j | 0 <= i < j < |refused| :: refused[i].live != refused[j].live)
    && (forall k, n, r | k in keys && RefusesFallback(m, A, k, n, r) :: Ambiguity(k, n, r) in refused)
  }

  lemma SessionRefuse(m: Table, A: map<Key, Agent>, xs: seq<Assignment>, refused: seq<Ambiguity>, keys: set<Key>,
                      k: Key, count: nat, reason: Reason)
    requires SessionDone(m, A, xs, refused, keys) && k !in keys && forall s :: !SessionTakes(m, A, k, s)
    requires forall n, r :: RefusesSession(m, A, k, n, r) <==> n == count && r == reason
    ensures SessionDone(m, A, xs, refused + [Ambiguity(k, count, reason)], keys + {k})
  {
    hide PassDone, RefusesSession, SessionTakes;
    PassSkip(m, A, SameSession, xs, keys, k);
  }

  lemma SessionAssign(m: Table, A: map<Key, Agent>, xs: seq<Assignment>, refused: seq<Ambiguity>, keys: set<Key>,
                      k: Key, s: Text)
    requires SessionDone(m, A, xs, refused, keys) && k !in keys && SessionTakes(m, A, k, s)
    requires forall n, r :: !RefusesSession(m, A, k, n, r)
    ensures ParseKey(s).Some?
    ensures SessionDone(m, A, xs + [Assignment(StoredKey(s), k, SameSession)], refused, keys + {k})
  {
    hide ParseKey, String, PassDone, RefusesSession, SessionTakes;
    AssignedFrom(m, A, k, s, SameSession);
    PassAdd(m, A, SameSession, xs, keys, k, s);
  }

  /** Agents without candidates are neither assigned nor refused in this pass. */
  lemma SessionFinish(m: Table, A: map<Key, Agent>, xs: seq<Assignment>, refused: seq<Ambiguity>, keys: set<Key>)
    requires SessionDone(m, A, xs, refused, keys) && keys <= A.Keys
    requires forall k <- A :: k in keys || SessionCands(m, A, k) == {}
    ensures SessionDone(m, A, xs, refused, A.Keys)
    ensures forall k, s | SessionTakes(m, A, k, s) :: k in keys
  {
    hide ParseKey, String, SessionCands;
  }

  lemma FallbackRefuse(m: Table, A: map<Key, Agent>, xs: seq<Assignment>, refused: seq<Ambiguity>, keys: set<Key>,
                      k: Key, count: nat, reason: Reason)
    requires FallbackDone(m, A, xs, refused, keys) && k !in keys && forall s :: !FallbackTakes(m, A, k, s)
    requires forall n, r :: RefusesFallback(m, A, k, n, r) <==> n == count && r == reason
    ensures FallbackDone(m, A, xs, refused + [Ambiguity(k, count, reason)], keys + {k})
  {
    hide PassDone, RefusesFallback, FallbackTakes;
    PassSkip(m, A, Fallback, xs, keys, k);
  }

  lemma FallbackAssign(m: Table, A: map<Key, Agent>, xs: seq<Assignment>, refused: seq<Ambiguity>, keys: set<Key>,
                      k: Key, s: Text)
    requires FallbackDone(m, A, xs, refused, keys) && k !in keys && FallbackTakes(m, A, k, s)
    requires forall n, r :: !RefusesFallback(m, A, k, n, r)
    ensures ParseKey(s).Some?
    ensures FallbackDone(m, A, xs + [Assignment(StoredKey(s), k, Fallback)], refused, keys + {k})
  {
    hide ParseKey, String, PassDone, RefusesFallback, FallbackTakes;
    AssignedFrom(m, A, k, s, Fallback);
    PassAdd(m, A, Fallback, xs, keys, k, s);
  }

  /** Agents without candidates are neither assigned nor refused in this pass. */
  lemma FallbackFinish(m: Table, A: map<Key, Agent>, xs: seq<Assignment>, refused: seq<Ambiguity>, keys: set<Key>)
    requires FallbackDone(m, A, xs, refused, keys) && keys <= A.Keys
    requires forall k <- A :: k in keys || FallbackCands(m, A, k) == {}
    ensures FallbackDone(m, A, xs, refused, A.Keys)
    ensures forall k, s | FallbackTakes(m, A, k, s) :: k in keys
  {
    hide ParseKey, String, FallbackCands;
  }

  lemma DoneStart(m: Table, A: map<Key, Agent>)
    ensures SessionDone(m, A, [], [], {}) && FallbackDone(m, A, [], [], {})
  {
  }

  ghost function KeysOfSets(sets: seq<CandidateSet>): set<Key> {
    set c | c in sets :: c.agent.key
  }

  lemma SetsAt(sets: seq<CandidateSet>, A: map<Key, Agent>, cands: map<Key, set<Text>>, i: nat)
    requires SetsFor(sets, A, cands, A.Keys) && i <= |sets|
    ensures KeysOfSets(sets[..i]) <= A.Keys
    ensures i < |sets| ==>
      && sets[i].agent.key in A && sets[i].agent.key in cands && sets[i].agent.key !in KeysOfSets(sets[..i])
      && KeysOfSets(sets[..i + 1]) == KeysOfSets(sets[..i]) + {sets[i].agent.key}
      && sets[i].candidates != [] && Lists(sets[i].candidates, cands[sets[i].agent.key])
    ensures i == |sets| ==> KeysOfSets(sets[..i]) == set k | k in A && cands[k] != {}
  {
    hide Lists;
    if i < |sets| {
      assert sets[..i + 1] == sets[..i] + [sets[i]];
    } else {
      assert sets[..i] == sets;
      forall c | c in sets ensures cands[c.agent.key] != {} {
        ListsSize(c.candidates, cands[c.agent.key]);
      }
    }
  }

  /** The entries that session matches give to the agents in keys. */
  ghost function TakenBy(m: Table, A: map<Key, Agent>, keys: set<Key>): set<Text> {
    set s | s in m && exists k :: k in keys && SessionTakes(m, A, k, s)
  }

  lemma TakenByMore(m: Table, A: map<Key, Agent>, keys: set<Key>, k: Key)
    ensures (forall s :: !SessionTakes(m, A, k, s)) ==> TakenBy(m, A, keys + {k}) == TakenBy(m, A, keys)
    ensures forall s | SessionTakes(m, A, k, s) :: TakenBy(m, A, keys + {k}) == TakenBy(m, A, keys) + {s}
  {
    hide SessionTakes;
    forall s | SessionTakes(m, A, k, s) ensures TakenBy(m, A, keys + {k}) == TakenBy(m, A, keys) + {s} {
      AssignedFrom(m, A, k, s, SameSession);
      forall t | SessionTakes(m, A, k, t) ensures t == s {
        AssignsOne(m, A, k, s, t, SameSession, SameSession);
      }
    }
  }

  lemma TakenByAll(m: Table, A: map<Key, Agent>, keys: set<Key>)
    requires forall k, s | SessionTakes(m, A, k, s) :: k in keys
    ensures TakenBy(m, A, keys) == set s | s in m && SessionTaken(m, A, s)
  {
    hide SessionTakes;
  }

  /** What the i-th candidate set offers its agent. */
  lemma SetOffers(sets: seq<CandidateSet>, A: map<Key, Agent>, cands: map<Key, set<Text>>, i: nat)
    requires SetsFor(sets, A, cands, A.Keys) && i < |sets|
    ensures var k, mine := sets[i].agent.key, sets[i].candidates;
      && k in A && k in cands && k !in KeysOfSets(sets[..i]) && KeysOfSets(sets[..i + 1]) == KeysOfSets(sets[..i]) + {k}
      && |mine| == |cands[k]| > 0 && Lists(mine, cands[k])
      && (forall s <- mine :: s in cands[k])
      && (forall s <- cands[k] :: s in mine && OwnersIn(sets, s) == Owners(cands, s) && k in OwnersIn(sets, s))
  {
    hide SetsFor;
    SetsAt(sets, A, cands, i);
    var k, mine := sets[i].agent.key, sets[i].candidates;
    ListsSize(mine, cands[k]);
    forall s | s in cands[k] ensures s in mine && OwnersIn(sets, s) == Owners(cands, s) && k in OwnersIn(sets, s) {
      OwnersOf(sets, A, cands, s);
      assert sets[i] in sets;
    }
  }

  method SessionPass(m: Table, sets: seq<CandidateSet>, ghost A: map<Key, Agent>)
    returns (xs: seq<Assignment>, refused: seq<Ambiguity>, taken: set<Text>, settled: set<Key>)
    requires SetsFor(sets, A, SessionMap(m, A), A.Keys)
    ensures SessionDone(m, A, xs, refused, A.Keys)
    ensures taken == set s | s in m && SessionTaken(m, A, s)
    ensures settled == set k | k in A && SessionCands(m, A, k) != {}
  {
    hide String, ParseKey, SetsFor, Lists, SessionDone, SessionCands, RefusesSession, SessionTakes;
    hide KeysOfSets, TakenBy, OwnersIn;
    xs, refused, taken, settled := [], [], {}, {};
    var owners := CandidateOwners(sets);
    DoneStart(m, A);
    NothingTaken(m, A, sets);
    for i := 0 to |sets|
      invariant settled == KeysOfSets(sets[..i]) <= A.Keys
      invariant SessionDone(m, A, xs, refused, settled)
      invariant taken == TakenBy(m, A, settled)
    {
      var k, cands := sets[i].agent.key, sets[i].candidates;
      SetOffers(sets, A, SessionMap(m, A), i);
      var s := cands[0];
      assert Owners(SessionMap(m, A), s) == SessionOwners(m, A, s);
      SessionVerdict(m, A, k, s);
      TakenByMore(m, A, settled, k);
      if |cands| != 1 {
        SessionRefuse(m, A, xs, refused, settled, k, |cands|, AmbiguousSession);
        refused := refused + [Ambiguity(k, |cands|, AmbiguousSession)];
      } else if |owners[s]| > 1 {
        SessionRefuse(m, A, xs, refused, settled, k, |owners[s]|, ManyToOne);
        refused := refused + [Ambiguity(k, |owners[s]|, ManyToOne)];
      } else {
        SessionAssign(m, A, xs, refused, settled, k, s);
        xs := xs + [Assignment(StoredKey(s), k, SameSession)];
        taken := taken + {s};
      }
      settled := settled + {k};
    }
    SetsAt(sets, A, SessionMap(m, A), |sets|);
    SessionFinish(m, A, xs, refused, settled);
    TakenByAll(m, A, settled);
  }

  lemma NothingTaken(m: Table, A: map<Key, Agent>, sets: seq<CandidateSet>)
    ensures TakenBy(m, A, {}) == {} && KeysOfSets(sets[..0]) == {}
  {
  }

  /** The candidates whose topic still belongs to a running agent. */
  method LiveCandidates(m: Table, cands: seq<Text>, ghost all: set<Text>) returns (live: seq<Text>)
    requires Lists(cands, all) && all <= m.Keys
    ensures Lists(live, LiveOnes(m, all))
  {
    hide Lists;
    live := [];
    ghost var done: set<Text> := {};
    ListsEmpty<Text>();
    assert LiveOnes(m, all) * done == {};
    for i := 0 to |cands|
      invariant done == Elems(cands[..i])
      invariant Lists(live, LiveOnes(m, all) * done)
    {
      var s := cands[i];
      ListsAt(cands, all, i);
      if m[s].status.Live() {
        ListsAdd(live, LiveOnes(m, all) * done, s);
        live := live + [s];
        assert LiveOnes(m, all) * (done + {s}) == LiveOnes(m, all) * done + {s};
      } else {
        assert LiveOnes(m, all) * (done + {s}) == LiveOnes(m, all) * done;
      }
      done := done + {s};
    }
    ListsAll(cands, all);
    assert LiveOnes(m, all) * done == LiveOnes(m, all);
  }

  method Select(m: Table, cands: seq<Text>, ghost all: set<Text>) returns (selected: Option<Text>)
    requires Lists(cands, all) && all <= m.Keys && all != {}
    ensures selected.None? <==> forall s :: !Selects(m, all, s)
    ensures selected.Some? ==> Selects(m, all, selected.value) && selected.value in all
  {
    var live := LiveCandidates(m, cands, all);
    ListsSize(live, LiveOnes(m, all));
    ListsSize(cands, all);
    if |live| == 1 {
      selected := Some(live[0]);
      assert Selects(m, all, live[0]) && live[0] in LiveOnes(m, all);
    } else if |cands| == 1 {
      selected := Some(cands[0]);
      assert Selects(m, all, cands[0]);
    } else {
      selected := None;
      forall s ensures !Selects(m, all, s) {
        SingletonSize(s);
      }
    }
  }

  method FallbackPass(m: Table, sets: seq<CandidateSet>, ghost A: map<Key, Agent>)
    returns (xs: seq<Assignment>, refused: seq<Ambiguity>)
    requires SetsFor(sets, A, FallbackMap(m, A), A.Keys)
    ensures FallbackDone(m, A, xs, refused, A.Keys)
  {
    hide String, ParseKey, SetsFor, Lists, FallbackDone, FallbackCands, RefusesFallback, FallbackTakes, Selects;
    hide KeysOfSets, OwnersIn;
    xs, refused := [], [];
    var owners := CandidateOwners(sets);
    DoneStart(m, A);
    NothingTaken(m, A, sets);
    ghost var keys: set<Key> := {};
    for i := 0 to |sets|
      invariant keys == KeysOfSets(sets[..i]) <= A.Keys
      invariant FallbackDone(m, A, xs, refused, keys)
    {
      var k, cands := sets[i].agent.key, sets[i].candidates;
      SetOffers(sets, A, FallbackMap(m, A), i);
      FallbackStored(m, A, k);
      var selected := Select(m, cands, FallbackCands(m, A, k));
      if selected.None? {
        FallbackUndecided(m, A, k);
        FallbackRefuse(m, A, xs, refused, keys, k, |cands|, AmbiguousFallback);
        refused := refused + [Ambiguity(k, |cands|, AmbiguousFallback)];
      } else {
        var s := selected.value;
        FallbackVerdict(m, A, k, s);
        assert Owners(FallbackMap(m, A), s) == FallbackOwners(m, A, s);
        if |owners[s]| > 1 {
          FallbackRefuse(m, A, xs, refused, keys, k, |owners[s]|, ManyToOne);
          refused := refused + [Ambiguity(k, |owners[s]|, ManyToOne)];
        } else {
          FallbackAssign(m, A, xs, refused, keys, k, s);
          xs := xs + [Assignment(StoredKey(s), k, Fallback)];
        }
      }
      keys := keys + {k};
    }
    SetsAt(sets, A, FallbackMap(m, A), |sets|);
    FallbackFinish(m, A, xs, refused, keys);
  }

  lemma FallbackStored(m: Table, A: map<Key, Agent>, k: Key)
    ensures FallbackCands(m, A, k) <= m.Keys
  {
  }

  lemma FallbackUndecided(m: Table, A: map<Key, Agent>, k: Key)
    requires k in A && FallbackCands(m, A, k) != {}
    requires forall s :: !Selects(m, FallbackCands(m, A, k), s)
    ensures forall s :: !FallbackTakes(m, A, k, s)
    ensures forall n, r :: RefusesFallback(m, A, k, n, r) <==> n == |FallbackCands(m, A, k)| && r == AmbiguousFallback
  {
    hide FallbackCands, Selects;
  }

  // ---- the whole plan ----

  lemma AssignsReason(m: Table, A: map<Key, Agent>, k: Key, s: Text, r: Reason)
    requires Assigns(m, A, k, s, r)
    ensures r == ExactIdentity || r == SameSession || r == Fallback
  {
  }

  lemma RefusedIsLive(m: Table, A: map<Key, Agent>, k: Key, n: nat, r: Reason)
    requires Refuses(m, A, k, n, r)
    ensures k in A
  {
  }

  lemma UsedSessionIs(m: Table, A: map<Key, Agent>, used: set<Text>, taken: set<Text>)
    requires used == UsedExact(m, A) && taken == set s | s in m && SessionTaken(m, A, s)
    ensures used + taken == UsedSession(m, A)
  {
  }

  lemma SettledIs(m: Table, A: map<Key, Agent>, matched: set<Key>, settled: set<Key>)
    requires matched == set k | k in A && Exact(m, k)
    requires settled == set k | k in A && SessionCands(m, A, k) != {}
    ensures matched + settled == set k | k in A && (Exact(m, k) || SessionCands(m, A, k) != {})
  {
    hide Exact, SessionCands;
  }

  lemma PlanComplete(m: Table, A: map<Key, Agent>, exact: seq<Assignment>, session: seq<Assignment>,
                     fallback: seq<Assignment>, refused1: seq<Ambiguity>, refused2: seq<Ambiguity>)
    requires PassDone(m, A, ExactIdentity, exact, A.Keys)
    requires SessionDone(m, A, session, refused1, A.Keys)
    requires FallbackDone(m, A, fallback, refused2, A.Keys)
    ensures IsPlan(m, A, Plan(exact + session + fallback, refused1 + refused2))
  {
    hide String, ParseKey, Assigns, RefusesSession, RefusesFallback;
    var p := Plan(exact + session + fallback, refused1 + refused2);
    forall i, j | 0 <= i < j < |p.assignments| ensures p.assignments[i].to != p.assignments[j].to {
      var a, b := p.assignments[i], p.assignments[j];
      if a.to == b.to {
        AssignsOne(m, A, a.to, From(a), From(b), a.reason, b.reason);
      }
    }
    forall k, s, r | Assigns(m, A, k, s, r)
      ensures exists a <- p.assignments :: a.to == k && String(a.from) == s && a.reason == r
    {
      AssignedFrom(m, A, k, s, r);
      AssignsReason(m, A, k, s, r);
      var pass := if r.ExactIdentity? then exact else if r.SameSession? then session else fallback;
      var a :| a in pass && a.to == k && From(a) == s;
      assert a in p.assignments;
    }
    forall a | a in p.assignments
      ensures ParseKey(String(a.from)) == Some(a.from) && Assigns(m, A, a.to, String(a.from), a.reason)
    {
      var pass := if a in exact then exact else if a in session then session else fallback;
      assert a in pass;
    }
    forall k, n, r | Refuses(m, A, k, n, r) ensures Ambiguity(k, n, r) in p.ambiguous {
      RefusedIsLive(m, A, k, n, r);
    }
    forall x, y | x in refused1 && y in refused2 ensures x.live != y.live {
      if x.live == y.live {
        RefusedInOnePass(m, A, x.live, x.count, x.reason, y.count, y.reason);
      }
    }
  }

  lemma RefusedInOnePass(m: Table, A: map<Key, Agent>, k: Key, n: nat, r: Reason, n': nat, r': Reason)
    ensures !(RefusesSession(m, A, k, n, r) && RefusesFallback(m, A, k, n', r'))
  {
    hide Exact, FitsSession, FitsFallback, UsedExact, UsedSession;
  }

  // ---- its order ----

  /** By the agent that gets the entry, then by where the entry was. */
  predicate ListedBefore(a: Assignment, b: Assignment) {
    if To(a) != To(b) then Before(To(a), To(b)) else AtMost(From(a), From(b))
  }

  predicate NotedBefore(x: Ambiguity, y: Ambiguity) {
    AtMost(String(x.live), String(y.live))
  }

  ghost predicate PlanOrdered(p: Plan) {
    Sorted(p.assignments, ListedBefore) && Sorted(p.ambiguous, NotedBefore)
  }

  lemma PlanOrdersLinear()
    ensures Linear(ListedBefore) && Linear(NotedBefore)
  {
    hide String, Before;
    forall a: Assignment, b: Assignment, c: Assignment
      ensures ListedBefore(a, b) || ListedBefore(b, a)
      ensures ListedBefore(a, b) && ListedBefore(b, c) ==> ListedBefore(a, c)
    {
      BeforeTotal(To(a), To(b), To(c));
      BeforeTotal(From(a), From(b), From(c));
      BeforeTotal(To(b), To(a), To(a));
      BeforeTotal(To(a), To(c), To(b));
    }
    forall x: Ambiguity, y: Ambiguity, z: Ambiguity
      ensures NotedBefore(x, y) || NotedBefore(y, x)
      ensures NotedBefore(x, y) && NotedBefore(y, z) ==> NotedBefore(x, z)
    {
      BeforeTotal(String(x.live), String(y.live), String(z.live));
    }
  }

  /** The rules of a plan do not mention its order. */
  lemma PlanReordered(m: Table, A: map<Key, Agent>, p: Plan, q: Plan)
    requires IsPlan(m, A, p)
    requires multiset(q.assignments) == multiset(p.assignments) && multiset(q.ambiguous) == multiset(p.ambiguous)
    ensures IsPlan(m, A, q)
  {
    hide String, ParseKey, Assigns, Refuses;
    SameMembers(p.assignments, q.assignments);
    SameMembers(p.ambiguous, q.ambiguous);
    DistinctStays(p.assignments, q.assignments, (a: Assignment) => a.to);
    DistinctStays(p.ambiguous, q.ambiguous, (x: Ambiguity) => x.live);
  }

  method OrderPlan(m: Table, p: Plan, ghost A: map<Key, Agent>) returns (q: Plan)
    requires IsPlan(m, A, p)
    ensures IsPlan(m, A, q) && PlanOrdered(q)
  {
    hide IsPlan, Sorted, Linear;
    PlanOrdersLinear();
    var assignments := SortBy(p.assignments, ListedBefore);
    var ambiguous := SortBy(p.ambiguous, NotedBefore);
    q := Plan(assignments, ambiguous);
    PlanReordered(m, A, p, q);
  }

  /** byFrom indexes the assignments checked so far by their source. */
  ghost predicate Indexed(m: Table, p: seq<Assignment>, byFrom: map<Text, Assignment>) {
    && (forall a <- p :: From(a) in byFrom && byFrom[From(a)] == a)
    && (forall f <- byFrom :: byFrom[f] in p && From(byFrom[f]) == f && f in m)
    && (forall a <- p :: ParseKey(From(a)).Some? && ParseKey(To(a)).Some?)
    && (forall i, j | 0 <= i < j < |p| :: From(p[i]) != From(p[j]) && To(p[i]) != To(p[j]))
  }

  lemma NothingIndexed(m: Table)
    ensures Indexed(m, [], map[]) && Destinations([]) == {}
  {
  }

  lemma NotReadable(m: Table, plan: seq<Assignment>, i: nat)
    requires i < |plan|
    requires ParseKey(From(plan[i])).None? || ParseKey(To(plan[i])).None? || From(plan[i]) !in m
    ensures !Applicable(m, plan)
  {
    hide String, ParseKey;
    assert plan[i] in plan;
  }

  lemma NotTwice(m: Table, plan: seq<Assignment>, i: nat, byFrom: map<Text, Assignment>)
    requires i < |plan| && Indexed(m, plan[..i], byFrom)
    requires From(plan[i]) in byFrom || To(plan[i]) in Destinations(plan[..i])
    ensures !Applicable(m, plan)
  {
    hide String, ParseKey;
    var a :| a in plan[..i] && (From(a) == From(plan[i]) || To(a) == To(plan[i]));
    var j :| 0 <= j < i && plan[j] == a;
  }

  lemma NotFree(m: Table, plan: seq<Assignment>, byFrom: map<Text, Assignment>, f: Text)
    requires Indexed(m, plan, byFrom) && f in byFrom
    requires To(byFrom[f]) != f && To(byFrom[f]) in m
    requires To(byFrom[f]) in byFrom ==> To(byFrom[To(byFrom[f])]) == To(byFrom[f])
    ensures !Applicable(m, plan)
  {
    hide String, ParseKey;
    var a := byFrom[f];
    forall b | b in plan && From(b) == To(a) ensures To(b) == To(a) {
      assert byFrom[From(b)] == b;
    }
    assert !Moves(plan, To(a));
  }

  lemma IndexedApplicable(m: Table, plan: seq<Assignment>, byFrom: map<Text, Assignment>)
    requires Indexed(m, plan, byFrom)
    requires forall f <- byFrom ::
               || To(byFrom[f]) == f || To(byFrom[f]) !in m
               || (To(byFrom[f]) in byFrom && To(byFrom[To(byFrom[f])]) != To(byFrom[f]))
    ensures Applicable(m, plan)
  {
    hide String, ParseKey;
    forall a | a in plan ensures From(a) == To(a) || To(a) !in m || Moves(plan, To(a)) {
      if From(a) != To(a) && To(a) in m {
        assert byFrom[From(a)] == a;
        var b := byFrom[To(a)];
        assert b in plan;
      }
    }
  }

  /** A destination still to be filled is neither kept nor already filled. */
  lemma MoveIsFree(m: Table, plan: seq<Assignment>, byFrom: map<Text, Assignment>, f: Text, done: set<Text>)
    requires Applicable(m, plan) && Indexed(m, plan, byFrom)
    requires f in byFrom && To(byFrom[f]) != f && f !in done && done <= byFrom.Keys
    ensures To(byFrom[f]) in m ==> To(byFrom[f]) in byFrom && To(byFrom[To(byFrom[f])]) != To(byFrom[f])
    ensures f in m && To(byFrom[f]) !in Filled(byFrom, done)
  {
    hide String, ParseKey;
    var a := byFrom[f];
    var i :| 0 <= i < |plan| && plan[i] == a;
    forall g | g in done ensures To(byFrom[g]) != To(a) {
      var j :| 0 <= j < |plan| && plan[j] == byFrom[g];
    }
    if To(a) in m {
      var b :| b in plan && From(b) == To(a) && To(b) != To(a);
      assert byFrom[From(b)] == b;
    }
  }

  lemma IndexedSource(m: Table, plan: seq<Assignment>, byFrom: map<Text, Assignment>, f: Text)
    requires Indexed(m, plan, byFrom) && f in byFrom
    ensures f in m
  {
  }

  lemma IndexedDestination(m: Table, plan: seq<Assignment>, byFrom: map<Text, Assignment>, s: Text)
    requires Applicable(m, plan) && Indexed(m, plan, byFrom)
    ensures Destination(plan, s) == if s in byFrom then To(byFrom[s]) else s
  {
    hide String, ParseKey, Applicable, Destination;
    if s in byFrom {
      DestinationOf(m, plan, byFrom[s]);
    } else {
      assert forall a <- plan :: From(a) != s;
    }
  }

  lemma IndexedMoved(m: Table, plan: seq<Assignment>, byFrom: map<Text, Assignment>, vacated: set<Text>, next: Table)
    requires Applicable(m, plan) && Indexed(m, plan, byFrom)
    requires vacated == set f | f in byFrom && To(byFrom[f]) != f
    requires next.Keys == (m.Keys - vacated) + Filled(byFrom, byFrom.Keys)
    requires forall t <- m.Keys - vacated :: next[t] == m[t]
    requires forall f | f in byFrom && To(byFrom[f]) != f :: next[To(byFrom[f])] == m[f]
    ensures IsMoved(m, plan, next)
  {
    hide String, ParseKey, Applicable, Destination, Indexed;
    forall s | s in m
      ensures Destination(plan, s) == if s in byFrom then To(byFrom[s]) else s
    {
      IndexedDestination(m, plan, byFrom, s);
    }
    forall f | f in byFrom ensures f in m {
      IndexedSource(m, plan, byFrom, f);
    }
    forall t | t in next ensures exists s <- m :: Destination(plan, s) == t {
      if t in m && t !in vacated {
        assert Destination(plan, t) == t;
      } else {
        var f :| f in byFrom && f in vacated && To(byFrom[f]) == t;
        assert f in m && Destination(plan, f) == t;
      }
    }
  }

  datatype ApplyError =
    | InvalidSource
    | InvalidDestination
    | SourceTwice
    | DestinationTwice
    | SourceMissing
    | Occupied

  lemma IndexedAdd(m: Table, p: seq<Assignment>, byFrom: map<Text, Assignment>, a: Assignment)
    requires Indexed(m, p, byFrom)
    requires ParseKey(From(a)).Some? && ParseKey(To(a)).Some? && From(a) in m
    requires From(a) !in byFrom && To(a) !in Destinations(p)
    ensures Indexed(m, p + [a], byFrom[From(a) := a])
  {
    hide String, ParseKey;
    assert forall b <- p :: From(b) != From(a) && To(b) != To(a);
  }

  ghost function Destinations(p: seq<Assignment>): set<Text> {
    set a | a in p :: To(a)
  }

  lemma DestinationsAdd(p: seq<Assignment>, a: Assignment)
    ensures Destinations(p + [a]) == Destinations(p) + {To(a)}
  {
    hide String;
  }

  /** The plan applied to a table, or the reason why it cannot be. */
  method ApplyPlan(m: Table, plan: seq<Assignment>) returns (err: Option<ApplyError>, next: Table)
    ensures err.None? <==> Applicable(m, plan)
    ensures err.None? ==> IsMoved(m, plan, next)
  {
    hide String, ParseKey, Indexed, Destinations, Applicable;
    next := m;
    var byFrom: map<Text, Assignment>, destinations: set<Text>, vacated: set<Text> := map[], {}, {};
    NothingIndexed(m);
    for i := 0 to |plan|
      invariant Indexed(m, plan[..i], byFrom)
      invariant destinations == Destinations(plan[..i])
      invariant vacated == set f | f in byFrom && To(byFrom[f]) != f
    {
      var a := plan[i];
      var f, t := From(a), To(a);
      assert plan[..i + 1] == plan[..i] + [a];
      if ParseKey(f).None? {
        NotReadable(m, plan, i);
        return Some(InvalidSource), m;
      }
      if ParseKey(t).None? {
        NotReadable(m, plan, i);
        return Some(InvalidDestination), m;
      }
      if f in byFrom {
        NotTwice(m, plan, i, byFrom);
        return Some(SourceTwice), m;
      }
      if t in destinations {
        NotTwice(m, plan, i, byFrom);
        return Some(DestinationTwice), m;
      }
      if f !in m {
        NotReadable(m, plan, i);
        return Some(SourceMissing), m;
      }
      IndexedAdd(m, plan[..i], byFrom, a);
      DestinationsAdd(plan[..i], a);
      byFrom, destinations := byFrom[f := a], destinations + {t};
      if f != t {
        vacated := vacated + {f};
      }
    }
    assert plan[..|plan|] == plan;
    var rest := byFrom.Keys;
    while rest != {}
      invariant rest <= byFrom.Keys
      invariant forall f | f in byFrom && f !in rest :: To(byFrom[f]) == f || To(byFrom[f]) !in m || To(byFrom[f]) in vacated
      decreases rest
    {
      var f :| f in rest;
      var t := To(byFrom[f]);
      if !(f == t || t !in m || t in vacated) {
        NotFree(m, plan, byFrom, f);
        return Some(Occupied), m;
      }
      rest := rest - {f};
    }
    IndexedApplicable(m, plan, byFrom);
    err := None;
    next := CarryOut(m, plan, byFrom, vacated);
  }

  ghost function Filled(byFrom: map<Text, Assignment>, done: set<Text>): set<Text> {
    set f | f in done && f in byFrom && To(byFrom[f]) != f :: To(byFrom[f])
  }

  /** The moves of an applicable plan, in any order: a destination is never
      found occupied half-way. */
  method CarryOut(m: Table, ghost plan: seq<Assignment>, byFrom: map<Text, Assignment>, vacated: set<Text>)
    returns (next: Table)
    requires Applicable(m, plan) && Indexed(m, plan, byFrom)
    requires vacated == set f | f in byFrom && To(byFrom[f]) != f
    ensures IsMoved(m, plan, next)
  {
    hide String, ParseKey, Applicable, Indexed;
    next := m - vacated;
    var rest := byFrom.Keys;
    ghost var done: set<Text> := {};
    while rest != {}
      invariant rest + done == byFrom.Keys && rest !! done
      invariant next.Keys == (m.Keys - vacated) + Filled(byFrom, done)
      invariant forall t <- m.Keys - vacated :: next[t] == m[t]
      invariant forall f | f in done && To(byFrom[f]) != f :: f in m && next[To(byFrom[f])] == m[f]
      decreases rest
    {
      var f :| f in rest;
      var t := To(byFrom[f]);
      if f != t {
        MoveIsFree(m, plan, byFrom, f, done);
        // The program checks once more that the destination is free: it is.
        assert t !in next;
        next := next[t := m[f]];
      }
      rest, done := rest - {f}, done + {f};
    }
    assert done == byFrom.Keys;
    IndexedMoved(m, plan, byFrom, vacated, next);
  }
}
