/** What a reassociation plan promises and what applying any plan does. */
module Reassociation {
  import opened Keys
  import opened Topics

  // ---- applying a plan ----

  function From(a: Assignment): Text { String(a.from) }
  function To(a: Assignment): Text { String(a.to) }

  ghost predicate Moves(p: seq<Assignment>, s: Text) {
    exists a <- p :: From(a) == s && To(a) != s
  }

  /** Every text form is readable, no source or destination is named twice,
      every source exists and every destination is free or being vacated. */
  ghost predicate Applicable(m: Table, p: seq<Assignment>) {
    && (forall a <- p :: ParseKey(From(a)).Some? && ParseKey(To(a)).Some? && From(a) in m)
    && (forall i, j | 0 <= i < j < |p| :: From(p[i]) != From(p[j]) && To(p[i]) != To(p[j]))
    && (forall a <- p :: From(a) == To(a) || To(a) !in m || Moves(p, To(a)))
  }

  /** Where the entry stored under s ends up. */
  ghost function Destination(p: seq<Assignment>, s: Text): (t: Text)
    ensures (forall a <- p :: From(a) != s) ==> t == s
  {
    if exists a <- p :: From(a) == s then
      var a :| a in p && From(a) == s;
      To(a)
    else s
  }

  /** All moves at once: m re-keyed by Destination. */
  ghost predicate IsMoved(m: Table, p: seq<Assignment>, m': Table) {
    && (forall s <- m :: Destination(p, s) in m' && m'[Destination(p, s)] == m[s])
    && (forall t <- m' :: exists s <- m :: Destination(p, s) == t)
  }

  lemma DestinationOf(m: Table, p: seq<Assignment>, a: Assignment)
    requires Applicable(m, p) && a in p
    ensures Destination(p, From(a)) == To(a)
  {
    var b :| b in p && From(b) == From(a) && Destination(p, From(a)) == To(b);
    var i :| 0 <= i < |p| && p[i] == a;
    var j :| 0 <= j < |p| && p[j] == b;
    assert i == j;
  }

  /** Re-keying by an applicable plan never merges two entries, whatever
      swaps or longer cycles of keys it contains. */
  lemma DestinationInjective(m: Table, p: seq<Assignment>, s: Text, t: Text)
    requires Applicable(m, p) && s in m && t in m && s != t
    ensures Destination(p, s) != Destination(p, t)
  {
    hide String, ParseKey;
    if a :| a in p && From(a) == s {
      DestinationOf(m, p, a);
      var i :| 0 <= i < |p| && p[i] == a;
      if b :| b in p && From(b) == t {
        DestinationOf(m, p, b);
        var j :| 0 <= j < |p| && p[j] == b;
        assert To(p[i]) != To(p[j]);
      } else {
        assert !Moves(p, t);
      }
    } else if b :| b in p && From(b) == t {
      DestinationOf(m, p, b);
      assert !Moves(p, s);
    }
  }

  /** The moved table is determined by the plan: the order in which the moves
      are carried out cannot matter. */
  lemma MovedUnique(m: Table, p: seq<Assignment>, m1: Table, m2: Table)
    requires IsMoved(m, p, m1) && IsMoved(m, p, m2)
    ensures m1 == m2
  {
    assert forall t <- m1 :: t in m2 && m1[t] == m2[t];
    assert forall t <- m2 :: t in m1;
  }

  ghost function Threads(m: Table): set<int> {
    set s | s in m :: m[s].thread
  }

  ghost function Items(m: Table, keys: set<Text>): multiset<TopicEntry>
    requires keys <= m.Keys
  {
    if keys == {} then multiset{}
    else
      var s :| s in keys;
      Items(m, keys - {s}) + multiset{m[s]}
  }

  lemma {:induction false} ItemsRemove(m: Table, keys: set<Text>, s: Text)
    requires keys <= m.Keys && s in keys
    ensures Items(m, keys) == Items(m, keys - {s}) + multiset{m[s]}
  {
    var t :| t in keys && Items(m, keys) == Items(m, keys - {t}) + multiset{m[t]};
    if t != s {
      ItemsRemove(m, keys - {t}, s);
      ItemsRemove(m, keys - {s}, t);
      assert keys - {t} - {s} == keys - {s} - {t};
    }
  }

  lemma {:induction false} MovedItems(m: Table, p: seq<Assignment>, m': Table, keys: set<Text>, keys': set<Text>)
    requires Applicable(m, p) && IsMoved(m, p, m') && keys <= m.Keys
    requires keys' == set s | s in keys :: Destination(p, s)
    ensures keys' <= m'.Keys && Items(m', keys') == Items(m, keys)
  {
    hide String, ParseKey, Applicable, Destination;
    if keys != {} {
      var s :| s in keys;
      var t := Destination(p, s);
      forall r | r in keys - {s} ensures Destination(p, r) != t {
        DestinationInjective(m, p, r, s);
      }
      assert keys' - {t} == set r | r in keys - {s} :: Destination(p, r);
      MovedItems(m, p, m', keys - {s}, keys' - {t});
      ItemsRemove(m, keys, s);
      ItemsRemove(m', keys', t);
    } else {
      assert keys' == {};
    }
  }

  /** Applying any applicable plan loses no entry and duplicates none, and the
      set of linked threads stays the same. */
  lemma MovedConserves(m: Table, p: seq<Assignment>, m': Table)
    requires Applicable(m, p) && IsMoved(m, p, m')
    ensures Items(m', m'.Keys) == Items(m, m.Keys)
    ensures |m'| == |m|
    ensures Threads(m') == Threads(m)
  {
    hide String, ParseKey, Applicable, Destination, Items;
    assert m'.Keys == set s | s in m.Keys :: Destination(p, s);
    MovedItems(m, p, m', m.Keys, m'.Keys);
    ItemsSize(m, m.Keys);
    ItemsSize(m', m'.Keys);
    forall s | s in m ensures m[s].thread in Threads(m') {
      assert m'[Destination(p, s)].thread == m[s].thread;
    }
    forall t | t in m' ensures m'[t].thread in Threads(m) {
      var s :| s in m && Destination(p, s) == t;
    }
  }

  lemma {:induction false} ItemsSize(m: Table, keys: set<Text>)
    requires keys <= m.Keys
    ensures |Items(m, keys)| == |keys|
  {
    if keys != {} {
      var s :| s in keys && Items(m, keys) == Items(m, keys - {s}) + multiset{m[s]};
      ItemsSize(m, keys - {s});
    }
  }

  // ---- the plan ----

  ghost predicate AllWellFormed(A: map<Key, Agent>) {
    forall k <- A :: WellFormed(k)
  }

  lemma ExactMeansSame(m: Table, k: Key)
    requires Exact(m, k)
    ensures ParseKey(String(k)) == Some(k) && WellFormed(k)
  {
    IdentifiedIsSame(k);
    ParseString(k);
  }

  /** For a well-formed live key, an exact match is a matter of storage alone. */
  lemma ExactIffStored(m: Table, k: Key)
    requires WellFormed(k)
    ensures Exact(m, k) <==> String(k) in m
  {
    ParseString(k);
  }

  lemma AssignedFrom(m: Table, A: map<Key, Agent>, k: Key, s: Text, r: Reason)
    requires Assigns(m, A, k, s, r)
    ensures k in A && Readable(m, s) && k.Usable() && String(StoredKey(s)) == s
    ensures r != ExactIdentity ==> !Exact(m, k)
  {
    match r {
      case ExactIdentity =>
      case SameSession => assert s in SessionCands(m, A, k);
      case Fallback => assert s in FallbackCands(m, A, k);
    }
    StringParse(s);
  }

  /** Two agents never get the same entry. */
  lemma AssignsOnce(m: Table, A: map<Key, Agent>, k1: Key, k2: Key, s: Text, r1: Reason, r2: Reason)
    requires Assigns(m, A, k1, s, r1) && Assigns(m, A, k2, s, r2)
    ensures k1 == k2 && r1 == r2
  {
    AssignedFrom(m, A, k1, s, r1);
    AssignedFrom(m, A, k2, s, r2);
    if r1.ExactIdentity? {
      ExactMeansSame(m, k1);
      assert s in UsedExact(m, A);
    }
    if r2.ExactIdentity? {
      ExactMeansSame(m, k2);
      assert s in UsedExact(m, A);
    }
    if r1.SameSession? {
      assert k1 in SessionOwners(m, A, s) && SessionTaken(m, A, s);
    }
    if r2.SameSession? {
      assert k2 in SessionOwners(m, A, s) && SessionTaken(m, A, s);
    }
    if r1.Fallback? {
      assert s in FallbackCands(m, A, k1) && k1 in FallbackOwners(m, A, s);
    }
    if r2.Fallback? {
      assert s in FallbackCands(m, A, k2) && k2 in FallbackOwners(m, A, s);
    }
  }

  /** One agent never gets two entries. */
  lemma AssignsOne(m: Table, A: map<Key, Agent>, k: Key, s1: Text, s2: Text, r1: Reason, r2: Reason)
    requires Assigns(m, A, k, s1, r1) && Assigns(m, A, k, s2, r2)
    ensures s1 == s2 && r1 == r2
  {
    hide String, ParseKey, Exact;
    AssignedFrom(m, A, k, s1, r1);
    AssignedFrom(m, A, k, s2, r2);
    if r1.Fallback? {
      assert s1 in FallbackCands(m, A, k);
    }
    if r2.Fallback? {
      assert s2 in FallbackCands(m, A, k);
    }
  }

  lemma AgentsDistinct(m: Table, A: map<Key, Agent>, p: Plan, i: int, j: int)
    requires IsPlan(m, A, p) && AllWellFormed(A) && 0 <= i < j < |p.assignments|
    ensures From(p.assignments[i]) != From(p.assignments[j])
    ensures To(p.assignments[i]) != To(p.assignments[j])
  {
    var a, b := p.assignments[i], p.assignments[j];
    if From(a) == From(b) {
      AssignsOnce(m, A, a.to, b.to, From(a), a.reason, b.reason);
    }
    AssignedFrom(m, A, a.to, From(a), a.reason);
    AssignedFrom(m, A, b.to, From(b), b.reason);
    if To(a) == To(b) {
      StringInjective(a.to, b.to);
    }
  }

  /** A plan for a snapshot of well-formed keys is always accepted. */
  lemma PlanApplicable(m: Table, A: map<Key, Agent>, p: Plan)
    requires IsPlan(m, A, p) && AllWellFormed(A)
    ensures Applicable(m, p.assignments)
  {
    forall i, j | 0 <= i < j < |p.assignments|
      ensures From(p.assignments[i]) != From(p.assignments[j])
      ensures To(p.assignments[i]) != To(p.assignments[j])
    {
      AgentsDistinct(m, A, p, i, j);
    }
    forall a | a in p.assignments
      ensures ParseKey(From(a)).Some? && ParseKey(To(a)).Some? && From(a) in m
      ensures From(a) == To(a) || To(a) !in m
    {
      AssignedFrom(m, A, a.to, From(a), a.reason);
      ParseString(a.to);
      ExactIffStored(m, a.to);
    }
  }

  lemma MovedToExact(m: Table, p: seq<Assignment>, m': Table, a: Assignment)
    requires Applicable(m, p) && IsMoved(m, p, m') && a in p && WellFormed(a.to)
    ensures Exact(m', a.to) && From(a) in m && To(a) in m' && m'[To(a)] == m[From(a)]
  {
    hide String, ParseKey, Destination, Exact, WellFormed;
    DestinationOf(m, p, a);
    ExactIffStored(m', a.to);
  }

  /** Every agent the plan assigns is an exact match once the plan is applied. */
  lemma AssignedBecomesExact(m: Table, A: map<Key, Agent>, p: Plan, m': Table, a: Assignment)
    requires IsPlan(m, A, p) && AllWellFormed(A) && IsMoved(m, p.assignments, m') && a in p.assignments
    ensures Assigns(m', A, a.to, String(a.to), ExactIdentity)
    ensures From(a) in m && To(a) in m' && m'[To(a)] == m[From(a)]
  {
    hide String, ParseKey, Applicable, Exact, IsMoved, WellFormed;
    PlanApplicable(m, A, p);
    AssignedFrom(m, A, a.to, From(a), a.reason);
    MovedToExact(m, p.assignments, m', a);
  }

  /** No assignment joins a stored key to a live key of another known session. */
  lemma NoConflict(m: Table, A: map<Key, Agent>, k: Key, s: Text, r: Reason)
    requires (forall k <- A :: A[k].key == k)
    requires Assigns(m, A, k, s, r)
    ensures ParseKey(s).Some? && StoredKey(s).pane == k.pane
    ensures StoredKey(s).digest == [] || k.digest == [] || StoredKey(s).digest == k.digest
  {
    hide String, ParseKey;
    AssignedFrom(m, A, k, s, r);
    match r {
      case ExactIdentity => ExactMeansSame(m, k);
      case SameSession => assert s in SessionCands(m, A, k);
      case Fallback => assert s in FallbackCands(m, A, k);
    }
  }

  ghost predicate LookAlike(a: Agent, b: Agent) {
    a.key.pane == b.key.pane && a.cwd == b.cwd && a.kind == b.kind && DesiredName(a) == DesiredName(b)
  }

  /** Of live agents that metadata cannot tell apart, at most one is matched
      by metadata. */
  lemma OneFallbackPerLookAlike(m: Table, A: map<Key, Agent>, k1: Key, k2: Key, s1: Text, s2: Text)
    requires (forall k <- A :: A[k].key == k)
    requires FallbackTakes(m, A, k1, s1) && FallbackTakes(m, A, k2, s2)
    requires LookAlike(A[k1], A[k2])
    ensures k1 == k2
  {
    assert s1 in FallbackCands(m, A, k1) && s2 in FallbackCands(m, A, k2);
    if k2.digest == [] || k1.digest != [] {
      // everything k1 could take, k2 could take too
      assert s1 in FallbackCands(m, A, k2);
      assert k2 in FallbackOwners(m, A, s1);
    } else {
      assert s2 in FallbackCands(m, A, k1);
      assert k1 in FallbackOwners(m, A, s2);
    }
  }

  // ---- the metadata rule, field by field ----

  /** Whom the rule lets in: the same pane, one side at least without a session, and
      directory, kind and name as recorded, as far as they were. */
  lemma FallbackCandidate(m: Table, A: map<Key, Agent>, k: Key, s: Text)
    requires k in A && A[k].key == k && k.pane != [] && k.terminal != []
    requires !Exact(m, k) && SessionCands(m, A, k) == {}
    ensures s in FallbackCands(m, A, k) <==>
      && s in m && ParseKey(s).Some? && s !in UsedSession(m, A)
      && var stored, e, a := StoredKey(s), m[s], A[k];
      && stored.pane == k.pane && (stored.digest == [] || k.digest == [])
      && a.cwd != "" && (e.cwd == a.cwd || (e.cwd == "" && e.legacyNoCwd))
      && (e.kind == "" || e.kind == a.kind)
      && StripPrefix(e.name) == (if |a.caption| <= 128 then a.caption else a.caption[..128])
  {
    hide String, ParseKey, StripPrefix;
  }

  /** An assignment by metadata joins an entry and an agent that agree in all that
      is known of both. */
  lemma FallbackAgrees(m: Table, A: map<Key, Agent>, k: Key, s: Text)
    requires (forall j <- A :: A[j].key == j) && Assigns(m, A, k, s, Fallback)
    ensures k in A && s in m && ParseKey(s).Some?
    ensures var stored, e, a := StoredKey(s), m[s], A[k];
      && stored.pane == k.pane && (stored.digest == [] || k.digest == [])
      && a.cwd != "" && (e.cwd == a.cwd || (e.cwd == "" && e.legacyNoCwd))
      && (e.kind == "" || e.kind == a.kind)
      && StripPrefix(e.name) == (if |a.caption| <= 128 then a.caption else a.caption[..128])
  {
    hide String, ParseKey, StripPrefix;
    assert s in FallbackCands(m, A, k);
  }

  /** One agent and one entry of another run: who takes what, in terms of what is
      stored and reported. */
  lemma OneToOne(s: Text, e: TopicEntry, a: Agent)
    requires ParseKey(s).Some? && s != String(a.key) && a.key.pane != [] && a.key.terminal != []
    ensures var m, A, stored := map[s := e], map[a.key := a], StoredKey(s);
      && (Assigns(m, A, a.key, s, SameSession) <==>
            stored.pane == a.key.pane && stored.digest != [] && stored.digest == a.key.digest)
      && (Assigns(m, A, a.key, s, Fallback) <==>
            && stored.pane == a.key.pane && (stored.digest == [] || a.key.digest == [])
            && a.cwd != "" && (e.cwd == a.cwd || (e.cwd == "" && e.legacyNoCwd))
            && (e.kind == "" || e.kind == a.kind)
            && StripPrefix(e.name) == (if |a.caption| <= 128 then a.caption else a.caption[..128]))
      && !Assigns(m, A, a.key, s, ExactIdentity)
  {
    var m, A, stored := map[s := e], map[a.key := a], StoredKey(s);
    assert !Exact(m, a.key);
    hide String, ParseKey, StripPrefix, EligibleFallback;
    assert UsedExact(m, A) == {};
    var session := stored.pane == a.key.pane && stored.digest != [] && stored.digest == a.key.digest;
    OnlyOne(m, A, a.key, s);
    assert SessionCands(m, A, a.key) == if session then {s} else {};
    if !session {
      assert UsedSession(m, A) == {};
      FallbackCandidate(m, A, a.key, s);
    }
  }

  lemma OnlyOne(m: Table, A: map<Key, Agent>, k: Key, s: Text)
    requires m.Keys == {s} && A.Keys == {k}
    ensures SessionCands(m, A, k) == {} || SessionCands(m, A, k) == {s}
    ensures FallbackCands(m, A, k) == {} || FallbackCands(m, A, k) == {s}
    ensures s in SessionCands(m, A, k) ==> SessionOwners(m, A, s) == {k}
    ensures s in FallbackCands(m, A, k) ==> FallbackOwners(m, A, s) == {k}
    ensures SessionCands(m, A, k) == {} ==> forall x :: !SessionTaken(m, A, x)
  {
    hide String, ParseKey, FitsFallback, FitsSession, UsedExact, UsedSession;
  }

  predicate Blank(c: char) {
    c == ' ' || c == '\t'
  }

  ghost predicate AllBlank(s: string) {
    forall c <- s :: Blank(c)
  }

  lemma {:induction false} Trimmed(blanks: string, rest: string)
    requires AllBlank(blanks) && (rest == [] || !Blank(rest[0]))
    ensures TrimBlanks(blanks + rest) == rest
  {
    if blanks == [] {
      assert blanks + rest == rest;
    } else {
      assert blanks[0] in blanks && Blank(blanks[0]);
      assert forall c <- blanks[1..] :: c in blanks;
      Trimmed(blanks[1..], rest);
      assert (blanks + rest)[1..] == blanks[1..] + rest;
    }
  }

  lemma {:induction false} FirstStripped(name: string, prefixes: seq<string>, i: nat)
    requires i < |prefixes| && prefixes[i] <= name && forall j | 0 <= j < i :: !(prefixes[j] <= name)
    ensures StripFirst(name, prefixes) == TrimBlanks(name[|prefixes[i]|..])
  {
    if i > 0 {
      assert !(prefixes[0] <= name);
      FirstStripped(name, prefixes[1..], i - 1);
    }
  }

  lemma {:induction false} NoneStripped(name: string, prefixes: seq<string>)
    requires forall p <- prefixes :: !(p <= name)
    ensures StripFirst(name, prefixes) == name
  {
    if prefixes != [] {
      assert prefixes[0] in prefixes && forall p <- prefixes[1..] :: p in prefixes;
      NoneStripped(name, prefixes[1..]);
    }
  }

  /** What a stored name is compared by: the name without a leading status marker of
      older versions and without the blanks after it. */
  lemma MarkerStripped(marker: string, blanks: string, rest: string)
    requires marker in ["\U{2699}\U{FE0F}", "\U{1F4A4}", "\U{2753}", "\U{2705}", "\U{2754}", "\U{1F3C1}"]
    requires AllBlank(blanks) && (rest == [] || !Blank(rest[0]))
    ensures StripPrefix(marker + blanks + rest) == rest
  {
    var name := marker + blanks + rest;
    var i :| 0 <= i < 6 && LEGACY_PREFIXES[i] == marker;
    assert name[0] == marker[0];
    FirstStripped(name, LEGACY_PREFIXES, i);
    assert name[|marker|..] == blanks + rest;
    Trimmed(blanks, rest);
  }

  /** Any other name is compared as it is. */
  lemma OthersKept(name: string)
    requires forall p <- ["\U{2699}\U{FE0F}", "\U{1F4A4}", "\U{2753}", "\U{2705}", "\U{2754}", "\U{1F3C1}"] :: !(p <= name)
    ensures StripPrefix(name) == name
  {
    NoneStripped(name, LEGACY_PREFIXES);
  }
}
