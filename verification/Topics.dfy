/** Topic entries, live agents and the declarative meaning of reassociation:
    which stored topic entry a live agent may take over. */
module Topics {
  import opened Keys

  datatype Status = Working | Idle | Blocked | Done | Unknown | Exited {
    predicate Live() {
      this != Exited
    }
  }

  datatype TopicEntry = TopicEntry(
    thread: int,
    name: string,
    status: Status,
    closed: bool,
    muted: bool,
    cwd: string,
    kind: string,
    legacyNoCwd: bool,
    updatedAt: int)

  datatype Agent = Agent(key: Key, caption: string, status: Status, kind: string, cwd: string)

  type Table = map<Text, TopicEntry>

  // ---- names ----

  const MAX_NAME := 128

  /** The topic name an agent should have: its label, clamped to Telegram's limit. */
  function DesiredName(a: Agent): (name: string) {
    if |a.caption| <= MAX_NAME then a.caption else a.caption[..MAX_NAME]
  }

  const LEGACY_PREFIXES: seq<string> :=
    ["\U{2699}\U{FE0F}", "\U{1F4A4}", "\U{2753}", "\U{2705}", "\U{2754}", "\U{1F3C1}"]

  function TrimBlanks(s: string): string {
    if s != [] && (s[0] == ' ' || s[0] == '\t') then TrimBlanks(s[1..]) else s
  }

  function StripPrefix(name: string): string {
    StripFirst(name, LEGACY_PREFIXES)
  }

  function StripFirst(name: string, prefixes: seq<string>): string {
    if prefixes == [] then name
    else if prefixes[0] <= name then TrimBlanks(name[|prefixes[0]|..])
    else StripFirst(name, prefixes[1..])
  }

  // ---- who may take which entry ----

  datatype Reason =
    | ExactIdentity
    | SameSession
    | Fallback
    | AmbiguousSession
    | AmbiguousFallback
    | ManyToOne

  datatype Assignment = Assignment(from: Key, to: Key, reason: Reason)
  datatype Ambiguity = Ambiguity(live: Key, count: nat, reason: Reason)
  datatype Plan = Plan(assignments: seq<Assignment>, ambiguous: seq<Ambiguity>)

  /** Of several agents with one key, the first counts. */
  function ByKey(live: seq<Agent>): (m: map<Key, Agent>)
    ensures forall k <- m :: m[k].key == k && m[k] in live
    ensures forall a <- live :: a.key in m
  {
    if live == [] then map[]
    else
      var m, a := ByKey(live[..|live| - 1]), live[|live| - 1];
      assert live == live[..|live| - 1] + [a];
      if a.key in m then m else m[a.key := a]
  }

  predicate Exact(m: Table, k: Key) {
    k.Usable() && String(k) in m && ParseKey(String(k)).Some? && ParseKey(String(k)).value.SameIdentity(k)
  }

  /** The stored keys that can be read back; the others are never matched. */
  ghost predicate Readable(m: Table, s: Text) {
    s in m && ParseKey(s).Some?
  }

  ghost function ReadableKeys(m: Table): set<Text> {
    set s | s in m && Readable(m, s)
  }

  function StoredKey(s: Text): Key
    requires ParseKey(s).Some?
  {
    ParseKey(s).value
  }

  predicate EligibleFallback(stored: Key, e: TopicEntry, a: Agent) {
    && stored.pane == a.key.pane
    && !stored.ConflictsWith(a.key)
    && (stored.digest == [] || a.key.digest == [])
    && a.cwd != ""
    && (e.cwd != "" || e.legacyNoCwd)
    && (e.cwd == "" || e.cwd == a.cwd)
    && (e.kind == "" || e.kind == a.kind)
    && StripPrefix(e.name) == DesiredName(a)
  }

  ghost function UsedExact(m: Table, A: map<Key, Agent>): set<Text> {
    set k | k in A && Exact(m, k) :: String(k)
  }

  ghost predicate FitsSession(m: Table, used: set<Text>, k: Key, s: Text) {
    Readable(m, s) && s !in used && StoredKey(s).SameSession(k)
  }

  ghost predicate FitsFallback(m: Table, used: set<Text>, a: Agent, s: Text) {
    Readable(m, s) && s !in used && EligibleFallback(StoredKey(s), m[s], a)
  }

  ghost function SessionCands(m: Table, A: map<Key, Agent>, k: Key): set<Text> {
    if !k.Usable() || Exact(m, k) then {}
    else set s | s in m && FitsSession(m, UsedExact(m, A), k, s)
  }

  ghost function SessionOwners(m: Table, A: map<Key, Agent>, s: Text): set<Key> {
    set k | k in A && s in SessionCands(m, A, k)
  }

  ghost predicate SessionTakes(m: Table, A: map<Key, Agent>, k: Key, s: Text) {
    k in A && SessionCands(m, A, k) == {s} && SessionOwners(m, A, s) == {k}
  }

  ghost predicate SessionTaken(m: Table, A: map<Key, Agent>, s: Text) {
    exists k :: SessionTakes(m, A, k, s)
  }

  ghost function UsedSession(m: Table, A: map<Key, Agent>): set<Text> {
    UsedExact(m, A) + set s | s in m && SessionTaken(m, A, s)
  }

  ghost function FallbackCands(m: Table, A: map<Key, Agent>, k: Key): set<Text> {
    if k !in A || !k.Usable() || Exact(m, k) || SessionCands(m, A, k) != {} then {}
    else set s | s in m && FitsFallback(m, UsedSession(m, A), A[k], s)
  }

  ghost function FallbackOwners(m: Table, A: map<Key, Agent>, s: Text): set<Key> {
    set k | k in A && s in FallbackCands(m, A, k)
  }

  ghost function LiveOnes(m: Table, cands: set<Text>): set<Text> {
    set s | s in cands && s in m && m[s].status.Live()
  }

  /** A single live candidate wins over finished ones. */
  ghost predicate Selects(m: Table, cands: set<Text>, s: Text) {
    LiveOnes(m, cands) == {s} || cands == {s}
  }

  ghost predicate FallbackTakes(m: Table, A: map<Key, Agent>, k: Key, s: Text) {
    k in A && Selects(m, FallbackCands(m, A, k), s) && FallbackOwners(m, A, s) == {k}
  }

  /** Live agent k takes over the entry stored under s. */
  ghost predicate Assigns(m: Table, A: map<Key, Agent>, k: Key, s: Text, r: Reason) {
    match r
    case ExactIdentity => k in A && Exact(m, k) && s == String(k)
    case SameSession => SessionTakes(m, A, k, s)
    case Fallback => FallbackTakes(m, A, k, s)
    case _ => false
  }

  /** The session candidates of live agent k leave it without an entry. */
  ghost predicate RefusesSession(m: Table, A: map<Key, Agent>, k: Key, count: nat, r: Reason) {
    var cands := SessionCands(m, A, k);
    && k in A
    && cands != {}
    && if |cands| != 1 then r == AmbiguousSession && count == |cands|
       else r == ManyToOne && exists s :: cands == {s} && count == |SessionOwners(m, A, s)| && count > 1
  }

  /** The metadata candidates of live agent k leave it without an entry. */
  ghost predicate RefusesFallback(m: Table, A: map<Key, Agent>, k: Key, count: nat, r: Reason) {
    var cands := FallbackCands(m, A, k);
    && k in A
    && cands != {}
    && if forall s :: !Selects(m, cands, s) then r == AmbiguousFallback && count == |cands|
       else r == ManyToOne && exists s :: Selects(m, cands, s) && count == |FallbackOwners(m, A, s)| && count > 1
  }

  ghost predicate Refuses(m: Table, A: map<Key, Agent>, k: Key, count: nat, r: Reason) {
    RefusesSession(m, A, k, count, r) || RefusesFallback(m, A, k, count, r)
  }

  /** A plan is exactly what the rules above say, each agent at most once. */
  ghost predicate IsPlan(m: Table, A: map<Key, Agent>, p: Plan) {
    && (forall a <- p.assignments ::
          ParseKey(String(a.from)) == Some(a.from) && Assigns(m, A, a.to, String(a.from), a.reason))
    && (forall k, s, r | Assigns(m, A, k, s, r) ::
          exists a <- p.assignments :: a.to == k && String(a.from) == s && a.reason == r)
    && (forall i, j | 0 <= i < j < |p.assignments| :: p.assignments[i].to != p.assignments[j].to)
    && (forall x <- p.ambiguous :: Refuses(m, A, x.live, x.count, x.reason))
    && (forall k, n, r | Refuses(m, A, k, n, r) :: Ambiguity(k, n, r) in p.ambiguous)
    && (forall i, j | 0 <= i < j < |p.ambiguous| :: p.ambiguous[i].live != p.ambiguous[j].live)
  }
}
