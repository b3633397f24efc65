/** The sharing policy as values: grants, the private topics that mirror them,
    who may do what, and what each operation of the policy writer does to the
    policy in memory, the policy on disk and the work in flight.

    Every operation holds the policy lock from start to end, so one operation is
    one step and a run is any sequence of them. Whether a write succeeds, and
    whether a failed write reached the disk after all, is an argument of the
    step. Revisions are unbounded here. */
module SharePolicy {
  import opened Keys
  import opened Topics

  type Id = string

  datatype GrantState = Pending | Active | Suspended | Revoked | Expired | NeedsRepair

  datatype Cause = NoCause | ByOwner | AgentExited | IdentityChanged | NotPersisted | Retention
  datatype Role = Read | Control

  datatype Rights = Rights(role: Role, repositoryRead: bool, closeAgent: bool, localFocus: bool)

  datatype Grant = Grant(
    id: Id,
    recipient: int,
    key: Key,
    revision: nat,
    state: GrantState,
    cause: Cause,
    rights: Rights,
    expires: Option<int>,
    exitedAt: Option<int>,
    activatedAt: int,
    process: nat)
  {
    predicate Past(now: int) {
      expires.Some? && now >= expires.value
    }

    /** A change of state always makes a new revision. */
    function Become(next: GrantState): Grant {
      this.(state := next, revision := revision + 1)
    }
  }

  predicate MayBecome(from: GrantState, next: GrantState) {
    match next
    case Revoked => true
    case Pending => from != Active
    case Active => from == Pending || from == Suspended
    case Suspended => from == Active || from == Pending || from == Suspended
    case Expired => from == Active || from == Pending || from == Suspended
    case NeedsRepair => from == Pending || from == Active
  }

  datatype Mirror = Mirror(grant: Id, chat: int, thread: nat, creating: bool) {
    /** A topic exists or may exist. */
    predicate Holds() {
      creating || thread > 0
    }
  }

  const NO_MIRROR := Mirror("", 0, 0, false)

  /** What is saved: grants and the topics that show them. */
  datatype Policy = Policy(bot: int, grants: map<Id, Grant>, mirrors: map<Id, Mirror>) {
    function MirrorOf(id: Id): Mirror {
      if id in mirrors then mirrors[id] else NO_MIRROR
    }

    predicate Holds(id: Id) {
      MirrorOf(id).Holds()
    }

    function With(g: Grant): Policy {
      this.(grants := grants[g.id := g])
    }
  }

  // ---- who may do what ----

  datatype Action =
    | Output | Screen | History | Overview | Preferences
    | Prompt | Attachment | Dialog | Keystrokes | Forward
    | Git | CloseAgent | Focus

  /** Travels unchanged with a piece of work from the request to its dispatch. */
  datatype Origin = Origin(actor: int, chat: int, thread: nat, grant: Id, revision: nat, key: Key, process: nat)

  datatype Decision =
    | Allowed
    | Invalid
    | Inactive
    | PastExpiry
    | WrongActor
    | WrongDestination
    | StaleRevision
    | ChangedSession
    | MissingCapability

  predicate Permits(r: Rights, action: Action) {
    match action
    case Output | Screen | History | Overview | Preferences => true
    case Prompt | Attachment | Dialog | Keystrokes | Forward => r.role == Control
    case Git => r.role == Control || r.repositoryRead
    case CloseAgent => r.role == Control && r.closeAgent
    case Focus => r.role == Control && r.localFocus
  }

  function Authorize(g: Grant, m: Mirror, o: Origin, current: Key, action: Action, now: int): Decision {
    if g.id == "" || g.revision == 0 || g.recipient <= 0 then Invalid
    else if g.state != Active then Inactive
    else if g.Past(now) then PastExpiry
    else if o.actor != g.recipient then WrongActor
    else if m.grant != g.id || m.creating || m.chat <= 0 || m.thread == 0 || o.chat != m.chat || o.thread != m.thread then
      WrongDestination
    else if o.grant != g.id || o.revision != g.revision then StaleRevision
    else if !g.key.Usable() || o.key != g.key || current != g.key then ChangedSession
    else if g.key.digest == [] && (g.process == 0 || g.process != o.process) then ChangedSession
    else if !Permits(g.rights, action) then MissingCapability
    else Allowed
  }

  // ---- the policy writer ----

  /** Admitted work that was neither finished nor cancelled. A binding token
      belongs to a call that manages the topic itself. */
  datatype Token = Token(serial: nat, grant: Id, revision: nat, binding: bool)

  /** The work left when that of some grants is cancelled. */
  function Without(tokens: set<Token>, ids: set<Id>): set<Token> {
    set t | t in tokens && t.grant !in ids
  }

  /** A creation intent that was saved for this revision and not yet acted on. */
  datatype Ticket = Ticket(grant: Id, revision: nat)

  datatype Write = Saved | Lost | LostButWritten

  /** The writer, the disk and three records kept for the proofs alone: the key
      each grant was made for, the saved intents whose request was not sent yet,
      and the grants a creation request was sent for since their last repair. */
  datatype Desk = Desk(
    bot: int,
    disabled: bool,
    process: nat,
    st: Policy,
    disk: Policy,
    inflight: set<Token>,
    born: map<Id, Key>,
    tickets: set<Ticket>,
    issued: set<Id>)
  {
    predicate At(id: Id, revision: nat) {
      !disabled && id in st.grants && st.grants[id].revision == revision
    }

    function Cancel(ids: set<Id>): Desk {
      this.(inflight := Without(inflight, ids))
    }

    /** A write of the policy st; memory holds it whatever happened to the disk. */
    function Save(st: Policy, w: Write): Desk {
      this.(st := st, disk := if w.Lost? then disk else st)
    }

    /** The policy that memory is left with. */
    function Keep(st: Policy): Desk {
      this.(st := st)
    }
  }

  datatype Request = Request(
    recipient: int,
    key: Key,
    rights: Rights,
    expires: Option<int>,
    bot: int,
    ready: bool,
    known: bool,
    expected: Option<nat>)

  const MAX_GRANTS := 2000

  predicate Matches(g: Grant, r: Request) {
    g.recipient == r.recipient && g.key == r.key
  }

  /** id names the grant to renew, or a new one when there is none. */
  ghost predicate Targets(d: Desk, r: Request, id: Id) {
    if id in d.st.grants then Matches(d.st.grants[id], r)
    else id != "" && id !in d.born && forall x <- d.st.grants :: !Matches(d.st.grants[x], r)
  }

  predicate GrantRefused(d: Desk, r: Request, id: Id) {
    || d.disabled || !r.ready || r.bot <= 0 || (d.st.bot != 0 && d.st.bot != r.bot)
    || !r.known || !r.key.Usable()
    || (r.expected.Some? && r.expected.value != if id in d.st.grants then d.st.grants[id].revision else 0)
    || (id !in d.st.grants && |d.st.grants| >= MAX_GRANTS)
  }

  /** The grant a request asks for. An active one stays active under the new terms. */
  function Granted(d: Desk, r: Request, id: Id, now: int): Grant {
    var g := if id in d.st.grants then d.st.grants[id]
             else Grant(id, r.recipient, r.key, 0, Pending, NoCause, r.rights, r.expires, None, now, d.process);
    g.(revision := g.revision + 1, rights := r.rights, expires := r.expires, process := d.process,
       state := if g.state == Active then Active else Pending,
       activatedAt := if g.state == Active then g.activatedAt else now)
  }

  function GrantStep(d: Desk, r: Request, id: Id, now: int, w: Write): Desk {
    if GrantRefused(d, r, id) then d
    else
      var g := Granted(d, r, id, now);
      var born := if id in d.born then d.born else d.born[id := r.key];
      var after := d.Cancel({id}).Save(d.st.(bot := r.bot).With(g), w).(born := born);
      if w.Saved? then after
      else if id in d.st.grants then after.Keep(d.st.With(g.(state := Suspended)))
      else after.Keep(d.st)
  }

  /** Why a change of state is refused. */
  predicate ChangeRefused(d: Desk, id: Id, revision: nat, next: GrantState, now: int, vouched: map<Key, Agent>) {
    || !d.At(id, revision)
    || var g := d.st.grants[id];
      || !MayBecome(g.state, next)
      || (next == Active &&
          (g.Past(now) || g.cause != ByOwner || (g.key.digest == [] && g.process != d.process)
           || g.key !in vouched || !vouched[g.key].status.Live()))
  }

  function ChangeStep(d: Desk, id: Id, revision: nat, next: GrantState, now: int, vouched: map<Key, Agent>, w: Write): Desk {
    if ChangeRefused(d, id, revision, next, now, vouched) then d
    else
      var g := d.st.grants[id].Become(next).(cause := ByOwner);
      var after := d.Cancel({id}).Save(d.st.With(g), w);
      if w.Saved? || next != Active then after else after.Keep(d.st.With(g.(state := Suspended)))
  }

  function Decide(d: Desk, o: Origin, action: Action, now: int, vouched: map<Key, Agent>): Decision {
    if d.disabled || d.bot != d.st.bot || o.grant !in d.st.grants then Inactive
    else
      var g := d.st.grants[o.grant];
      if g.key !in vouched || !vouched[g.key].status.Live() then Inactive
      else Authorize(g, d.st.MirrorOf(g.id), o, vouched[g.key].key, action, now)
  }

  function BeginStep(d: Desk, o: Origin, action: Action, now: int, vouched: map<Key, Agent>, serial: nat): Desk {
    if Decide(d, o, action, now, vouched) != Allowed then d
    else d.(inflight := d.inflight + {Token(serial, o.grant, d.st.grants[o.grant].revision, false)})
  }

  predicate Binds(d: Desk, id: Id, revision: nat) {
    d.At(id, revision) && d.bot == d.st.bot
  }

  function BindStep(d: Desk, id: Id, revision: nat, serial: nat): Desk {
    if !Binds(d, id, revision) then d
    else d.(inflight := d.inflight + {Token(serial, id, revision, true)})
  }

  predicate Prepares(d: Desk, id: Id, revision: nat) {
    d.At(id, revision) && d.st.grants[id].state == Pending && !d.st.Holds(id)
  }

  function PrepareStep(d: Desk, id: Id, revision: nat, w: Write): Desk {
    if !Prepares(d, id, revision) then d
    else
      var m := Mirror(id, d.st.grants[id].recipient, 0, true);
      d.Save(d.st.(mirrors := d.st.mirrors[id := m]), w)
       .(tickets := if w.Saved? then d.tickets + {Ticket(id, revision)} else d.tickets)
  }

  /** The create request leaves: its guard admits it and the saved intent is used up. */
  predicate Issues(d: Desk, id: Id, revision: nat) {
    Ticket(id, revision) in d.tickets && Binds(d, id, revision)
  }

  function IssueStep(d: Desk, id: Id, revision: nat, serial: nat): Desk {
    if !Issues(d, id, revision) then d
    else BindStep(d, id, revision, serial).(tickets := d.tickets - {Ticket(id, revision)}, issued := d.issued + {id})
  }

  function ActivateStep(d: Desk, id: Id, revision: nat, thread: nat, now: int, w: Write): Desk {
    if !d.At(id, revision) || d.st.grants[id].state != Pending then d
    else
      var g := d.st.grants[id].Become(Active).(activatedAt := now);
      var m := d.st.MirrorOf(id).(chat := g.recipient, thread := thread, creating := false);
      var st := d.st.With(g).(mirrors := d.st.mirrors[id := m]);
      if w.Saved? then d.Save(st, w) else d.Save(st, w).Keep(st.With(g.(state := NeedsRepair)))
  }

  /** The mirror is forgotten, and with it the fact that a request was sent. */
  function Dropped(d: Desk, g: Grant, w: Write): Desk {
    d.Save(d.st.With(g).(mirrors := d.st.mirrors - {g.id}), w).(issued := d.issued - {g.id})
  }

  predicate Repairs(d: Desk, id: Id, revision: nat) {
    d.At(id, revision) && (d.st.grants[id].state == NeedsRepair || d.st.grants[id].state == Pending)
  }

  function RepairStep(d: Desk, id: Id, revision: nat, w: Write): Desk {
    if !Repairs(d, id, revision) then d else Dropped(d, d.st.grants[id].Become(Pending), w)
  }

  predicate Misses(d: Desk, id: Id, revision: nat) {
    d.At(id, revision) && d.st.grants[id].state == Active
  }

  function MissingStep(d: Desk, id: Id, revision: nat, w: Write): Desk {
    if !Misses(d, id, revision) then d else Dropped(d.Cancel({id}), d.st.grants[id].Become(Pending), w)
  }

  predicate Forgets(d: Desk, id: Id, revision: nat) {
    d.At(id, revision) && d.st.grants[id].state == Revoked
  }

  function ForgetStep(d: Desk, id: Id, revision: nat, w: Write): Desk {
    if !Forgets(d, id, revision) then d else Dropped(d, d.st.grants[id], w)
  }

  function RetireStep(d: Desk, id: Id, revision: nat, w: Write): Desk {
    if !d.At(id, revision) || (d.st.grants[id].cause != AgentExited && d.st.grants[id].cause != Retention) then d
    else
      var g := d.st.grants[id];
      var next := if g.state == Revoked then g else g.Become(Revoked);
      d.Cancel({id}).Save(d.st.With(next.(cause := Retention)), w)
  }

  /** The grants an event about this pane may touch. */
  predicate InPlay(g: Grant, pane: Text) {
    g.key.pane == pane && (g.state == Active || (g.state == Suspended && g.cause == AgentExited))
  }

  /** What an agent event makes of one of them, if it changes it at all. */
  function Follows(g: Grant, gone: bool, key: Key, now: int, process: nat): Option<Grant> {
    if gone then Some(g.Become(Suspended).(cause := AgentExited, exitedAt := Some(now)))
    else if g.key != key || (g.key.digest == [] && g.process != process) then
      if g.key.SameSession(key) then Some(g.Become(Active).(key := key, cause := NoCause, exitedAt := None))
      else Some(g.Become(Suspended).(cause := IdentityChanged))
    else if g.state == Suspended && g.key.digest != [] then
      Some(g.Become(Active).(cause := NoCause, exitedAt := None))
    else None
  }

  function Followed(g: Grant, gone: bool, key: Key, now: int, process: nat): Grant {
    if InPlay(g, key.pane) && Follows(g, gone, key, now, process).Some? then Follows(g, gone, key, now, process).value else g
  }

  function Moved(d: Desk, gone: bool, key: Key, now: int): set<Id> {
    set id | id in d.st.grants && InPlay(d.st.grants[id], key.pane)
      && Follows(d.st.grants[id], gone, key, now, d.process).Some?
  }

  function LifecycleStep(d: Desk, gone: bool, key: Key, now: int, w: Write): Desk {
    var moved := Moved(d, gone, key, now);
    if d.disabled || d.bot != d.st.bot || moved == {} then d
    else
      var st := d.st.(grants := map id | id in d.st.grants :: Followed(d.st.grants[id], gone, key, now, d.process));
      var after := d.Cancel(moved).Save(st, w);
      if w.Saved? then after
      else after.Keep(st.(grants := map id | id in st.grants ::
             if InPlay(d.st.grants[id], key.pane) then st.grants[id].(state := Suspended, cause := NotPersisted)
             else st.grants[id]))
  }

  predicate Expires(g: Grant, now: int) {
    (g.state == Active || g.state == Suspended || g.state == Pending) && g.Past(now)
  }

  function ExpireStep(d: Desk, now: int, w: Write): Desk {
    var due := set id | id in d.st.grants && Expires(d.st.grants[id], now);
    if d.disabled || due == {} then d
    else
      d.Cancel(due).Save(d.st.(grants := map id | id in d.st.grants ::
        if id in due then d.st.grants[id].Become(Expired) else d.st.grants[id]), w)
  }

  /** Presentation state is recorded even for a grant without a mirror. */
  function RecordStep(d: Desk, o: Origin): Desk {
    if !d.At(o.grant, o.revision) then d
    else d.Keep(d.st.(mirrors := d.st.mirrors[o.grant := d.st.MirrorOf(o.grant)]))
  }

  /** A write of the policy as it is: flushes, and every change of contacts, service
      topics, preferences and checkpoints, none of which concerns a grant. */
  function FlushStep(d: Desk, w: Write): Desk {
    if d.disabled then d else d.Save(d.st, w)
  }

  /** A new process knows only the disk; everything in flight is dead. A policy
      file that cannot be loaded disables sharing. */
  function RestartStep(d: Desk, process: nat, loaded: bool): Desk {
    d.(disabled := !loaded, process := process, st := d.disk, inflight := {}, tickets := {})
  }

  datatype Op =
    | DoGrant(r: Request, id: Id, now: int, w: Write)
    | DoChange(id: Id, revision: nat, next: GrantState, now: int, vouched: map<Key, Agent>, w: Write)
    | DoBegin(o: Origin, action: Action, now: int, vouched: map<Key, Agent>, serial: nat)
    | DoRelease(token: Token)
    | DoBind(id: Id, revision: nat, serial: nat)
    | DoPrepare(id: Id, revision: nat, w: Write)
    | DoIssue(id: Id, revision: nat, serial: nat)
    | DoActivate(id: Id, revision: nat, thread: nat, now: int, w: Write)
    | DoRepair(id: Id, revision: nat, w: Write)
    | DoMissing(id: Id, revision: nat, w: Write)
    | DoForget(id: Id, revision: nat, w: Write)
    | DoRetire(id: Id, revision: nat, w: Write)
    | DoLifecycle(gone: bool, key: Key, now: int, w: Write)
    | DoExpire(now: int, w: Write)
    | DoRecord(o: Origin)
    | DoFlush(w: Write)
    | DoRestart(process: nat, loaded: bool)

  ghost function Step(d: Desk, op: Op): Desk {
    match op
    case DoGrant(r, id, now, w) => if Targets(d, r, id) then GrantStep(d, r, id, now, w) else d
    case DoChange(id, revision, next, now, vouched, w) => ChangeStep(d, id, revision, next, now, vouched, w)
    case DoBegin(o, action, now, vouched, serial) => BeginStep(d, o, action, now, vouched, serial)
    case DoRelease(token) => d.(inflight := d.inflight - {token})
    case DoBind(id, revision, serial) => BindStep(d, id, revision, serial)
    case DoPrepare(id, revision, w) => PrepareStep(d, id, revision, w)
    case DoIssue(id, revision, serial) => IssueStep(d, id, revision, serial)
    case DoActivate(id, revision, thread, now, w) => if thread > 0 then ActivateStep(d, id, revision, thread, now, w) else d
    case DoRepair(id, revision, w) => RepairStep(d, id, revision, w)
    case DoMissing(id, revision, w) => MissingStep(d, id, revision, w)
    case DoForget(id, revision, w) => ForgetStep(d, id, revision, w)
    case DoRetire(id, revision, w) => RetireStep(d, id, revision, w)
    case DoLifecycle(gone, key, now, w) => LifecycleStep(d, gone, key, now, w)
    case DoExpire(now, w) => ExpireStep(d, now, w)
    case DoRecord(o) => RecordStep(d, o)
    case DoFlush(w) => FlushStep(d, w)
    case DoRestart(process, loaded) => RestartStep(d, process, loaded)
  }

  ghost function Run(d: Desk, ops: seq<Op>): Desk
    decreases |ops|
  {
    if ops == [] then d else Run(Step(d, ops[0]), ops[1..])
  }
}
