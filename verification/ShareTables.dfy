/** What each operation of the policy writer does and who may do what, field by
    field: guards and effects in terms of the stored fields alone. */
module ShareTables {
  import opened Keys
  import opened Topics
  import opened SharePolicy
  import opened ShareRuns

  /** The disk after a write of st. */
  function Written(d: Desk, st: Policy, w: Write): Policy {
    match w
    case Lost => d.disk
    case Saved | LostButWritten => st
  }

  // ---- access ----

  /** What a role may do, action by action. */
  predicate RoleAllows(r: Rights, action: Action) {
    match r.role
    case Read => action in {Output, Screen, History, Overview, Preferences} || (action == Git && r.repositoryRead)
    case Control =>
      action in {Output, Screen, History, Overview, Preferences, Prompt, Attachment, Dialog, Keystrokes, Forward, Git}
      || (action == CloseAgent && r.closeAgent) || (action == Focus && r.localFocus)
  }

  lemma PermitsExactly(r: Rights, action: Action)
    ensures Permits(r, action) <==> RoleAllows(r, action)
  {
  }

  /** A recipient who may only read never types, answers, forwards, closes or
      focuses, whatever else holds. */
  lemma ReadOnlyReads(d: Desk, o: Origin, action: Action, now: int, vouched: map<Key, Agent>)
    requires o.grant in d.st.grants && d.st.grants[o.grant].rights.role == Read
    requires Decide(d, o, action, now, vouched) == Allowed
    ensures || action in {Output, Screen, History, Overview, Preferences}
            || (action == Git && d.st.grants[o.grant].rights.repositoryRead)
  {
  }

  /** Work is admitted exactly when all of this holds at that moment. */
  lemma BeginAdmits(d: Desk, o: Origin, action: Action, now: int, vouched: map<Key, Agent>)
    requires Named(d.st)
    ensures Decide(d, o, action, now, vouched) == Allowed <==>
      && !d.disabled && d.bot == d.st.bot && o.grant in d.st.grants
      && var g := d.st.grants[o.grant];
      && g.revision == o.revision > 0 && g.state == Active && (g.expires.Some? ==> now < g.expires.value)
      && o.actor == g.recipient > 0
      && (match g.rights.role
          case Read => action in {Output, Screen, History, Overview, Preferences} || (action == Git && g.rights.repositoryRead)
          case Control =>
            && (action == CloseAgent ==> g.rights.closeAgent)
            && (action == Focus ==> g.rights.localFocus))
      && o.grant in d.st.mirrors
      && d.st.mirrors[o.grant] == Mirror(o.grant, o.chat, o.thread, false) && o.chat > 0 && o.thread > 0
      && o.key == g.key && g.key.pane != [] && g.key.terminal != []
      && g.key in vouched && vouched[g.key].status != Exited && vouched[g.key].key == g.key
      && (g.key.digest == [] ==> g.process == o.process != 0)
  {
    assert o.grant in d.st.grants ==> d.st.grants[o.grant].id == o.grant != "";
  }

  /** The first test that fails gives the reason. */
  lemma RefusalReason(d: Desk, o: Origin, action: Action, now: int, vouched: map<Key, Agent>)
    requires Named(d.st)
    requires !d.disabled && d.bot == d.st.bot && o.grant in d.st.grants
    requires var k := d.st.grants[o.grant].key; k in vouched && vouched[k].status != Exited
    ensures var g, m := d.st.grants[o.grant], if o.grant in d.st.mirrors then d.st.mirrors[o.grant] else Mirror("", 0, 0, false);
      var why := Decide(d, o, action, now, vouched);
      && (why == Invalid <==> g.revision == 0 || g.recipient <= 0)
      && (why != Invalid ==>
          && (why == Inactive <==> g.state != Active)
          && (why != Inactive ==>
              && (why == PastExpiry <==> g.expires.Some? && g.expires.value <= now)
              && (why != PastExpiry ==>
                  && (why == WrongActor <==> o.actor != g.recipient)
                  && (why != WrongActor ==>
                      && (why == WrongDestination <==>
                            m != Mirror(o.grant, o.chat, o.thread, false) || o.chat <= 0 || o.thread == 0)
                      && (why != WrongDestination ==>
                          && (why == StaleRevision <==> o.revision != g.revision)
                          && (why != StaleRevision ==>
                              && (why == ChangedSession <==>
                                    || g.key.pane == [] || g.key.terminal == [] || o.key != g.key
                                    || vouched[g.key].key != g.key || (g.key.digest == [] && (g.process == 0 || g.process != o.process)))
                              && (why != ChangedSession ==>
                                  (why == MissingCapability <==> !RoleAllows(g.rights, action)))))))))
  {
    assert d.st.grants[o.grant].id == o.grant != "";
  }

  /** Without a grant, a policy of this bot or a living agent there is no access. */
  lemma NobodyThere(d: Desk, o: Origin, action: Action, now: int, vouched: map<Key, Agent>)
    requires || d.disabled || d.bot != d.st.bot || o.grant !in d.st.grants
             || d.st.grants[o.grant].key !in vouched || vouched[d.st.grants[o.grant].key].status == Exited
    ensures Decide(d, o, action, now, vouched) == Inactive
  {
  }

  // ---- one table for each operation ----

  lemma BeginTable(d: Desk, o: Origin, action: Action, now: int, vouched: map<Key, Agent>, serial: nat)
    requires Named(d.st)
    ensures Step(d, DoBegin(o, action, now, vouched, serial)) ==
      if Decide(d, o, action, now, vouched) == Allowed
      then d.(inflight := d.inflight + {Token(serial, o.grant, o.revision, false)})
      else d
  {
  }

  lemma ReleaseTable(d: Desk, t: Token)
    ensures Step(d, DoRelease(t)) == d.(inflight := d.inflight - {t})
  {
  }

  predicate Ungranted(d: Desk, r: Request, id: Id) {
    || d.disabled || !r.ready || r.bot <= 0 || (d.st.bot != 0 && d.st.bot != r.bot)
    || !r.known || r.key.pane == [] || r.key.terminal == []
    || (r.expected.Some? && r.expected.value != if id in d.st.grants then d.st.grants[id].revision else 0)
    || (id !in d.st.grants && |d.st.grants| >= 2000)
  }

  /** The terms that come into force: an active grant stays active. */
  function Terms(d: Desk, r: Request, id: Id, now: int): Grant {
    if id in d.st.grants then
      var g := d.st.grants[id].(revision := d.st.grants[id].revision + 1, rights := r.rights,
                                expires := r.expires, process := d.process);
      if g.state == Active then g else g.(state := Pending, activatedAt := now)
    else Grant(id, r.recipient, r.key, 1, Pending, NoCause, r.rights, r.expires, None, now, d.process)
  }

  lemma TermsExactly(d: Desk, r: Request, id: Id, now: int)
    requires Named(d.st) && Targets(d, r, id)
    ensures GrantRefused(d, r, id) <==> Ungranted(d, r, id)
    ensures Granted(d, r, id, now) == Terms(d, r, id, now)
    ensures var g := Terms(d, r, id, now); g.id == id && g.recipient == r.recipient && g.key == r.key
  {
  }

  /** Unsaved terms leave a grant suspended and make no new one. */
  lemma GrantTable(d: Desk, r: Request, id: Id, now: int, w: Write)
    requires Named(d.st) && Targets(d, r, id)
    ensures var d' := Step(d, DoGrant(r, id, now, w));
      if Ungranted(d, r, id) then d' == d
      else
        var g := Terms(d, r, id, now);
        var st := d.st.(bot := r.bot, grants := d.st.grants[id := g]);
        d' == d.(st := if w.Saved? then st
                       else if id in d.st.grants then d.st.(grants := d.st.grants[id := g.(state := Suspended)])
                       else d.st,
                 disk := Written(d, st, w),
                 inflight := (set t | t in d.inflight && t.grant != id),
                 born := if id in d.born then d.born else d.born[id := r.key])
  {
    TermsExactly(d, r, id, now);
    hide Granted, GrantRefused, Terms, Ungranted, Targets;
    OneCancelled(d.inflight, id);
  }

  lemma OneCancelled(tokens: set<Token>, id: Id)
    ensures Without(tokens, {id}) == set t | t in tokens && t.grant != id
  {
  }

  /** A new grant is made only for a recipient and key without one, under a name
      never used. */
  lemma TargetsExactly(d: Desk, r: Request, id: Id)
    ensures id in d.st.grants ==>
              (Targets(d, r, id) <==> d.st.grants[id].recipient == r.recipient && d.st.grants[id].key == r.key)
    ensures id !in d.st.grants ==>
              (Targets(d, r, id) <==>
                && id != "" && id !in d.born
                && forall x <- d.st.grants :: d.st.grants[x].recipient != r.recipient || d.st.grants[x].key != r.key)
  {
  }

  /** An unsaved change is in force unless it would open access. */
  lemma ChangeTable(d: Desk, id: Id, revision: nat, next: GrantState, now: int, vouched: map<Key, Agent>, w: Write)
    requires Named(d.st)
    ensures var d' := Step(d, DoChange(id, revision, next, now, vouched, w));
      if d.disabled || id !in d.st.grants || d.st.grants[id].revision != revision then d' == d
      else
        var g := d.st.grants[id];
        var allowed := match next
          case Revoked => true
          case Pending => g.state in {Pending, Suspended, Revoked, Expired, NeedsRepair}
          case Active =>
            && g.state in {Pending, Suspended} && g.cause == ByOwner && (g.expires.Some? ==> now < g.expires.value)
            && (g.key.digest == [] ==> g.process == d.process)
            && g.key in vouched && vouched[g.key].status != Exited
          case Suspended => g.state in {Active, Pending, Suspended}
          case Expired => g.state in {Active, Pending, Suspended}
          case NeedsRepair => g.state in {Pending, Active};
        if !allowed then d' == d
        else
          var g' := g.(state := next, revision := revision + 1, cause := ByOwner);
          var st := d.st.(grants := d.st.grants[id := g']);
          d' == d.(st := if w.Saved? || next != Active then st
                         else d.st.(grants := d.st.grants[id := g'.(state := Suspended)]),
                   disk := Written(d, st, w),
                   inflight := (set t | t in d.inflight && t.grant != id))
  {
  }

  lemma BindTable(d: Desk, id: Id, revision: nat, serial: nat)
    ensures Step(d, DoBind(id, revision, serial)) ==
      if !d.disabled && id in d.st.grants && d.st.grants[id].revision == revision && d.bot == d.st.bot
      then d.(inflight := d.inflight + {Token(serial, id, revision, true)})
      else d
  {
  }

  /** An intent is saved only for a pending grant without a topic or an intent. */
  lemma PrepareTable(d: Desk, id: Id, revision: nat, w: Write)
    ensures var d' := Step(d, DoPrepare(id, revision, w));
      var held := id in d.st.mirrors && (d.st.mirrors[id].creating || d.st.mirrors[id].thread > 0);
      if d.disabled || id !in d.st.grants || d.st.grants[id].revision != revision
         || d.st.grants[id].state != Pending || held then d' == d
      else
        var st := d.st.(mirrors := d.st.mirrors[id := Mirror(id, d.st.grants[id].recipient, 0, true)]);
        d' == d.(st := st, disk := Written(d, st, w),
                 tickets := if w.Saved? then d.tickets + {Ticket(id, revision)} else d.tickets)
  {
  }

  lemma IssueTable(d: Desk, id: Id, revision: nat, serial: nat)
    ensures Step(d, DoIssue(id, revision, serial)) ==
      if Ticket(id, revision) in d.tickets && !d.disabled && id in d.st.grants && d.st.grants[id].revision == revision
         && d.bot == d.st.bot
      then d.(inflight := d.inflight + {Token(serial, id, revision, true)}, tickets := d.tickets - {Ticket(id, revision)},
              issued := d.issued + {id})
      else d
  {
  }

  /** An unsaved activation leaves the grant in need of repair. */
  lemma ActivateTable(d: Desk, id: Id, revision: nat, thread: nat, now: int, w: Write)
    requires Named(d.st) && thread > 0
    ensures var d' := Step(d, DoActivate(id, revision, thread, now, w));
      if d.disabled || id !in d.st.grants || d.st.grants[id].revision != revision || d.st.grants[id].state != Pending
      then d' == d
      else
        var g := d.st.grants[id].(state := Active, revision := revision + 1, activatedAt := now);
        var m := if id in d.st.mirrors then d.st.mirrors[id].(chat := g.recipient, thread := thread, creating := false)
                 else Mirror("", g.recipient, thread, false);
        var st := d.st.(grants := d.st.grants[id := g], mirrors := d.st.mirrors[id := m]);
        d' == d.(st := if w.Saved? then st else st.(grants := d.st.grants[id := g.(state := NeedsRepair)]),
                 disk := Written(d, st, w))
  {
  }

  /** The policy without the mirror, the grant pending again. */
  function Again(st: Policy, id: Id): Policy
    requires id in st.grants
  {
    st.(grants := st.grants[id := st.grants[id].(state := Pending, revision := st.grants[id].revision + 1)],
        mirrors := st.mirrors - {id})
  }

  lemma RepairTable(d: Desk, id: Id, revision: nat, w: Write)
    requires Named(d.st)
    ensures var d' := Step(d, DoRepair(id, revision, w));
      if d.disabled || id !in d.st.grants || d.st.grants[id].revision != revision
         || d.st.grants[id].state !in {NeedsRepair, Pending} then d' == d
      else d' == d.(st := Again(d.st, id), disk := Written(d, Again(d.st, id), w), issued := d.issued - {id})
  {
  }

  lemma MissingTable(d: Desk, id: Id, revision: nat, w: Write)
    requires Named(d.st)
    ensures var d' := Step(d, DoMissing(id, revision, w));
      if d.disabled || id !in d.st.grants || d.st.grants[id].revision != revision || d.st.grants[id].state != Active then d' == d
      else d' == d.(st := Again(d.st, id), disk := Written(d, Again(d.st, id), w), issued := d.issued - {id},
                    inflight := (set t | t in d.inflight && t.grant != id))
  {
  }

  lemma ForgetTable(d: Desk, id: Id, revision: nat, w: Write)
    requires Named(d.st)
    ensures var d' := Step(d, DoForget(id, revision, w));
      if d.disabled || id !in d.st.grants || d.st.grants[id].revision != revision || d.st.grants[id].state != Revoked then d' == d
      else
        var st := d.st.(mirrors := d.st.mirrors - {id});
        d' == d.(st := st, disk := Written(d, st, w), issued := d.issued - {id})
  {
    if id in d.st.grants {
      assert d.st.grants[id := d.st.grants[id]] == d.st.grants;
    }
  }

  lemma RetireTable(d: Desk, id: Id, revision: nat, w: Write)
    requires Named(d.st)
    ensures var d' := Step(d, DoRetire(id, revision, w));
      if d.disabled || id !in d.st.grants || d.st.grants[id].revision != revision
         || d.st.grants[id].cause !in {AgentExited, Retention} then d' == d
      else
        var g := d.st.grants[id];
        var next := if g.state == Revoked then g.(cause := Retention)
                    else g.(state := Revoked, revision := revision + 1, cause := Retention);
        var st := d.st.(grants := d.st.grants[id := next]);
        d' == d.(st := st, disk := Written(d, st, w), inflight := (set t | t in d.inflight && t.grant != id))
  {
  }

  lemma ExpireTable(d: Desk, now: int, w: Write)
    requires Named(d.st)
    ensures var d' := Step(d, DoExpire(now, w));
      var due := set id | id in d.st.grants && d.st.grants[id].state in {Active, Suspended, Pending}
                          && d.st.grants[id].expires.Some? && d.st.grants[id].expires.value <= now;
      if d.disabled || due == {} then d' == d
      else
        var st := d.st.(grants := map id | id in d.st.grants ::
          if id in due then d.st.grants[id].(state := Expired, revision := d.st.grants[id].revision + 1)
          else d.st.grants[id]);
        d' == d.(st := st, disk := Written(d, st, w), inflight := (set t | t in d.inflight && t.grant !in due))
  {
    var due := set id | id in d.st.grants && Expires(d.st.grants[id], now);
    assert due == set id | id in d.st.grants && d.st.grants[id].state in {Active, Suspended, Pending}
                           && d.st.grants[id].expires.Some? && d.st.grants[id].expires.value <= now;
  }

  lemma RecordTable(d: Desk, o: Origin)
    ensures Step(d, DoRecord(o)) ==
      if d.disabled || o.grant !in d.st.grants || d.st.grants[o.grant].revision != o.revision || o.grant in d.st.mirrors then d
      else d.(st := d.st.(mirrors := d.st.mirrors[o.grant := Mirror("", 0, 0, false)]))
  {
    if o.grant in d.st.mirrors {
      assert d.st.mirrors[o.grant := d.st.mirrors[o.grant]] == d.st.mirrors;
    }
  }

  lemma FlushTable(d: Desk, w: Write)
    ensures Step(d, DoFlush(w)) == if d.disabled then d else d.(disk := Written(d, d.st, w))
  {
  }

  lemma RestartTable(d: Desk, process: nat, loaded: bool)
    ensures Step(d, DoRestart(process, loaded)) ==
      Desk(d.bot, !loaded, process, d.disk, d.disk, {}, d.born, {}, d.issued)
  {
  }

  // ---- agent events ----

  /** What becomes of one grant when the event is saved. */
  function Fate(g: Grant, gone: bool, key: Key, now: int, process: nat): Grant {
    if g.key.pane != key.pane || !(g.state == Active || (g.state == Suspended && g.cause == AgentExited)) then g
    else if gone then g.(state := Suspended, revision := g.revision + 1, cause := AgentExited, exitedAt := Some(now))
    else if g.key.digest != [] && g.key.digest == key.digest && (g.key == key || key.pane != []) then
      if g.state == Active && g.key == key then g
      else g.(state := Active, revision := g.revision + 1, key := key, cause := NoCause, exitedAt := None)
    else if g.key == key && g.process == process then g
    else g.(state := Suspended, revision := g.revision + 1, cause := IdentityChanged)
  }

  ghost function Affected(d: Desk, gone: bool, key: Key, now: int): set<Id> {
    set id | id in d.st.grants && Fate(d.st.grants[id], gone, key, now, d.process) != d.st.grants[id]
  }

  lemma FollowedIsFate(g: Grant, gone: bool, key: Key, now: int, process: nat)
    ensures Followed(g, gone, key, now, process) == Fate(g, gone, key, now, process)
    ensures InPlay(g, key.pane) && Follows(g, gone, key, now, process).Some? <==> Fate(g, gone, key, now, process) != g
    ensures InPlay(g, key.pane) <==>
              g.key.pane == key.pane && (g.state == Active || (g.state == Suspended && g.cause == AgentExited))
  {
  }

  /** The grants after an event that could not be saved. */
  ghost function Unsaved(d: Desk, gone: bool, key: Key, now: int): map<Id, Grant> {
    map id | id in d.st.grants ::
      var g := d.st.grants[id];
      if g.key.pane == key.pane && (g.state == Active || (g.state == Suspended && g.cause == AgentExited))
      then Fate(g, gone, key, now, d.process).(state := Suspended, cause := NotPersisted) else g
  }

  ghost function Fates(d: Desk, gone: bool, key: Key, now: int): map<Id, Grant> {
    map id | id in d.st.grants :: Fate(d.st.grants[id], gone, key, now, d.process)
  }

  lemma SameFates(d: Desk, gone: bool, key: Key, now: int)
    ensures Moved(d, gone, key, now) == Affected(d, gone, key, now)
    ensures (map id | id in d.st.grants :: Followed(d.st.grants[id], gone, key, now, d.process)) == Fates(d, gone, key, now)
    ensures (map id | id in d.st.grants ::
               if InPlay(d.st.grants[id], key.pane) then Fates(d, gone, key, now)[id].(state := Suspended, cause := NotPersisted)
               else Fates(d, gone, key, now)[id]) == Unsaved(d, gone, key, now)
  {
    hide Followed, Follows, InPlay, Fate;
    forall id | id in d.st.grants
      ensures Followed(d.st.grants[id], gone, key, now, d.process) == Fate(d.st.grants[id], gone, key, now, d.process)
      ensures id in Moved(d, gone, key, now) <==> Fate(d.st.grants[id], gone, key, now, d.process) != d.st.grants[id]
      ensures InPlay(d.st.grants[id], key.pane) <==>
                d.st.grants[id].key.pane == key.pane
                && (d.st.grants[id].state == Active || (d.st.grants[id].state == Suspended && d.st.grants[id].cause == AgentExited))
      ensures !InPlay(d.st.grants[id], key.pane) ==> Fate(d.st.grants[id], gone, key, now, d.process) == d.st.grants[id]
    {
      FollowedIsFate(d.st.grants[id], gone, key, now, d.process);
      NotInPlay(d.st.grants[id], gone, key, now, d.process);
    }
  }

  lemma NotInPlay(g: Grant, gone: bool, key: Key, now: int, process: nat)
    ensures !InPlay(g, key.pane) ==> Fate(g, gone, key, now, process) == g
  {
  }

  /** An event the disk does not take leaves every grant it may touch suspended. */
  lemma LifecycleTable(d: Desk, gone: bool, key: Key, now: int, w: Write)
    ensures var d' := Step(d, DoLifecycle(gone, key, now, w));
      if d.disabled || d.bot != d.st.bot || Affected(d, gone, key, now) == {} then d' == d
      else
        var st := d.st.(grants := Fates(d, gone, key, now));
        d' == d.(st := if w.Saved? then st else d.st.(grants := Unsaved(d, gone, key, now)),
                 disk := Written(d, st, w),
                 inflight := (set t | t in d.inflight && t.grant !in Affected(d, gone, key, now)))
  {
    SameFates(d, gone, key, now);
    hide Followed, InPlay, Moved, Affected, Fates, Unsaved;
  }

  /** One grant after an event. */
  lemma FateOfOne(d: Desk, gone: bool, key: Key, now: int, w: Write, id: Id)
    requires !d.disabled && d.bot == d.st.bot && id in d.st.grants
    ensures var d', g := LifecycleStep(d, gone, key, now, w), d.st.grants[id];
      var fate := Fate(g, gone, key, now, d.process);
      && id in d'.st.grants && (fate != g ==> forall t <- d'.inflight :: t.grant != id)
      && (w.Saved? || fate != g ==> d'.st.grants[id] == if w.Saved? then fate else fate.(state := Suspended, cause := NotPersisted))
      && (!w.Saved? ==> d'.st.grants[id] == g || d'.st.grants[id].state == Suspended)
  {
    LifecycleTable(d, gone, key, now, w);
    hide LifecycleStep, Fate;
    NotInPlay(d.st.grants[id], gone, key, now, d.process);
    FollowedIsFate(d.st.grants[id], gone, key, now, d.process);
    if Fate(d.st.grants[id], gone, key, now, d.process) != d.st.grants[id] {
      assert id in Affected(d, gone, key, now);
    }
  }

  /** A suspended grant is revived by an event exactly if its agent had left, the
      same known session is back in its pane, and that could be saved. */
  lemma RevivedExactly(d: Desk, gone: bool, key: Key, now: int, w: Write, id: Id)
    requires id in d.st.grants && d.st.grants[id].state == Suspended
    ensures var d', g := LifecycleStep(d, gone, key, now, w), d.st.grants[id];
      && id in d'.st.grants
      && (d'.st.grants[id].state == Active <==>
            && !d.disabled && d.bot == d.st.bot && w.Saved? && !gone && g.cause == AgentExited
            && g.key.digest != [] && g.key.digest == key.digest && g.key.pane == key.pane
            && (g.key == key || key.pane != []))
      && (d'.st.grants[id].state == Active ==>
            d'.st.grants[id] == g.(state := Active, key := key, revision := g.revision + 1, cause := NoCause, exitedAt := None))
  {
    if !d.disabled && d.bot == d.st.bot {
      FateOfOne(d, gone, key, now, w, id);
      hide LifecycleStep;
    } else {
      assert LifecycleStep(d, gone, key, now, w) == d;
    }
  }

  /** A departure suspends every active grant of the pane. */
  lemma DepartureSuspends(d: Desk, key: Key, now: int, w: Write, id: Id)
    requires !d.disabled && d.bot == d.st.bot
    requires id in d.st.grants && d.st.grants[id].state == Active && d.st.grants[id].key.pane == key.pane
    ensures var d', g := LifecycleStep(d, true, key, now, w), d.st.grants[id];
      && id in d'.st.grants && (forall t <- d'.inflight :: t.grant != id)
      && d'.st.grants[id] == g.(state := Suspended, revision := g.revision + 1, exitedAt := Some(now),
                                cause := if w.Saved? then AgentExited else NotPersisted)
  {
    hide LifecycleStep;
    FateOfOne(d, true, key, now, w, id);
  }

  /** A known but different session in the pane suspends them as well. */
  lemma OtherSessionSuspends(d: Desk, key: Key, now: int, w: Write, id: Id)
    requires !d.disabled && d.bot == d.st.bot && id in d.st.grants
    requires var g := d.st.grants[id];
      && g.key.pane == key.pane && g.key.digest != [] && key.digest != [] && g.key.digest != key.digest
      && (g.state == Active || (g.state == Suspended && g.cause == AgentExited))
    ensures var d', g := LifecycleStep(d, false, key, now, w), d.st.grants[id];
      && id in d'.st.grants && (forall t <- d'.inflight :: t.grant != id)
      && d'.st.grants[id] == g.(state := Suspended, revision := g.revision + 1,
                                cause := if w.Saved? then IdentityChanged else NotPersisted)
  {
    hide LifecycleStep;
    FateOfOne(d, false, key, now, w, id);
  }
}
