/** The writer of the sharing policy. Each method runs under the policy lock and
    is proved to take exactly the step its specification in SharePolicy says;
    what whole runs of these steps keep is proved in ShareRuns. */
module Sharing {
  import opened Keys
  import opened Topics
  import opened SharePolicy
  import opened ShareRuns

  class Store {
    var disk: Policy

    /** An atomic file replacement that may fail before or after it happened. */
    method Save(st: Policy) returns (ok: bool, ghost w: Write)
      modifies this
      ensures ok == w.Saved? && disk == if w.Lost? then old(disk) else st
    {
      var reached := *;
      ok := *;
      if ok || reached {
        disk := st;
      }
      w := if ok then Saved else if reached then LostButWritten else Lost;
    }
  }

  lemma NothingFollowed(before: Desk, gone: bool, key: Key, now: int)
    requires Moved(before, gone, key, now) == {}
    ensures before.st == before.st.(grants := map id | id in before.st.grants ::
              Followed(before.st.grants[id], gone, key, now, before.process))
    ensures before.inflight == before.Cancel({}).inflight
  {
    hide Follows, InPlay;
    forall id | id in before.st.grants
      ensures Followed(before.st.grants[id], gone, key, now, before.process) == before.st.grants[id]
    {
      assert id !in Moved(before, gone, key, now);
    }
    assert before.st.grants == map id | id in before.st.grants ::
        Followed(before.st.grants[id], gone, key, now, before.process);
  }

  lemma MovedWithin(d: Desk, gone: bool, key: Key, now: int)
    ensures Moved(d, gone, key, now) <= d.st.grants.Keys
  {
  }

  lemma FollowedAt(d: Desk, gone: bool, key: Key, now: int, id: Id)
    requires id in d.st.grants
    ensures var g := d.st.grants[id];
      var next := Follows(g, gone, key, now, d.process);
      && (id in Moved(d, gone, key, now) <==> InPlay(g, key.pane) && next.Some?)
      && Followed(g, gone, key, now, d.process) == if InPlay(g, key.pane) && next.Some? then next.value else g
  {
    hide Follows, InPlay;
  }

  lemma WithoutTwice(tokens: set<Token>, ids: set<Id>, id: Id)
    ensures Without(Without(tokens, ids), {id}) == Without(tokens, ids + {id})
  {
  }

  class Sharing {
    const bot: int
    const store: Store
    var disabled: bool
    var process: nat
    var state: Policy
    var inflight: set<Token>
    ghost var born: map<Id, Key>
    ghost var tickets: set<Ticket>
    ghost var issued: set<Id>

    ghost function View(): Desk
      reads this, store
    {
      Desk(bot, disabled, process, state, store.disk, inflight, born, tickets, issued)
    }

    constructor (bot: int, process: nat, store: Store)
      requires Named(store.disk)
      ensures this.store == store && this.bot == bot && this.process == process
      ensures state == store.disk && !disabled && Sound(View())
    {
      this.bot, this.process, this.store, this.state := bot, process, store, store.disk;
      disabled, inflight := false, {};
      born, tickets, issued := map id | id in store.disk.grants :: store.disk.grants[id].key, {}, {};
      new;
      StartSound(bot, process, store.disk);
    }

    method Cancel(id: Id)
      modifies this`inflight
      ensures inflight == Without(old(inflight), {id})
    {
      inflight := set t | t in inflight && t.grant != id;
    }

    method Find(r: Request) returns (found: Option<Id>)
      ensures found.Some? ==> found.value in state.grants && Matches(state.grants[found.value], r)
      ensures found.None? ==> forall id <- state.grants :: !Matches(state.grants[id], r)
    {
      var rest := state.grants.Keys;
      while rest != {}
        invariant rest <= state.grants.Keys
        invariant forall id <- state.grants.Keys - rest :: !Matches(state.grants[id], r)
        decreases rest
      {
        var id :| id in rest;
        if Matches(state.grants[id], r) {
          return Some(id);
        }
        rest := rest - {id};
      }
      return None;
    }

    /** The owner grants access, or new terms for it. A write that fails leaves a
        renewed grant suspended and a first one absent. */
    method Grant(r: Request, name: Id, now: int) returns (g: Option<Grant>, ghost id: Id, ghost w: Write)
      requires Named(state) && state.grants.Keys <= born.Keys && name != "" && name !in born
      modifies this`state, this`inflight, this`born, store
      ensures Targets(old(View()), r, id) && View() == GrantStep(old(View()), r, id, now, w)
      ensures g.Some? <==> !GrantRefused(old(View()), r, id) && w.Saved?
      ensures g.Some? ==> id in state.grants && state.grants[id] == g.value
    {
      g, w := None, Saved;
      var found := Find(r);
      id := if found.Some? then found.value else name;
      if disabled || !r.ready || r.bot <= 0 || (state.bot != 0 && state.bot != r.bot) || !r.known || !r.key.Usable() {
        return;
      }
      var next: Grant;
      if found.Some? {
        next := state.grants[found.value];
      } else {
        next := SharePolicy.Grant(name, r.recipient, r.key, 0, Pending, NoCause, r.rights, r.expires, None, now, process);
      }
      if r.expected.Some? && next.revision != r.expected.value {
        return;
      }
      if found.None? && |state.grants| >= MAX_GRANTS {
        return;
      }
      next := next.(revision := next.revision + 1, rights := r.rights, expires := r.expires, process := process);
      if next.state != Active {
        next := next.(state := Pending, activatedAt := now);
      }
      assert next == Granted(View(), r, id, now) && next.id == id;
      hide Granted, GrantRefused;
      g, w := Publish(next, r);
    }

    /** Puts a granted permission into force, or takes it back. */
    method Publish(next: Grant, r: Request) returns (g: Option<Grant>, ghost w: Write)
      modifies this`state, this`inflight, this`born, store
      ensures g == if w.Saved? then Some(next) else None
      ensures var d := old(View());
        var after := d.Cancel({next.id}).Save(d.st.(bot := r.bot).With(next), w)
                     .(born := if next.id in d.born then d.born else d.born[next.id := r.key]);
        View() == if w.Saved? then after
                  else if next.id in d.st.grants then after.Keep(d.st.With(next.(state := Suspended)))
                  else after.Keep(d.st)
    {
      g := None;
      var before := state;
      state := state.(bot := r.bot).With(next);
      Cancel(next.id);
      born := if next.id in born then born else born[next.id := r.key];
      var ok;
      ok, w := store.Save(state);
      if ok {
        g := Some(next);
      } else {
        state := before;
        if next.id in before.grants {
          state := state.With(next.(state := Suspended));
        }
      }
    }

    /** Puts g in place of its grant, ends what was admitted under it, saves. */
    method Replace(g: Grant) returns (ok: bool, ghost w: Write)
      modifies this`state, this`inflight, store
      ensures ok == w.Saved?
      ensures View() == old(View()).Cancel({g.id}).Save(old(View()).st.With(g), w)
    {
      state := state.With(g);
      Cancel(g.id);
      ok, w := store.Save(state);
    }

    /** A denial holds at once, whatever becomes of the write; permission that
        could not be saved is not given. */
    method ChangeState(id: Id, revision: nat, next: GrantState, now: int, vouched: map<Key, Agent>)
      returns (ok: bool, ghost w: Write)
      requires Named(state)
      modifies this`state, this`inflight, store
      ensures View() == ChangeStep(old(View()), id, revision, next, now, vouched, w)
      ensures ok <==> !ChangeRefused(old(View()), id, revision, next, now, vouched) && w.Saved?
    {
      ok, w := false, Saved;
      if disabled || id !in state.grants || state.grants[id].revision != revision {
        return;
      }
      var g := state.grants[id];
      if !MayBecome(g.state, next) {
        return;
      }
      if next == Active {
        if g.Past(now) || g.cause != ByOwner || (g.key.digest == [] && g.process != process) {
          return;
        }
        if g.key !in vouched || !vouched[g.key].status.Live() {
          return;
        }
      }
      assert !ChangeRefused(View(), id, revision, next, now, vouched);
      hide ChangeRefused, MayBecome;
      var changed := g.Become(next).(cause := ByOwner);
      assert changed.id == id;
      ok, w := Replace(changed);
      if !ok && next == Active {
        state := state.With(changed.(state := Suspended));
      }
    }

    /** The point at which a dispatch is admitted or denied. */
    method Begin(o: Origin, action: Action, now: int, vouched: map<Key, Agent>, serial: nat) returns (d: Decision)
      requires Named(state)
      modifies this`inflight
      ensures d == Decide(old(View()), o, action, now, vouched)
      ensures View() == BeginStep(old(View()), o, action, now, vouched, serial)
    {
      if disabled || bot != state.bot || o.grant !in state.grants {
        return Inactive;
      }
      var g := state.grants[o.grant];
      if g.key !in vouched || !vouched[g.key].status.Live() {
        return Inactive;
      }
      d := Authorize(g, state.MirrorOf(g.id), o, vouched[g.key].key, action, now);
      if d == Allowed {
        assert g.id == o.grant;
        inflight := inflight + {Token(serial, g.id, g.revision, false)};
      }
    }

    method Release(token: Token)
      modifies this`inflight
      ensures View() == old(View()).(inflight := old(inflight) - {token})
    {
      inflight := inflight - {token};
    }

    /** Admits calls that manage the topic itself, at one revision only. */
    method Bind(id: Id, revision: nat, serial: nat) returns (ok: bool)
      modifies this`inflight
      ensures ok == Binds(old(View()), id, revision) && View() == BindStep(old(View()), id, revision, serial)
    {
      ok := !disabled && id in state.grants && state.grants[id].revision == revision && bot == state.bot;
      if ok {
        inflight := inflight + {Token(serial, id, revision, true)};
      }
    }

    /** The guard of the create request: it uses up the intent saved for it. */
    method Issue(id: Id, revision: nat, serial: nat) returns (ok: bool)
      requires Ticket(id, revision) in tickets
      modifies this`inflight, this`tickets, this`issued
      ensures ok == Binds(old(View()), id, revision) && View() == IssueStep(old(View()), id, revision, serial)
    {
      ok := Bind(id, revision, serial);
      if ok {
        tickets, issued := tickets - {Ticket(id, revision)}, issued + {id};
      }
    }

    /** Saves the creation intent; an earlier one that is unresolved is refused. */
    method PrepareMirror(id: Id, revision: nat) returns (m: Option<Mirror>, ghost w: Write)
      modifies this`state, this`tickets, store
      ensures View() == PrepareStep(old(View()), id, revision, w)
      ensures m.Some? <==> Opens(old(View()), id, revision, w)
      ensures m.Some? ==> id in state.mirrors && m.value == state.mirrors[id]
      ensures m.Some? && m.value.thread == 0 ==> Ticket(id, revision) in tickets
    {
      m, w := None, Saved;
      if disabled || id !in state.grants || state.grants[id].revision != revision || state.grants[id].state != Pending {
        return;
      }
      if id in state.mirrors && state.mirrors[id].creating {
        return;
      }
      if id in state.mirrors && state.mirrors[id].thread > 0 {
        return Some(state.mirrors[id]), w;
      }
      var next := Mirror(id, state.grants[id].recipient, 0, true);
      state := state.(mirrors := state.mirrors[id := next]);
      var ok;
      ok, w := store.Save(state);
      if ok {
        tickets := tickets + {Ticket(id, revision)};
        m := Some(next);
      }
    }

    method ActivateMirror(id: Id, revision: nat, thread: nat, now: int) returns (ok: bool, ghost w: Write)
      requires Named(state)
      modifies this`state, store
      ensures View() == ActivateStep(old(View()), id, revision, thread, now, w)
      ensures ok <==> old(View()).At(id, revision) && old(state.grants[id]).state == Pending && w.Saved?
    {
      ok, w := false, Saved;
      if disabled || id !in state.grants || state.grants[id].revision != revision || state.grants[id].state != Pending {
        return;
      }
      ghost var before := View();
      var g := state.grants[id];
      var m := state.MirrorOf(id);
      m := m.(chat := g.recipient, thread := thread);
      m := m.(creating := false);
      g := g.(state := Active, revision := g.revision + 1, activatedAt := now);
      state := state.With(g).(mirrors := state.mirrors[id := m]);
      ghost var st := state;
      ok, w := store.Save(state);
      assert View() == before.Save(st, w);
      if !ok {
        state := state.With(g.(state := NeedsRepair));
        assert View() == before.Save(st, w).Keep(state);
      }
    }

    /** The owner accepts that a topic may be orphaned and starts over. */
    method RepairMirror(id: Id, revision: nat) returns (ok: bool, ghost w: Write)
      requires Named(state)
      modifies this`state, this`issued, store
      ensures View() == RepairStep(old(View()), id, revision, w)
      ensures ok <==> Repairs(old(View()), id, revision) && w.Saved?
    {
      ok, w := false, Saved;
      if disabled || id !in state.grants || state.grants[id].revision != revision
         || (state.grants[id].state != NeedsRepair && state.grants[id].state != Pending) {
        return;
      }
      var g := state.grants[id];
      g := g.(state := Pending, revision := g.revision + 1);
      state := state.With(g).(mirrors := state.mirrors - {id});
      issued := issued - {id};
      ok, w := store.Save(state);
    }

    /** Telegram confirmed that the topic of an active grant is gone. */
    method MissingMirror(id: Id, revision: nat) returns (ok: bool, ghost w: Write)
      requires Named(state)
      modifies this`state, this`inflight, this`issued, store
      ensures View() == MissingStep(old(View()), id, revision, w)
      ensures ok <==> Misses(old(View()), id, revision) && w.Saved?
    {
      ok, w := false, Saved;
      if disabled || id !in state.grants || state.grants[id].revision != revision || state.grants[id].state != Active {
        return;
      }
      var g := state.grants[id];
      g := g.(state := Pending, revision := g.revision + 1);
      Cancel(id);
      state := state.With(g).(mirrors := state.mirrors - {id});
      issued := issued - {id};
      ok, w := store.Save(state);
    }

    /** A confirmed deletion. */
    method ForgetMirror(id: Id, revision: nat) returns (ok: bool, ghost w: Write)
      requires Named(state)
      modifies this`state, this`issued, store
      ensures View() == ForgetStep(old(View()), id, revision, w)
      ensures ok <==> Forgets(old(View()), id, revision) && w.Saved?
    {
      ok, w := false, Saved;
      if disabled || id !in state.grants || state.grants[id].revision != revision || state.grants[id].state != Revoked {
        return;
      }
      assert state.grants == state.grants[id := state.grants[id]];
      state := state.(mirrors := state.mirrors - {id});
      issued := issued - {id};
      ok, w := store.Save(state);
    }

    /** An exited agent's topic is about to be deleted: its grant is over. */
    method RetireMirror(id: Id, revision: nat) returns (ok: bool, ghost w: Write)
      requires Named(state)
      modifies this`state, this`inflight, store
      ensures View() == RetireStep(old(View()), id, revision, w)
      ensures ok <==> w.Saved? && old(View()).At(id, revision)
                      && (old(state.grants[id]).cause == AgentExited || old(state.grants[id]).cause == Retention)
    {
      ok, w := false, Saved;
      if disabled || id !in state.grants || state.grants[id].revision != revision
         || (state.grants[id].cause != AgentExited && state.grants[id].cause != Retention) {
        return;
      }
      var g := state.grants[id];
      if g.state != Revoked {
        g := g.Become(Revoked);
      }
      g := g.(cause := Retention);
      ok, w := Replace(g);
    }

    /** Applies an agent event to the grants of its pane. */
    method FollowAll(gone: bool, key: Key, now: int) returns (changed: bool, live: set<Id>)
      modifies this`state, this`inflight
      ensures state == old(state).(grants := map id | id in old(state).grants ::
                Followed(old(state).grants[id], gone, key, now, process))
      ensures inflight == Without(old(inflight), Moved(old(View()), gone, key, now))
      ensures changed <==> Moved(old(View()), gone, key, now) != {}
      ensures live == set id | id in old(state).grants && InPlay(old(state).grants[id], key.pane)
    {
      hide Follows, InPlay, Followed, Moved;
      ghost var moved := Moved(View(), gone, key, now);
      MovedWithin(View(), gone, key, now);
      ghost var before := state;
      var grants := state.grants;
      changed, live := false, {};
      var rest := grants.Keys;
      while rest != {}
        invariant rest <= grants.Keys == state.grants.Keys && state == before.(grants := state.grants)
        invariant forall id <- grants :: state.grants[id] ==
                    if id in rest then grants[id] else Followed(grants[id], gone, key, now, process)
        invariant inflight == Without(old(inflight), moved - rest)
        invariant changed <==> moved - rest != {}
        invariant live == set id | id in grants && id !in rest && InPlay(grants[id], key.pane)
        decreases rest
      {
        var id :| id in rest;
        var g := grants[id];
        FollowedAt(old(View()), gone, key, now, id);
        if InPlay(g, key.pane) {
          live := live + {id};
          var next := Follows(g, gone, key, now, process);
          if next.Some? {
            state := state.(grants := state.grants[id := next.value]);
            Cancel(id);
            WithoutTwice(old(inflight), moved - rest, id);
            changed := true;
            assert moved - (rest - {id}) == (moved - rest) + {id};
          } else {
            assert moved - (rest - {id}) == moved - rest;
          }
        } else {
          assert moved - (rest - {id}) == moved - rest;
        }
        rest := rest - {id};
      }
      assert moved - rest == moved;
    }

    /** An agent of a pane exits, appears or changes its session. Only a session
        that proves to be the same is followed. */
    method Lifecycle(gone: bool, key: Key, now: int) returns (ok: bool, ghost w: Write)
      modifies this`state, this`inflight, store
      ensures View() == LifecycleStep(old(View()), gone, key, now, w)
      ensures ok == w.Saved?
    {
      hide Followed, InPlay, Moved;
      ok, w := true, Saved;
      if disabled || bot != state.bot {
        return;
      }
      ghost var before := View();
      var changed, live := FollowAll(gone, key, now);
      if !changed {
        NothingFollowed(before, gone, key, now);
        return;
      }
      ok, w := store.Save(state);
      if !ok {
        SuspendAll(live);
      }
    }

    /** What a lifecycle change that could not be saved leaves behind. */
    method SuspendAll(live: set<Id>)
      requires live <= state.grants.Keys
      modifies this`state
      ensures state == old(state).(grants := map id | id in old(state).grants ::
                if id in live then old(state).grants[id].(state := Suspended, cause := NotPersisted)
                else old(state).grants[id])
    {
      var rest := live;
      while rest != {}
        invariant rest <= live
        invariant state == old(state).(grants := map id | id in old(state).grants ::
                    if id in live - rest then old(state).grants[id].(state := Suspended, cause := NotPersisted)
                    else old(state).grants[id])
        decreases rest
      {
        var id :| id in rest;
        state := state.(grants := state.grants[id := state.grants[id].(state := Suspended, cause := NotPersisted)]);
        rest := rest - {id};
      }
    }

    method ExpireAll(now: int) returns (changed: bool)
      modifies this`state, this`inflight
      ensures var due := set id | id in old(state).grants && Expires(old(state).grants[id], now);
        && state == old(state).(grants := map id | id in old(state).grants ::
             if id in due then old(state).grants[id].Become(Expired) else old(state).grants[id])
        && inflight == Without(old(inflight), due)
        && (changed <==> due != {})
        && (!changed ==> state == old(state) && inflight == old(inflight))
    {
      ghost var before := state;
      var grants := state.grants;
      var rest := grants.Keys;
      changed := false;
      ghost var due := set id | id in grants && Expires(grants[id], now);
      while rest != {}
        invariant rest <= grants.Keys == state.grants.Keys && state == before.(grants := state.grants)
        invariant forall id <- grants ::
                    state.grants[id] == if id in due - rest then grants[id].Become(Expired) else grants[id]
        invariant inflight == Without(old(inflight), due - rest)
        invariant changed <==> due - rest != {}
        decreases rest
      {
        var id :| id in rest;
        var g := grants[id];
        if (g.state == Active || g.state == Suspended || g.state == Pending) && g.Past(now) {
          state := state.(grants := state.grants[id := g.Become(Expired)]);
          Cancel(id);
          WithoutTwice(old(inflight), due - rest, id);
          changed := true;
          assert due - (rest - {id}) == (due - rest) + {id};
        } else {
          assert due - (rest - {id}) == due - rest;
        }
        rest := rest - {id};
      }
      assert due - rest == due;
      if !changed {
        assert state.grants == before.grants && inflight == old(inflight);
      }
    }

    /** Publishes the denial of everything past its time, then saves. */
    method Expire(now: int) returns (ok: bool, ghost w: Write)
      modifies this`state, this`inflight, store
      ensures View() == ExpireStep(old(View()), now, w) && ok == w.Saved?
    {
      hide Expires;
      ok, w := true, Saved;
      if disabled {
        return;
      }
      var changed := ExpireAll(now);
      if changed {
        ok, w := store.Save(state);
      }
    }

    method RecordOutput(o: Origin)
      modifies this`state
      ensures View() == RecordStep(old(View()), o)
    {
      if !disabled && o.grant in state.grants && state.grants[o.grant].revision == o.revision {
        state := state.(mirrors := state.mirrors[o.grant := state.MirrorOf(o.grant)]);
      }
    }
  }

  /** A topic may be had for the grant: it is pending, no creation is unresolved, and
      its topic exists or the intent to create it was saved. */
  ghost predicate Opens(d: Desk, id: Id, revision: nat, w: Write) {
    && d.At(id, revision) && d.st.grants[id].state == Pending
    && !(id in d.st.mirrors && d.st.mirrors[id].creating)
    && ((id in d.st.mirrors && d.st.mirrors[id].thread > 0) || w.Saved?)
  }

  /** The steps that opening takes: an intent, unless there is a topic, a request, and
      the activation or, without an answer, the mark that repair is needed. w and w'
      tell how the first and the last write went. */
  ghost predicate Opened(d: Desk, d': Desk, g: Grant, now: int, vouched: map<Key, Agent>, ok: bool,
                         w: Write, made: Option<nat>, serial: nat, w': Write) {
    var p := PrepareStep(d, g.id, g.revision, w);
    var q := IssueStep(p, g.id, g.revision, serial);
    if !Opens(d, g.id, g.revision, w) then !ok && d' == p
    else if p.st.MirrorOf(g.id).thread > 0 then
      d' == ActivateStep(p, g.id, g.revision, p.st.MirrorOf(g.id).thread, now, w') && (ok <==> w'.Saved?)
    else if made.Some? then
      made.value > 0 && d' == ActivateStep(q, g.id, g.revision, made.value, now, w') && (ok <==> w'.Saved?)
    else !ok && d' == ChangeStep(q, g.id, g.revision, NeedsRepair, now, vouched, w')
  }

  /** Opens and deletes the private topics of grants. Other operations may run
      between its calls; the run theorems allow for that. */
  class PrivateTopics {
    const sharing: Sharing

    constructor (sharing: Sharing)
      ensures this.sharing == sharing
    {
      this.sharing := sharing;
    }

    /** One create request: refused by its guard, answered with a topic, or
        anything else. */
    method CreateTopicAt(id: Id, revision: nat) returns (thread: Option<nat>, ghost serial: nat)
      requires Ticket(id, revision) in sharing.tickets
      modifies sharing`inflight, sharing`tickets, sharing`issued
      ensures sharing.View() == IssueStep(old(sharing.View()), id, revision, serial)
      ensures thread.Some? ==> thread.value > 0 && id in sharing.issued
    {
      var token: nat := *;
      serial := token;
      var admitted := sharing.Issue(id, revision, token);
      thread := None;
      var made: nat := *;
      if admitted && made > 0 {
        thread := Some(made);
      }
    }

    /** Asks for the topic under its saved intent. Without an answer the grant
        is left to the owner to repair. */
    method Request(g: Grant, now: int, vouched: map<Key, Agent>)
      returns (thread: Option<nat>, ghost serial: nat, ghost w: Write)
      requires Sound(sharing.View()) && Ticket(g.id, g.revision) in sharing.tickets
      modifies sharing`state, sharing`inflight, sharing`tickets, sharing`issued, sharing.store
      ensures Sound(sharing.View())
      ensures thread.Some? ==> thread.value > 0 && sharing.state == old(sharing.state)
      ensures var sent := IssueStep(old(sharing.View()), g.id, g.revision, serial);
        sharing.View() == if thread.Some? then sent else ChangeStep(sent, g.id, g.revision, NeedsRepair, now, vouched, w)
      ensures thread.None? && sharing.issued != old(sharing.issued) ==>
        g.id in sharing.state.grants && sharing.state.grants[g.id].state == NeedsRepair
    {
      hide Sound;
      ghost var prepared := sharing.View();
      assert TicketGood(prepared, Ticket(g.id, g.revision)) by {
        SoundTickets(prepared);
      }
      w := Saved;
      thread, serial := CreateTopicAt(g.id, g.revision);
      StepIssue(prepared, g.id, g.revision, serial);
      if thread.None? {
        ghost var sent := sharing.View();
        SoundName(sent, g.id);
        var changed;
        changed, w := sharing.ChangeState(g.id, g.revision, NeedsRepair, now, vouched);
        StepChange(sent, g.id, g.revision, NeedsRepair, now, vouched, w);
        assert sent.st == prepared.st && (sent.issued != prepared.issued ==> Binds(prepared, g.id, g.revision));
      }
    }

    /** Brings the private topic of a grant into being: intent, request, record. */
    method Open(g: Grant, now: int, vouched: map<Key, Agent>)
      returns (ok: bool, ghost w: Write, ghost made: Option<nat>, ghost serial: nat, ghost w': Write)
      requires Sound(sharing.View())
      modifies sharing`state, sharing`inflight, sharing`tickets, sharing`issued, sharing.store
      ensures Sound(sharing.View())
      ensures var live := g.key in vouched && vouched[g.key].key == g.key && vouched[g.key].status != Exited;
        if !live || g.state == Active then (ok <==> live) && sharing.View() == old(sharing.View())
        else Opened(old(sharing.View()), sharing.View(), g, now, vouched, ok, w, made, serial, w')
      ensures ok && g.state != Active ==>
        && old(sharing.View()).At(g.id, g.revision) && old(sharing.state.grants[g.id]).state == Pending
        && sharing.View().At(g.id, g.revision + 1) && sharing.state.grants[g.id].state == Active
        && sharing.state.MirrorOf(g.id).thread > 0 && !sharing.state.MirrorOf(g.id).creating
        && sharing.store.disk == sharing.state
    {
      hide Sound;
      ok, w, made, serial, w' := false, Saved, None, 0, Saved;
      if g.key !in vouched || vouched[g.key].key != g.key || !vouched[g.key].status.Live() {
        return;
      }
      if g.state == Active {
        ok := true;
        return;
      }
      var m;
      m, w := sharing.PrepareMirror(g.id, g.revision);
      StepPrepare(old(sharing.View()), g.id, g.revision, w);
      if m.None? {
        return;
      }
      var topic := m.value.thread;
      if topic == 0 {
        var answered;
        answered, serial, w' := Request(g, now, vouched);
        made := answered;
        if answered.None? {
          return;
        }
        topic := answered.value;
      }
      ghost var created := sharing.View();
      SoundName(created, g.id);
      ok, w' := sharing.ActivateMirror(g.id, g.revision, topic, now);
      StepActivate(created, g.id, g.revision, topic, now, w');
    }

    /** One delete request: refused by its guard, confirmed, or anything else. */
    method DeleteTopicAt(id: Id, revision: nat) returns (admitted: bool, confirmed: bool, ghost serial: nat)
      modifies sharing`inflight
      ensures admitted <==> Binds(old(sharing.View()), id, revision)
      ensures sharing.View() == BindStep(old(sharing.View()), id, revision, serial)
      ensures confirmed ==> admitted
    {
      var token: nat := *;
      serial := token;
      admitted := sharing.Bind(id, revision, token);
      confirmed := *;
      confirmed := confirmed && admitted;
    }

    /** Deletes the topic of an agent that left. Its grant is over for good before
        the request leaves, and the mirror is forgotten exactly when Telegram
        confirms the deletion. */
    method Retire(id: Id, revision: nat)
      returns (confirmed: bool, ghost retired: Desk, ghost w: Write, ghost w': Write, ghost serial: nat)
      requires Sound(sharing.View())
      modifies sharing`state, sharing`inflight, sharing`issued, sharing.store
      ensures Sound(sharing.View())
      ensures retired == RetireStep(old(sharing.View()), id, revision, w)
      ensures confirmed ==>
        && w.Saved? && id in retired.st.grants && retired.st.grants[id].state == Revoked
        && var rev := retired.st.grants[id].revision;
        Binds(retired, id, rev) && sharing.View() == ForgetStep(BindStep(retired, id, rev, serial), id, rev, w')
      ensures !confirmed ==>
        || sharing.View() == retired
        || (id in retired.st.grants && sharing.View() == BindStep(retired, id, retired.st.grants[id].revision, serial))
    {
      confirmed, w', serial := false, Saved, 0;
      hide Sound;
      SoundName(sharing.View(), id);
      var ok;
      ok, w := sharing.RetireMirror(id, revision);
      StepRetire(old(sharing.View()), id, revision, w);
      retired := sharing.View();
      if !ok {
        return;
      }
      var g := sharing.state.grants[id];
      var admitted;
      admitted, confirmed, serial := DeleteTopicAt(id, g.revision);
      StepBind(retired, id, g.revision, serial);
      if confirmed {
        ghost var bound := sharing.View();
        SoundName(bound, id);
        ok, w' := sharing.ForgetMirror(id, g.revision);
        StepForget(bound, id, g.revision, w');
      }
    }
  }
}
