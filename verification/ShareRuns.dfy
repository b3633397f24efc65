/** What every run of the sharing policy keeps: over any sequence of operations,
    with writes failing at will and processes dying anywhere. */
module ShareRuns {
  import opened Keys
  import opened Topics
  import opened SharePolicy

  // ---- the invariant ----

  /** k is a key the grant made for b may hold: pane and session never change,
      and without a session nothing does. */
  predicate SameSlot(b: Key, k: Key) {
    k.pane == b.pane && k.digest == b.digest && (b.digest == [] ==> k == b)
  }

  ghost predicate Identified(st: Policy, born: map<Id, Key>) {
    forall id <- st.grants :: id != "" && st.grants[id].id == id && id in born && SameSlot(born[id], st.grants[id].key)
  }

  /** Work admitted for a grant was admitted at its current revision, and the
      grant is active, unless a lifecycle change could not be saved. */
  predicate Fresh(st: Policy, t: Token) {
    && t.grant in st.grants
    && var g := st.grants[t.grant];
       t.revision == g.revision && (g.state == Active || (g.state == Suspended && g.cause == NotPersisted))
  }

  ghost predicate AllFresh(d: Desk) {
    forall t <- d.inflight | !t.binding :: Fresh(d.st, t)
  }

  /** A grant a creation request was sent for has a mirror, here and on disk. */
  ghost predicate Covered(d: Desk) {
    forall id <- d.issued :: d.st.Holds(id) && d.disk.Holds(id)
  }

  /** An unused intent of the current revision is still good: the grant waits
      for its topic, the intent is on disk and no request has left. */
  ghost predicate TicketGood(d: Desk, k: Ticket) {
    && k.grant in d.st.grants && k.revision <= d.st.grants[k.grant].revision
    && (k.revision == d.st.grants[k.grant].revision ==>
          && d.st.grants[k.grant].state == Pending && k.grant !in d.issued
          && d.st.MirrorOf(k.grant).creating && d.disk.MirrorOf(k.grant).creating)
  }

  ghost predicate TicketsGood(d: Desk) {
    forall k <- d.tickets :: TicketGood(d, k)
  }

  ghost predicate Sound(d: Desk) {
    && Identified(d.st, d.born) && Identified(d.disk, d.born)
    && AllFresh(d) && Covered(d) && TicketsGood(d)
  }

  /** What one step of one process may do to a grant. */
  predicate GrantKept(g: Grant, g': Grant) {
    g'.id == g.id && g'.recipient == g.recipient && g.revision <= g'.revision && SameSlot(g.key, g'.key)
  }

  ghost predicate Kept(d: Desk, d': Desk) {
    forall id <- d.st.grants :: id in d'.st.grants && GrantKept(d.st.grants[id], d'.st.grants[id])
  }

  /** A step may leave a grant alone or give it a new revision. Work in flight is
      cancelled unless there can be none; a revision is kept only by a change
      that cannot touch a grant waiting for its topic. */
  predicate Follow(g: Grant, g': Grant, cancelled: bool) {
    && GrantKept(g, g')
    && (|| g' == g
        || (g'.revision > g.revision && (cancelled || g.state == Pending || g.state == NeedsRepair))
        || (g'.revision == g.revision && g.state != Pending
            && (cancelled || (g'.state == Suspended && g'.cause == NotPersisted))))
  }

  ghost predicate Moves(d: Desk, d': Desk, cancelled: set<Id>) {
    && (forall id <- d.st.grants :: id in d'.st.grants && Follow(d.st.grants[id], d'.st.grants[id], id in cancelled))
    && (forall t <- d'.inflight :: t in d.inflight && t.grant !in cancelled)
    && d'.tickets <= d.tickets && d'.issued <= d.issued
    && (forall id <- d.born :: id in d'.born && d'.born[id] == d.born[id])
  }

  /** Only the mirror of id may differ, and then its grant no longer waits for
      the topic it was waiting for; written is what the step tried to save. */
  ghost predicate MirrorsMove(d: Desk, d': Desk, written: Policy, changed: set<Id>) {
    && (d'.disk == d.disk || d'.disk == written) && written.mirrors == d'.st.mirrors
    && (forall id | id !in changed :: d'.st.MirrorOf(id) == d.st.MirrorOf(id))
    && (forall id <- changed :: id in d.st.grants && id in d'.st.grants
          && (id in d'.issued ==> d'.st.Holds(id))
          && (d'.st.grants[id].revision > d.st.grants[id].revision || d.st.grants[id].state != Pending))
  }

  lemma MovesKeepFresh(d: Desk, d': Desk, cancelled: set<Id>)
    requires AllFresh(d) && Moves(d, d', cancelled)
    ensures AllFresh(d') && Kept(d, d')
  {
  }

  lemma MovesKeepMirrors(d: Desk, d': Desk, cancelled: set<Id>, written: Policy, changed: set<Id>)
    requires Covered(d) && TicketsGood(d) && Moves(d, d', cancelled) && MirrorsMove(d, d', written, changed)
    ensures Covered(d') && TicketsGood(d')
  {
    assert d'.disk == written ==> forall id :: d'.disk.MirrorOf(id) == d'.st.MirrorOf(id);
    forall k | k in d'.tickets ensures TicketGood(d', k) {
      assert TicketGood(d, k);
      assert Follow(d.st.grants[k.grant], d'.st.grants[k.grant], k.grant in cancelled);
    }
  }

  /** The common proof of all steps that change the policy. */
  lemma SoundMove(d: Desk, d': Desk, cancelled: set<Id>, written: Policy, changed: set<Id>)
    requires Sound(d) && Moves(d, d', cancelled) && MirrorsMove(d, d', written, changed)
    requires Identified(d'.st, d'.born) && Identified(written, d'.born)
    ensures Sound(d') && Kept(d, d')
  {
    hide MirrorsMove, AllFresh, Covered, TicketsGood;
    MovesKeepFresh(d, d', cancelled);
    MovesKeepMirrors(d, d', cancelled, written, changed);
    assert Identified(d'.disk, d'.born) by {
      if d'.disk == d.disk {
      } else {
        assert d'.disk == written by {
          MirrorsMoveDisk(d, d', written, changed);
        }
      }
    }
  }

  lemma MirrorsMoveDisk(d: Desk, d': Desk, written: Policy, changed: set<Id>)
    requires MirrorsMove(d, d', written, changed)
    ensures d'.disk == d.disk || d'.disk == written
  {
  }

  lemma IdentifiedWith(st: Policy, born: map<Id, Key>, g: Grant)
    requires Identified(st, born) && g.id != "" && g.id in born && SameSlot(born[g.id], g.key)
    ensures Identified(st.With(g), born)
  {
  }

  /** A step that changes one grant and perhaps its mirror. */
  ghost predicate ChangesOne(d: Desk, d': Desk, g: Grant, g': Grant, cancelled: bool) {
    && g.id in d.st.grants && d.st.grants[g.id] == g
    && d'.st.grants == d.st.grants[g.id := g'] && d'.tickets == d.tickets && d'.born == d.born
    && d'.inflight == (if cancelled then d.Cancel({g.id}).inflight else d.inflight)
    && Follow(g, g', cancelled)
  }

  ghost predicate MirrorOne(d: Desk, d': Desk, g: Grant, g': Grant, saved: Grant) {
    && (d'.disk == d.disk || (d'.disk.grants == d'.st.grants[g.id := saved] && d'.disk.mirrors == d'.st.mirrors))
    && saved.id == g.id && SameSlot(g.key, saved.key)
    && (|| (d'.st.mirrors == d.st.mirrors && d'.issued == d.issued)
        || (&& (forall id | id != g.id :: d'.st.MirrorOf(id) == d.st.MirrorOf(id))
            && (d'.issued == d.issued - {g.id} || (d'.issued == d.issued && d'.st.Holds(g.id)))
            && (g'.revision > g.revision || g.state != Pending)))
  }

  /** What the step tried to save. */
  ghost function Written(d: Desk, d': Desk, saved: Grant): Policy {
    if d'.disk == d.disk then d'.st.With(saved) else d'.disk
  }

  lemma OneMoves(d: Desk, d': Desk, g: Grant, g': Grant, cancelled: bool)
    requires ChangesOne(d, d', g, g', cancelled) && d'.issued <= d.issued
    ensures Moves(d, d', if cancelled then {g.id} else {})
  {
  }

  lemma OneMirror(d: Desk, d': Desk, g: Grant, g': Grant, saved: Grant, cancelled: bool)
    requires ChangesOne(d, d', g, g', cancelled) && MirrorOne(d, d', g, g', saved)
    ensures d'.issued <= d.issued
    ensures MirrorsMove(d, d', Written(d, d', saved),
                        if d'.st.mirrors == d.st.mirrors && d'.issued == d.issued then {} else {g.id})
  {
    hide SameSlot, Follow;
  }

  lemma OneIdentified(d: Desk, d': Desk, g: Grant, g': Grant, saved: Grant, cancelled: bool)
    requires Identified(d.st, d.born)
    requires ChangesOne(d, d', g, g', cancelled) && MirrorOne(d, d', g, g', saved)
    ensures Identified(d'.st, d'.born) && Identified(Written(d, d', saved), d'.born)
  {
    hide Identified;
    assert g.id != "" && g.id in d.born && SameSlot(d.born[g.id], g.key) && SameSlot(d.born[g.id], g'.key)
        && SameSlot(d.born[g.id], saved.key) && g'.id == g.id by {
      IdentifiedAt(d.st, d.born, g.id);
    }
    IdentifiedWith(d.st, d.born, g');
    IdentifiedWith(d.st, d.born, saved);
    IdentifiedGrants(d.st.With(g'), d'.st, d.born);
    IdentifiedGrants(d.st.With(saved), Written(d, d', saved), d.born);
  }

  lemma IdentifiedAt(st: Policy, born: map<Id, Key>, id: Id)
    requires Identified(st, born) && id in st.grants
    ensures id != "" && st.grants[id].id == id && id in born && SameSlot(born[id], st.grants[id].key)
  {
  }

  lemma IdentifiedGrants(st: Policy, st': Policy, born: map<Id, Key>)
    requires Identified(st, born) && st'.grants == st.grants
    ensures Identified(st', born)
  {
  }

  lemma SoundOne(d: Desk, d': Desk, g: Grant, g': Grant, saved: Grant, cancelled: bool)
    requires Sound(d) && ChangesOne(d, d', g, g', cancelled) && MirrorOne(d, d', g, g', saved)
    ensures Sound(d') && Kept(d, d')
  {
    OneIdentified(d, d', g, g', saved, cancelled);
    OneMirror(d, d', g, g', saved, cancelled);
    OneMoves(d, d', g, g', cancelled);
    hide *;
    SoundMove(d, d', if cancelled then {g.id} else {}, Written(d, d', saved),
              if d'.st.mirrors == d.st.mirrors && d'.issued == d.issued then {} else {g.id});
  }

  // ---- every operation keeps it ----

  lemma SameItself(g: Grant)
    ensures SameSlot(g.key, g.key)
  {
  }

  lemma StepRenew(d: Desk, r: Request, id: Id, now: int, w: Write)
    requires Sound(d) && id in d.st.grants && Matches(d.st.grants[id], r)
    ensures Sound(GrantStep(d, r, id, now, w)) && Kept(d, GrantStep(d, r, id, now, w))
  {
    var d' := GrantStep(d, r, id, now, w);
    if !GrantRefused(d, r, id) {
      var g, g' := d.st.grants[id], Granted(d, r, id, now);
      SoundName(d, id);
      assert g'.id == id && g'.recipient == g.recipient && g'.key == g.key && g'.revision == g.revision + 1;
      assert d'.st.grants[id] == if w.Saved? then g' else g'.(state := Suspended);
      hide Sound, Granted, GrantRefused;
      assert Follow(g, d'.st.grants[id], true);
      hide Follow, SameSlot;
      SameItself(g);
      SoundOne(d, d', g, d'.st.grants[id], g', true);
    }
  }

  lemma StepFirstGrant(d: Desk, r: Request, id: Id, now: int, w: Write)
    requires Sound(d) && id !in d.st.grants && Targets(d, r, id)
    ensures Sound(GrantStep(d, r, id, now, w)) && Kept(d, GrantStep(d, r, id, now, w))
  {
    var d' := GrantStep(d, r, id, now, w);
    if !GrantRefused(d, r, id) {
      var g := Granted(d, r, id, now);
      var written := d.st.(bot := r.bot).With(g);
      assert g.id == id && id != "" && g.key == r.key && id !in d.born;
      assert d'.disk == d.disk || d'.disk == written;
      assert d'.st == (if w.Saved? then written else d.st) && d'.born == d.born[id := r.key];
      assert d' == d.Cancel({id}).(st := d'.st, disk := d'.disk, born := d'.born);
      assert Identified(d.st, d.born);
      hide Sound, Kept, GrantStep, Granted, GrantRefused, Targets;
      SoundNew(d, d', g, written);
    }
  }

  lemma NewMoves(d: Desk, d': Desk, g: Grant, written: Policy)
    requires g.id !in d.st.grants && g.id !in d.born && written == d.st.(bot := written.bot).With(g)
    requires d'.st == written || d'.st == d.st
    requires d' == d.Cancel({g.id}).(st := d'.st, disk := d'.disk, born := d.born[g.id := g.key])
    ensures Moves(d, d', {g.id})
  {
    forall id | id in d.st.grants ensures id in d'.st.grants && d'.st.grants[id] == d.st.grants[id] {
    }
  }

  lemma SoundNew(d: Desk, d': Desk, g: Grant, written: Policy)
    requires Sound(d) && g.id !in d.st.grants && g.id !in d.born && g.id != ""
    requires written == d.st.(bot := written.bot).With(g)
    requires (d'.st == written || d'.st == d.st) && (d'.disk == d.disk || d'.disk == written)
    requires d' == d.Cancel({g.id}).(st := d'.st, disk := d'.disk, born := d.born[g.id := g.key])
    ensures Sound(d') && Kept(d, d')
  {
    assert Identified(d'.st, d'.born) && Identified(written, d'.born) by {
      hide AllFresh, Covered, TicketsGood;
      assert Identified(d.st, d'.born);
      IdentifiedWith(d.st, d'.born, g);
      IdentifiedGrants(d.st.With(g), written, d'.born);
    }
    hide Sound;
    assert Moves(d, d', {g.id}) by {
      hide SameSlot, Identified;
      NewMoves(d, d', g, written);
    }
    hide *;
    ManyMirrors(d, d', written);
    SoundMove(d, d', {g.id}, written, {});
  }

  lemma StepChange(d: Desk, id: Id, revision: nat, next: GrantState, now: int, vouched: map<Key, Agent>, w: Write)
    requires Sound(d)
    ensures var d' := ChangeStep(d, id, revision, next, now, vouched, w); Sound(d') && Kept(d, d')
  {
    var d' := ChangeStep(d, id, revision, next, now, vouched, w);
    if !ChangeRefused(d, id, revision, next, now, vouched) {
      var g, g' := d.st.grants[id], d.st.grants[id].Become(next).(cause := ByOwner);
      SoundName(d, id);
      hide Sound, ChangeRefused;
      assert Follow(g, d'.st.grants[id], true);
      hide Follow, SameSlot;
      SameItself(g);
      SoundOne(d, d', g, d'.st.grants[id], g', true);
    }
  }

  lemma StepBegin(d: Desk, o: Origin, action: Action, now: int, vouched: map<Key, Agent>, serial: nat)
    requires Sound(d)
    ensures var d' := BeginStep(d, o, action, now, vouched, serial); Sound(d') && Kept(d, d')
  {
    KeptSame(d);
  }

  lemma KeptSame(d: Desk)
    ensures Kept(d, d)
  {
  }

  lemma StepPrepare(d: Desk, id: Id, revision: nat, w: Write)
    requires Sound(d)
    ensures Sound(PrepareStep(d, id, revision, w)) && Kept(d, PrepareStep(d, id, revision, w))
  {
    KeptSame(d);
    var d' := PrepareStep(d, id, revision, w);
    if Prepares(d, id, revision) {
      IdentifiedGrants(d.st, d'.st, d.born);
      hide Identified, AllFresh;
      assert id !in d.issued;
      forall k | k in d'.tickets ensures TicketGood(d', k) {
        assert k in d.tickets ==> TicketGood(d, k);
      }
      assert AllFresh(d') by {
        FreshSame(d, d');
      }
    }
  }

  lemma FreshSame(d: Desk, d': Desk)
    requires AllFresh(d) && d'.st.grants == d.st.grants && d'.inflight == d.inflight
    ensures AllFresh(d')
  {
  }

  lemma StepIssue(d: Desk, id: Id, revision: nat, serial: nat)
    requires Sound(d)
    ensures Sound(IssueStep(d, id, revision, serial)) && Kept(d, IssueStep(d, id, revision, serial))
  {
    hide Identified;
    KeptSame(d);
  }

  lemma StepActivate(d: Desk, id: Id, revision: nat, thread: nat, now: int, w: Write)
    requires Sound(d) && thread > 0
    ensures var d' := ActivateStep(d, id, revision, thread, now, w); Sound(d') && Kept(d, d')
  {
    var d' := ActivateStep(d, id, revision, thread, now, w);
    if d.At(id, revision) && d.st.grants[id].state == Pending {
      var g, g' := d.st.grants[id], d.st.grants[id].Become(Active).(activatedAt := now);
      SoundName(d, id);
      hide Sound;
      assert d'.st.grants[id] == if w.Saved? then g' else g'.(state := NeedsRepair);
      assert Follow(g, d'.st.grants[id], false);
      hide Follow, SameSlot;
      SameItself(g);
      SoundOne(d, d', g, d'.st.grants[id], g', false);
    }
  }

  lemma StepDropped(d: Desk, g: Grant, g': Grant, cancelled: bool, w: Write)
    requires Sound(d) && g.id in d.st.grants && d.st.grants[g.id] == g && g.id == g'.id
    requires Follow(g, g', cancelled) && (g'.revision > g.revision || g.state != Pending)
    ensures var e := if cancelled then d.Cancel({g.id}) else d;
      Sound(Dropped(e, g', w)) && Kept(d, Dropped(e, g', w))
  {
    var d' := Dropped(if cancelled then d.Cancel({g.id}) else d, g', w);
    assert SameSlot(g.key, g'.key);
    hide Sound, Follow, Kept, SameSlot;
    SoundOne(d, d', g, g', g', cancelled);
  }

  lemma StepRepair(d: Desk, id: Id, revision: nat, w: Write)
    requires Sound(d)
    ensures Sound(RepairStep(d, id, revision, w)) && Kept(d, RepairStep(d, id, revision, w))
  {
    KeptSame(d);
    if Repairs(d, id, revision) {
      assert d.st.grants[id].id == id;
      hide Sound, Kept, Dropped;
      StepDropped(d, d.st.grants[id], d.st.grants[id].Become(Pending), false, w);
    }
  }

  lemma StepMissing(d: Desk, id: Id, revision: nat, w: Write)
    requires Sound(d)
    ensures Sound(MissingStep(d, id, revision, w)) && Kept(d, MissingStep(d, id, revision, w))
  {
    KeptSame(d);
    if Misses(d, id, revision) {
      assert d.st.grants[id].id == id;
      hide Sound, Kept, Dropped;
      StepDropped(d, d.st.grants[id], d.st.grants[id].Become(Pending), true, w);
    }
  }

  lemma StepForget(d: Desk, id: Id, revision: nat, w: Write)
    requires Sound(d)
    ensures Sound(ForgetStep(d, id, revision, w)) && Kept(d, ForgetStep(d, id, revision, w))
  {
    KeptSame(d);
    if Forgets(d, id, revision) {
      assert d.st.grants[id].id == id;
      hide Sound, Kept, Dropped;
      StepDropped(d, d.st.grants[id], d.st.grants[id], false, w);
    }
  }

  lemma StepRetire(d: Desk, id: Id, revision: nat, w: Write)
    requires Sound(d)
    ensures Sound(RetireStep(d, id, revision, w)) && Kept(d, RetireStep(d, id, revision, w))
  {
    KeptSame(d);
    var d' := RetireStep(d, id, revision, w);
    if d.At(id, revision) && (d.st.grants[id].cause == AgentExited || d.st.grants[id].cause == Retention) {
      var g := d.st.grants[id];
      assert g.id == id;
      hide Sound, Kept;
      SoundOne(d, d', g, d'.st.grants[id], d'.st.grants[id], true);
    }
  }

  /** A step that rewrites many grants at once and leaves the mirrors alone. */
  lemma SoundMany(d: Desk, d': Desk, cancelled: set<Id>, written: Policy)
    requires Sound(d) && written.mirrors == d'.st.mirrors == d.st.mirrors
    requires d' == d.(inflight := d.Cancel(cancelled).inflight, st := d'.st, disk := d'.disk)
    requires d'.disk == d.disk || d'.disk == written
    requires d'.st.grants.Keys == written.grants.Keys == d.st.grants.Keys
    requires forall id <- d.st.grants ::
               && Follow(d.st.grants[id], d'.st.grants[id], id in cancelled)
               && GrantKept(d.st.grants[id], written.grants[id])
    ensures Sound(d') && Kept(d, d')
  {
    assert Identified(d'.st, d.born) && Identified(written, d.born) by {
      hide AllFresh, Covered, TicketsGood;
    }
    assert Moves(d, d', cancelled) by {
      hide Sound, GrantKept;
    }
    hide *;
    hide Identified;
    ManyMirrors(d, d', written);
    SoundMove(d, d', cancelled, written, {});
  }

  lemma ManyMirrors(d: Desk, d': Desk, written: Policy)
    requires written.mirrors == d'.st.mirrors == d.st.mirrors && (d'.disk == d.disk || d'.disk == written)
    ensures MirrorsMove(d, d', written, {})
  {
  }

  lemma FollowsFollow(g: Grant, gone: bool, key: Key, now: int, process: nat)
    ensures var g' := Followed(g, gone, key, now, process);
      var moved := InPlay(g, key.pane) && Follows(g, gone, key, now, process).Some?;
      && GrantKept(g, g') && Follow(g, g', moved)
      && (InPlay(g, key.pane) ==> Follow(g, g'.(state := Suspended, cause := NotPersisted), moved))
  {
  }

  ghost function WrittenBy(d: Desk, gone: bool, key: Key, now: int): Policy {
    d.st.(grants := map id | id in d.st.grants :: Followed(d.st.grants[id], gone, key, now, d.process))
  }

  /** What an agent event does to the grants, one by one. */
  lemma LifecycleGrants(d: Desk, gone: bool, key: Key, now: int, w: Write)
    requires !d.disabled && d.bot == d.st.bot && Moved(d, gone, key, now) != {}
    ensures var d', written := LifecycleStep(d, gone, key, now, w), WrittenBy(d, gone, key, now);
      && d'.st.grants.Keys == written.grants.Keys == d.st.grants.Keys
      && forall id <- d.st.grants ::
           && Follow(d.st.grants[id], d'.st.grants[id], id in Moved(d, gone, key, now))
           && GrantKept(d.st.grants[id], written.grants[id])
  {
    hide Follows, Follow, GrantKept;
    forall id | id in d.st.grants
      ensures Follow(d.st.grants[id], LifecycleStep(d, gone, key, now, w).st.grants[id], id in Moved(d, gone, key, now))
      ensures GrantKept(d.st.grants[id], WrittenBy(d, gone, key, now).grants[id])
    {
      hide Followed, InPlay;
      FollowsFollow(d.st.grants[id], gone, key, now, d.process);
    }
  }

  lemma LifecycleShape(d: Desk, gone: bool, key: Key, now: int, w: Write)
    requires !d.disabled && d.bot == d.st.bot && Moved(d, gone, key, now) != {}
    ensures var d', written := LifecycleStep(d, gone, key, now, w), WrittenBy(d, gone, key, now);
      && written.mirrors == d'.st.mirrors == d.st.mirrors && (d'.disk == d.disk || d'.disk == written)
      && d' == d.(inflight := d.Cancel(Moved(d, gone, key, now)).inflight, st := d'.st, disk := d'.disk)
  {
    hide Followed, InPlay, Moved;
  }

  lemma StepLifecycle(d: Desk, gone: bool, key: Key, now: int, w: Write)
    requires Sound(d)
    ensures Sound(LifecycleStep(d, gone, key, now, w)) && Kept(d, LifecycleStep(d, gone, key, now, w))
  {
    KeptSame(d);
    hide Sound, Kept, Moved;
    if !d.disabled && d.bot == d.st.bot && Moved(d, gone, key, now) != {} {
      LifecycleGrants(d, gone, key, now, w);
      LifecycleShape(d, gone, key, now, w);
      hide LifecycleStep, WrittenBy, Follow, GrantKept;
      SoundMany(d, LifecycleStep(d, gone, key, now, w), Moved(d, gone, key, now), WrittenBy(d, gone, key, now));
    }
  }

  lemma StepExpire(d: Desk, now: int, w: Write)
    requires Sound(d)
    ensures Sound(ExpireStep(d, now, w)) && Kept(d, ExpireStep(d, now, w))
  {
    KeptSame(d);
    var d' := ExpireStep(d, now, w);
    var due := set id | id in d.st.grants && Expires(d.st.grants[id], now);
    if !d.disabled && due != {} {
      hide Sound, Kept;
      SoundMany(d, d', due, d'.st);
    }
  }

  lemma StepRecord(d: Desk, o: Origin)
    requires Sound(d)
    ensures Sound(RecordStep(d, o)) && Kept(d, RecordStep(d, o))
  {
  }

  lemma StepFlush(d: Desk, w: Write)
    requires Sound(d)
    ensures Sound(FlushStep(d, w)) && Kept(d, FlushStep(d, w))
  {
    KeptSame(d);
  }

  /** A restart keeps the grants' identities and the record of what was sent; it
      forgets the work in flight and may go back to older revisions. */
  lemma StepRestart(d: Desk, process: nat, loaded: bool)
    requires Sound(d)
    ensures Sound(RestartStep(d, process, loaded))
  {
    hide SameSlot;
  }

  // ---- over whole runs ----

  lemma StepSound(d: Desk, op: Op)
    requires Sound(d)
    ensures Sound(Step(d, op)) && (op.DoRestart? || Kept(d, Step(d, op)))
  {
    hide Sound, Kept, GrantStep, ChangeStep, BeginStep, BindStep, PrepareStep, IssueStep, ActivateStep;
    hide RepairStep, MissingStep, ForgetStep, RetireStep, LifecycleStep, ExpireStep, RecordStep, RestartStep, Targets;
    KeptSame(d);
    match op
    case DoGrant(r, id, now, w) =>
      if Targets(d, r, id) {
        if id in d.st.grants {
          TargetMatches(d, r, id);
          StepRenew(d, r, id, now, w);
        } else {
          StepFirstGrant(d, r, id, now, w);
        }
      }
    case DoChange(id, revision, next, now, vouched, w) => StepChange(d, id, revision, next, now, vouched, w);
    case DoBegin(o, action, now, vouched, serial) => StepBegin(d, o, action, now, vouched, serial);
    case DoRelease(token) => StepRelease(d, token);
    case DoBind(id, revision, serial) => StepBind(d, id, revision, serial);
    case DoPrepare(id, revision, w) => StepPrepare(d, id, revision, w);
    case DoIssue(id, revision, serial) => StepIssue(d, id, revision, serial);
    case DoActivate(id, revision, thread, now, w) => if thread > 0 { StepActivate(d, id, revision, thread, now, w); }
    case DoRepair(id, revision, w) => StepRepair(d, id, revision, w);
    case DoMissing(id, revision, w) => StepMissing(d, id, revision, w);
    case DoForget(id, revision, w) => StepForget(d, id, revision, w);
    case DoRetire(id, revision, w) => StepRetire(d, id, revision, w);
    case DoLifecycle(gone, key, now, w) => StepLifecycle(d, gone, key, now, w);
    case DoExpire(now, w) => StepExpire(d, now, w);
    case DoRecord(o) => StepRecord(d, o);
    case DoFlush(w) => StepFlush(d, w);
    case DoRestart(process, loaded) => StepRestart(d, process, loaded);
  }

  lemma TargetMatches(d: Desk, r: Request, id: Id)
    requires Targets(d, r, id) && id in d.st.grants
    ensures Matches(d.st.grants[id], r)
  {
  }

  lemma StepRelease(d: Desk, token: Token)
    requires Sound(d)
    ensures var d' := d.(inflight := d.inflight - {token}); Sound(d') && Kept(d, d')
  {
    KeptSame(d);
  }

  lemma StepBind(d: Desk, id: Id, revision: nat, serial: nat)
    requires Sound(d)
    ensures Sound(BindStep(d, id, revision, serial)) && Kept(d, BindStep(d, id, revision, serial))
  {
    KeptSame(d);
  }

  lemma {:induction false} RunSound(d: Desk, ops: seq<Op>)
    requires Sound(d)
    ensures Sound(Run(d, ops))
    decreases |ops|
  {
    hide Sound, Step;
    if ops != [] {
      StepSound(d, ops[0]);
      RunSound(Step(d, ops[0]), ops[1..]);
    }
  }

  /** Whatever happened, a dispatch that was admitted and neither finished nor
      cancelled was admitted at its grant's present revision, and that grant is
      active unless the change that suspended it could not be saved. */
  lemma NoStaleDispatch(d: Desk, ops: seq<Op>, t: Token)
    requires Sound(d) && t in Run(d, ops).inflight && !t.binding
    ensures Fresh(Run(d, ops).st, t)
  {
    RunSound(d, ops);
  }

  /** The event changes other grants of the pane but not g, and cannot be saved. */
  ghost predicate SuspendsUncancelled(d: Desk, g: Grant, op: Op) {
    && op.DoLifecycle? && !op.w.Saved? && !d.disabled && d.bot == d.st.bot
    && Moved(d, op.gone, op.key, op.now) != {}
    && InPlay(g, op.key.pane) && Follows(g, op.gone, op.key, op.now, d.process).None?
  }

  /** The step leaves t's grant alone or cancels t. */
  predicate WorkKept(d: Desk, d': Desk, t: Token)
    requires t.grant in d.st.grants
  {
    t.grant in d'.st.grants && (t in d'.inflight ==> d'.st.grants[t.grant] == d.st.grants[t.grant])
  }

  lemma WorkGrant(d: Desk, r: Request, id: Id, now: int, w: Write, t: Token)
    requires Named(d.st) && t.grant in d.st.grants
    ensures WorkKept(d, GrantStep(d, r, id, now, w), t)
  {
    hide GrantRefused;
  }

  lemma WorkChange(d: Desk, id: Id, revision: nat, next: GrantState, now: int,
                   vouched: map<Key, Agent>, w: Write, t: Token)
    requires Named(d.st) && t.grant in d.st.grants
    ensures WorkKept(d, ChangeStep(d, id, revision, next, now, vouched, w), t)
  {
    hide MayBecome;
  }

  lemma WorkMirrors(d: Desk, id: Id, revision: nat, w: Write, t: Token)
    requires Named(d.st) && Fresh(d.st, t)
    ensures WorkKept(d, PrepareStep(d, id, revision, w), t) && WorkKept(d, RepairStep(d, id, revision, w), t)
    ensures WorkKept(d, ForgetStep(d, id, revision, w), t)
  {
  }

  lemma WorkEnds(d: Desk, id: Id, revision: nat, w: Write, t: Token)
    requires Named(d.st) && Fresh(d.st, t)
    ensures WorkKept(d, MissingStep(d, id, revision, w), t) && WorkKept(d, RetireStep(d, id, revision, w), t)
  {
  }

  lemma WorkOthers(d: Desk, op: Op, t: Token)
    requires t.grant in d.st.grants
    requires op.DoBegin? || op.DoRelease? || op.DoBind? || op.DoIssue? || op.DoRecord? || op.DoFlush?
    ensures WorkKept(d, Step(d, op), t)
  {
    hide Decide;
  }

  lemma WorkActivate(d: Desk, id: Id, revision: nat, thread: nat, now: int, w: Write, t: Token)
    requires Named(d.st) && Fresh(d.st, t)
    ensures WorkKept(d, ActivateStep(d, id, revision, thread, now, w), t)
  {
  }

  lemma WorkExpire(d: Desk, now: int, w: Write, t: Token)
    requires t.grant in d.st.grants
    ensures WorkKept(d, ExpireStep(d, now, w), t)
  {
  }

  lemma WorkLifecycle(d: Desk, gone: bool, key: Key, now: int, w: Write, t: Token)
    requires t in d.inflight && Fresh(d.st, t)
    ensures !WorkKept(d, LifecycleStep(d, gone, key, now, w), t)
            <==> SuspendsUncancelled(d, d.st.grants[t.grant], DoLifecycle(gone, key, now, w))
    ensures t.grant in LifecycleStep(d, gone, key, now, w).st.grants
  {
    hide Follows;
  }

  /** Every step of a process that changes a grant cancels the work admitted under
      it, except exactly those. */
  lemma ChangeWithoutCancel(d: Desk, op: Op, t: Token)
    requires Sound(d) && t in d.inflight && !t.binding && !op.DoRestart?
    ensures t.grant in d.st.grants && t.grant in Step(d, op).st.grants
    ensures var g := d.st.grants[t.grant];
      t in Step(d, op).inflight && Step(d, op).st.grants[t.grant] != g <==> SuspendsUncancelled(d, g, op)
  {
    SoundName(d, t.grant);
    assert Fresh(d.st, t);
    hide Sound, Fresh, SuspendsUncancelled, Decide, LifecycleStep, GrantStep, ChangeStep, Targets, ExpireStep, PrepareStep;
    hide RepairStep, MissingStep, ForgetStep, RetireStep, ActivateStep, GrantRefused, BeginStep, BindStep, IssueStep;
    hide RecordStep, FlushStep;
    OnlyLifecycleSuspends(d, op, t);
    match op {
      case DoExpire(now, w) => WorkExpire(d, now, w, t);
      case DoPrepare(id, revision, w) => WorkMirrors(d, id, revision, w, t);
      case DoRepair(id, revision, w) => WorkMirrors(d, id, revision, w, t);
      case DoMissing(id, revision, w) => WorkEnds(d, id, revision, w, t);
      case DoForget(id, revision, w) => WorkMirrors(d, id, revision, w, t);
      case DoRetire(id, revision, w) => WorkEnds(d, id, revision, w, t);
      case DoActivate(id, revision, thread, now, w) => WorkActivate(d, id, revision, thread, now, w, t);
      case DoLifecycle(gone, key, now, w) => WorkLifecycle(d, gone, key, now, w, t);
      case DoGrant(r, id, now, w) => WorkGrant(d, r, id, now, w, t);
      case DoChange(id, revision, next, now, vouched, w) => WorkChange(d, id, revision, next, now, vouched, w, t);
      case _ => WorkOthers(d, op, t);
    }
  }

  lemma OnlyLifecycleSuspends(d: Desk, op: Op, t: Token)
    requires Fresh(d.st, t)
    ensures t.grant in d.st.grants
    ensures SuspendsUncancelled(d, d.st.grants[t.grant], op) ==> op.DoLifecycle?
  {
  }

  /** Two grants of one pane: a new session moves the grant of the old one while
      the other grant already has its key. The write fails, and the second grant is
      suspended with its work still running. */
  lemma FailedSaveKeepsWork()
    ensures var old_, new_ := Key(['p'], ['t'], ['x']), Key(['p'], ['u'], ['x']);
      var rights := Rights(Read, false, false, false);
      var a := Grant("a", 1, old_, 1, Active, NoCause, rights, None, None, 0, 1);
      var b := a.(id := "b", recipient := 2, key := new_);
      var st := Policy(9, map["a" := a, "b" := b], map[]);
      var t := Token(0, "b", 1, false);
      var d := Desk(9, false, 1, st, st, {t}, map["a" := old_, "b" := new_], {}, {});
      var d' := Step(d, DoLifecycle(false, new_, 5, Lost));
      && Sound(d) && t in d'.inflight && "b" in d'.st.grants
      && d'.st.grants["b"].state == Suspended && d'.st.grants["b"].revision == 1
  {
    var old_, new_: Key := Key(['p'], ['t'], ['x']), Key(['p'], ['u'], ['x']);
    var rights := Rights(Read, false, false, false);
    var a := Grant("a", 1, old_, 1, Active, NoCause, rights, None, None, 0, 1);
    var b := a.(id := "b", recipient := 2, key := new_);
    var st := Policy(9, map["a" := a, "b" := b], map[]);
    var d := Desk(9, false, 1, st, st, {Token(0, "b", 1, false)}, map["a" := old_, "b" := new_], {}, {});
    assert "a" in Moved(d, false, new_, 5);
    assert "b" !in Moved(d, false, new_, 5);
  }

  /** Within one process grants never vanish, revisions never decrease, and the
      pane and session of a grant, and the whole key of one without a session,
      never change. */
  lemma {:induction false} RunKept(d: Desk, ops: seq<Op>)
    requires Sound(d) && forall op <- ops :: !op.DoRestart?
    ensures Kept(d, Run(d, ops))
    decreases |ops|
  {
    hide Sound, Step;
    if ops == [] {
      KeptSame(d);
    } else {
      StepSound(d, ops[0]);
      RunKept(Step(d, ops[0]), ops[1..]);
    }
  }

  lemma BornStep(d: Desk, op: Op)
    ensures forall id <- d.born :: id in Step(d, op).born && Step(d, op).born[id] == d.born[id]
  {
    hide GrantRefused, Granted, ChangeStep, BeginStep, LifecycleStep, ExpireStep;
    ChangeKeepsRecords(d, op);
  }

  /** Only a grant request gives a grant its identity; only an issued request, a
      repair, a loss or a confirmed deletion changes what is known to be sent. */
  lemma ChangeKeepsRecords(d: Desk, op: Op)
    ensures op.DoChange? || op.DoBegin? || op.DoLifecycle? || op.DoExpire? ==>
              Step(d, op).born == d.born && Step(d, op).issued == d.issued
  {
  }

  lemma {:induction false} BornRun(d: Desk, ops: seq<Op>)
    ensures forall id <- d.born :: id in Run(d, ops).born && Run(d, ops).born[id] == d.born[id]
    decreases |ops|
  {
    hide Step;
    if ops != [] {
      BornStep(d, ops[0]);
      BornRun(Step(d, ops[0]), ops[1..]);
    }
  }

  /** A grant means the same agent session for ever, across restarts too. */
  lemma IdentityForever(d: Desk, ops: seq<Op>, id: Id)
    requires Sound(d) && id in d.st.grants && id in Run(d, ops).st.grants
    ensures var k, k' := d.st.grants[id].key, Run(d, ops).st.grants[id].key;
      k'.pane == k.pane && k'.digest == k.digest && (k.digest == [] ==> k' == k)
  {
    hide Run;
    RunSound(d, ops);
    BornRun(d, ops);
  }

  // ---- access that was taken away ----

  /** The operations that reopen a denied grant: one that the program accepts as a
      new owner grant, or as an explicit change to pending. */
  ghost predicate Reopens(d: Desk, op: Op, id: Id) {
    match op
    case DoGrant(r, target, _, _) => target == id && Targets(d, r, id) && !GrantRefused(d, r, id)
    case DoChange(target, revision, next, _, _, _) => target == id && next == Pending && d.At(id, revision)
    case _ => false
  }

  predicate DeniedAt(d: Desk, id: Id) {
    id in d.st.grants && d.st.grants[id].state in {Revoked, Expired}
  }

  lemma DeniedLifecycle(d: Desk, gone: bool, key: Key, now: int, w: Write, id: Id)
    requires DeniedAt(d, id)
    ensures DeniedAt(LifecycleStep(d, gone, key, now, w), id)
  {
    hide Follows;
  }

  lemma DeniedGrant(d: Desk, r: Request, target: Id, now: int, w: Write, id: Id)
    requires Named(d.st) && DeniedAt(d, id)
    ensures DeniedAt(GrantStep(d, r, target, now, w), id) <==> target != id || GrantRefused(d, r, id)
  {
    hide GrantRefused;
  }

  lemma DeniedChange(d: Desk, target: Id, revision: nat, next: GrantState, now: int,
                     vouched: map<Key, Agent>, w: Write, id: Id)
    requires Named(d.st) && DeniedAt(d, id)
    ensures DeniedAt(ChangeStep(d, target, revision, next, now, vouched, w), id) <==>
      target != id || next != Pending || !d.At(id, revision)
  {
  }

  lemma DeniedExpire(d: Desk, now: int, w: Write, id: Id)
    requires DeniedAt(d, id)
    ensures DeniedAt(ExpireStep(d, now, w), id)
  {
  }

  lemma DeniedMirrors(d: Desk, target: Id, revision: nat, w: Write, id: Id)
    requires Named(d.st) && DeniedAt(d, id)
    ensures DeniedAt(PrepareStep(d, target, revision, w), id) && DeniedAt(RepairStep(d, target, revision, w), id)
    ensures DeniedAt(MissingStep(d, target, revision, w), id) && DeniedAt(ForgetStep(d, target, revision, w), id)
    ensures DeniedAt(RetireStep(d, target, revision, w), id)
  {
  }

  lemma DeniedActivate(d: Desk, target: Id, revision: nat, thread: nat, now: int, w: Write, id: Id)
    requires Named(d.st) && DeniedAt(d, id)
    ensures DeniedAt(ActivateStep(d, target, revision, thread, now, w), id)
  {
  }

  lemma DeniedOthers(d: Desk, op: Op, id: Id)
    requires DeniedAt(d, id)
    requires op.DoBegin? || op.DoRelease? || op.DoBind? || op.DoIssue? || op.DoRecord? || op.DoFlush?
    ensures DeniedAt(Step(d, op), id)
  {
    hide Decide;
  }

  /** One step of a process ends a denial exactly when it reopens the grant. */
  lemma DeniedStep(d: Desk, op: Op, id: Id)
    requires Sound(d) && DeniedAt(d, id) && !op.DoRestart?
    ensures !DeniedAt(Step(d, op), id) <==> Reopens(d, op, id)
  {
    SoundName(d, id);
    hide Sound, Decide, LifecycleStep, GrantStep, ChangeStep, Targets, ExpireStep, PrepareStep, RepairStep, MissingStep;
    hide ForgetStep, RetireStep, ActivateStep, GrantRefused, BeginStep, BindStep, IssueStep, RecordStep, FlushStep;
    match op {
      case DoExpire(now, w) => DeniedExpire(d, now, w, id);
      case DoPrepare(target, revision, w) => DeniedMirrors(d, target, revision, w, id);
      case DoRepair(target, revision, w) => DeniedMirrors(d, target, revision, w, id);
      case DoMissing(target, revision, w) => DeniedMirrors(d, target, revision, w, id);
      case DoForget(target, revision, w) => DeniedMirrors(d, target, revision, w, id);
      case DoRetire(target, revision, w) => DeniedMirrors(d, target, revision, w, id);
      case DoActivate(target, revision, thread, now, w) =>
        DeniedActivate(d, target, revision, thread, now, w, id);
      case DoLifecycle(gone, key, now, w) => DeniedLifecycle(d, gone, key, now, w, id);
      case DoGrant(r, target, now, w) => DeniedGrant(d, r, target, now, w, id);
      case DoChange(target, revision, next, now, vouched, w) =>
        DeniedChange(d, target, revision, next, now, vouched, w, id);
      case _ => DeniedOthers(d, op, id);
    }
  }

  /** Some operation of the run reopens the grant in the state it meets. */
  ghost predicate Reopened(d: Desk, ops: seq<Op>, id: Id)
    decreases |ops|
  {
    ops != [] && (Reopens(d, ops[0], id) || Reopened(Step(d, ops[0]), ops[1..], id))
  }

  ghost predicate DeniedThroughout(d: Desk, ops: seq<Op>, id: Id)
    decreases |ops|
  {
    DeniedAt(d, id) && (ops == [] || DeniedThroughout(Step(d, ops[0]), ops[1..], id))
  }

  /** Within a process, even when no write succeeds, denied is denied at every moment
      of a run exactly when nothing in it reopens the grant. */
  lemma {:induction false} DeniedExactly(d: Desk, ops: seq<Op>, id: Id)
    requires Sound(d) && DeniedAt(d, id) && forall op <- ops :: !op.DoRestart?
    ensures DeniedThroughout(d, ops, id) <==> !Reopened(d, ops, id)
    decreases |ops|
  {
    hide Sound, Step, Reopens, DeniedAt;
    if ops != [] {
      StepSound(d, ops[0]);
      DeniedStep(d, ops[0], id);
      if DeniedAt(Step(d, ops[0]), id) {
        DeniedExactly(Step(d, ops[0]), ops[1..], id);
      } else {
        ThroughoutStarts(Step(d, ops[0]), ops[1..], id);
      }
    }
  }

  lemma ThroughoutStarts(d: Desk, ops: seq<Op>, id: Id)
    ensures DeniedThroughout(d, ops, id) ==> DeniedAt(d, id)
  {
  }

  lemma {:induction false} ThroughoutEnds(d: Desk, ops: seq<Op>, id: Id)
    requires DeniedThroughout(d, ops, id)
    ensures DeniedAt(Run(d, ops), id)
    decreases |ops|
  {
    hide Step, DeniedAt;
    if ops != [] {
      ThroughoutEnds(Step(d, ops[0]), ops[1..], id);
    }
  }

  /** So a revoked or expired grant is still denied after any run that accepts
      neither a new owner grant for it nor a change of it to pending. */
  lemma DeniedStays(d: Desk, ops: seq<Op>, id: Id)
    requires Sound(d) && DeniedAt(d, id)
    requires (forall op <- ops :: !op.DoRestart?) && !Reopened(d, ops, id)
    ensures DeniedAt(Run(d, ops), id)
  {
    hide Sound, DeniedAt, Reopened, DeniedThroughout;
    DeniedExactly(d, ops, id);
    ThroughoutEnds(d, ops, id);
  }

  /** The second exception is real: any denied grant becomes active without a new
      owner grant once it was set to pending and its mirror is activated. */
  lemma PendingReopens(d: Desk, id: Id, now: int, thread: nat)
    requires Sound(d) && !d.disabled && DeniedAt(d, id) && thread > 0
    ensures var r := d.st.grants[id].revision;
      var ops := [DoChange(id, r, Pending, now, map[], Saved), DoActivate(id, r + 1, thread, now, Saved)];
      id in Run(d, ops).st.grants && Run(d, ops).st.grants[id].state == Active && forall op <- ops :: !op.DoGrant?
  {
    var g := d.st.grants[id];
    assert g.id == id;
    var change := DoChange(id, g.revision, Pending, now, map[], Saved);
    var activate := DoActivate(id, g.revision + 1, thread, now, Saved);
    assert Step(d, change).st.grants[id] == g.Become(Pending).(cause := ByOwner);
    assert [change, activate][1..] == [activate] && [activate][1..] == [];
    assert Run(d, [change, activate]) == Run(Step(d, change), [activate]) == Step(Step(d, change), activate);
  }

  // ---- one request per private topic ----

  predicate Releases(d: Desk, op: Op, id: Id) {
    match op
    case DoRepair(target, revision, _) => target == id && Repairs(d, id, revision)
    case DoMissing(target, revision, _) => target == id && Misses(d, id, revision)
    case DoForget(target, revision, _) => target == id && Forgets(d, id, revision)
    case _ => false
  }

  predicate Sends(d: Desk, op: Op, id: Id) {
    op.DoIssue? && op.id == id && Issues(d, id, op.revision)
  }

  ghost function Sent(d: Desk, ops: seq<Op>, id: Id): nat
    decreases |ops|
  {
    if ops == [] then 0 else (if Sends(d, ops[0], id) then 1 else 0) + Sent(Step(d, ops[0]), ops[1..], id)
  }

  ghost function Released(d: Desk, ops: seq<Op>, id: Id): nat
    decreases |ops|
  {
    if ops == [] then 0 else (if Releases(d, ops[0], id) then 1 else 0) + Released(Step(d, ops[0]), ops[1..], id)
  }

  lemma IssuedStep(d: Desk, op: Op, id: Id)
    requires Sound(d)
    ensures Sends(d, op, id) ==> id !in d.issued && id in Step(d, op).issued && !Releases(d, op, id)
    ensures !Sends(d, op, id) && !Releases(d, op, id) ==> (id in Step(d, op).issued <==> id in d.issued)
  {
    if Sends(d, op, id) {
      assert TicketGood(d, Ticket(id, op.revision));
    }
    hide Sound, ChangeRefused, GrantRefused, Granted, Decide, Moved, Followed, Targets;
    ChangeKeepsRecords(d, op);
  }

  /** Over every run, with any crashes and failed writes, creation requests for a
      grant never outnumber its owner repairs, confirmed losses and confirmed
      deletions by more than the first one. */
  lemma {:induction false} RequestsBounded(d: Desk, ops: seq<Op>, id: Id)
    requires Sound(d)
    ensures Sent(d, ops, id) <= Released(d, ops, id) + if id in d.issued then 0 else 1
    decreases |ops|
  {
    hide Sound, Step, Sends, Releases;
    if ops != [] {
      StepSound(d, ops[0]);
      IssuedStep(d, ops[0], id);
      RequestsBounded(Step(d, ops[0]), ops[1..], id);
    }
  }

  /** A request leaves only when its intent is on disk, for a grant that still
      waits for its topic, and the record of it survives a crash. */
  lemma IntentFirst(d: Desk, id: Id, revision: nat, serial: nat, process: nat, loaded: bool)
    requires Sound(d) && Issues(d, id, revision)
    ensures d.disk.MirrorOf(id).creating && d.st.grants[id].state == Pending
    ensures var after := RestartStep(IssueStep(d, id, revision, serial), process, loaded);
      forall r: nat :: !Prepares(after, id, r)
  {
    assert TicketGood(d, Ticket(id, revision));
  }

  /** Every policy file whose grants carry their own names is a sound start. */
  lemma StartSound(bot: int, process: nat, file: Policy)
    requires forall id <- file.grants :: id != "" && file.grants[id].id == id
    ensures Sound(Desk(bot, false, process, file, file, {}, map id | id in file.grants :: file.grants[id].key, {}, {}))
  {
  }

  lemma SoundTickets(d: Desk)
    requires Sound(d)
    ensures TicketsGood(d)
  {
  }

  lemma SoundName(d: Desk, id: Id)
    requires Sound(d)
    ensures Named(d.st) && (id in d.st.grants ==> d.st.grants[id].id == id && id in d.born)
  {
  }

  /** Every grant is stored under its own name. */
  ghost predicate Named(st: Policy) {
    forall id <- st.grants :: id != "" && st.grants[id].id == id
  }
}
