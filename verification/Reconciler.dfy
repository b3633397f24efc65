/** The single writer of forum topics. Its methods follow the program step by
    step; each of them keeps the mapping in memory and the mapping on disk
    guarded (see World), whatever the calls and writes it makes answer. */
module Reconciler {
  import opened Keys
  import opened Topics
  import opened Reassociation
  import opened Planning
  import opened Mapping
  import opened World
  import opened TopicRules
  import opened Sorting
  import opened Agreement

  /** Only the last answer of a sweep may have ended it. */
  ghost predicate EndsWith(answers: seq<Outcome>, err: Error) {
    && err in {NoError, SaveFailed, CallFailed}
    && (forall i | 0 <= i < |answers| - 1 :: answers[i] != Forbidden && answers[i] != Cancelled)
    && (err == CallFailed <==> answers != [] && answers[|answers| - 1] == Cancelled)
  }

  ghost predicate GoesOn(answers: seq<Outcome>) {
    forall r <- answers :: r != Forbidden && r != Cancelled
  }

  lemma NothingAnswered()
    ensures EndsWith([], NoError) && GoesOn([])
  {
  }

  lemma Answered(answers: seq<Outcome>, r: Outcome, err: Error)
    requires GoesOn(answers) && err in {NoError, SaveFailed, CallFailed} && (err == CallFailed <==> r == Cancelled)
    ensures EndsWith(answers + [r], err) && (r != Forbidden && r != Cancelled ==> GoesOn(answers + [r]))
  {
    forall i | 0 <= i < |answers| ensures (answers + [r])[i] in answers {
    }
  }

  datatype EventKind = Appeared | Changed | AgentGone
  datatype Event = Event(kind: EventKind, agent: Agent)

  class Reconciler {
    const world: World
    const mapping: Mapping
    var agents: map<Key, Agent>
    var rightsLost: bool
    var paused: bool
    var quiet: bool
    var force: bool
    var dirty: bool

    ghost function Mem(): Snapshot
      reads mapping
    {
      Snapshot(mapping.topics, mapping.pending)
    }

    ghost predicate Valid()
      reads this, mapping, world
    {
      && world.Valid() && world.CanStore(Mem())
      && Agreed(world.existing, world.screen, mapping.topics)
      && (forall k <- agents :: agents[k].key == k)
    }

    predicate Blocked()
      reads this
    {
      rightsLost || paused || quiet
    }

    /** No time runs backwards: effects are only ever added. */
    twostate predicate Onward()
      reads world
    {
      |old(world.log)| <= |world.log| && old(world.saves) <= world.saves && old(world.faults) <= world.faults
    }

    /** And nothing becomes unsure but by a request that is not accepted. */
    twostate predicate Later()
      reads world
    {
      && Onward() && OnlyRefusals(old(world.screen), world.screen)
      && (world.faults == old(world.faults) ==> NoNewDoubt(old(world.screen), world.screen))
    }

    /** What failed is what is reported, and nothing was tried after it; but when a
        creation was rejected and its intent cannot be taken back, that is reported. */
    twostate predicate Reported(err: Error)
      reads world
    {
      if err == SaveFailed || err == CallFailed || err == OutcomeUnknown then
        world.last == err && (world.errors == old(world.errors) + 1 || (err == SaveFailed && world.errors == old(world.errors) + 2))
      else world.errors == old(world.errors)
    }

    /** An entry whose topic is gone is dropped; any other refusal leaves it alone. */
    twostate predicate Dropped(key: Key, r: Outcome)
      reads mapping
    {
      r != Accepted ==> mapping.topics == if r == Gone then old(mapping.topics) - {String(key)} else old(mapping.topics)
    }

    /** Nothing was sent, written or changed. */
    twostate predicate Idle()
      reads world, mapping
    {
      && world.log == old(world.log) && world.saves == old(world.saves)
      && mapping.topics == old(mapping.topics) && mapping.pending == old(mapping.pending)
    }

    constructor (world: World)
      requires world.Valid() && Agreed(world.existing, world.screen, world.disk.topics)
      ensures Valid() && this.world == world && fresh(mapping)
      ensures mapping.topics == world.disk.topics && mapping.pending == world.disk.pending
      ensures agents == map[] && !rightsLost && !paused && !quiet && !force && !dirty
    {
      this.world := world;
      this.mapping := new Mapping(world.disk.topics, world.disk.pending);
      agents, rightsLost, paused, quiet, force, dirty := map[], false, false, false, false, false;
    }

    /** Changing an entry without touching its thread keeps memory storable. */
    ghost method CanStoreUpdate(before: Table, s: Text)
      requires world.Valid() && world.CanStore(Snapshot(before, mapping.pending))
      requires s in before && s in mapping.topics && mapping.topics == before[s := mapping.topics[s]]
      requires mapping.topics[s].thread == before[s].thread && OpenWhileLive(mapping.topics)
      ensures world.CanStore(Mem())
    {
      hide Guarded, Threads, OpenWhileLive;
      ThreadsUpdate(before, s, mapping.topics[s]);
      GuardedSameThreads(world.existing, world.creator, Snapshot(before, mapping.pending), Mem());
    }

    /** An operator did something to parts of a topic. */
    ghost method Operated(thread: int, parts: set<Part>)
      requires Valid()
      modifies world`screen
      ensures Valid() && world.screen.unsure == old(world.screen.unsure) + parts
      ensures world.screen.causes == old(world.screen.causes).(operated := old(world.screen.causes.operated) + parts)
    {
      hide Guarded, Threads, OpenWhileLive, Agreed;
      ghost var screen := world.screen;
      world.Meddle(thread, parts);
      AgreedMeddled(world.existing, screen, world.screen, mapping.topics, thread, parts);
    }

    /** A mute is lifted over a status that was never sent. */
    ghost method Lifted(thread: int)
      requires Valid()
      modifies world`screen
      ensures Valid() && world.screen.unsure == old(world.screen.unsure) + {Icon(thread)}
      ensures world.screen.causes == old(world.screen.causes).(lifted := old(world.screen.causes.lifted) + {thread})
    {
      hide Guarded, Threads, OpenWhileLive, Agreed;
      ghost var screen := world.screen;
      world.Lift(thread);
      AgreedDoubted(world.existing, screen, world.screen, mapping.topics);
    }

    method Save() returns (err: Error)
      requires Valid()
      modifies this`dirty, world
      ensures world.Noted(err)
      ensures Valid() && Later()
      ensures world.existing == old(world.existing)
      ensures world.creator == old(world.creator) && world.log == old(world.log) && world.screen == old(world.screen)
      ensures err == NoError || err == SaveFailed
      ensures err == NoError ==> world.disk == Mem() && world.faults == old(world.faults)
      ensures err == SaveFailed ==> world.faults > old(world.faults)
      ensures dirty == (err == SaveFailed)
    {
      var ok := world.Save(Snapshot(mapping.topics, mapping.pending));
      dirty := !ok;
      err := if ok then NoError else SaveFailed;
    }

    method PersistPending() returns (err: Error)
      requires Valid()
      modifies this`dirty, world
      ensures world.Noted(err)
      ensures Valid() && Later()
      ensures world.log == old(world.log)
      ensures err == NoError || err == SaveFailed
      ensures err == SaveFailed ==> world.faults > old(world.faults)
      ensures err == NoError ==> !dirty
      ensures !old(dirty) ==> err == NoError && Idle()
    {
      err := NoError;
      if dirty {
        err := Save();
      }
    }

    /** Gone topics are forgotten, refusals that concern the whole bot and cancelled
        calls are reported, the rest is left to the next pass. */
    method Fail(key: Key, r: Outcome) returns (err: Error)
      requires Valid() && r != Accepted
      requires r == Gone && String(key) in mapping.topics ==> mapping.topics[String(key)].thread !in world.existing
      modifies this`dirty, mapping`topics, world
      ensures if err == SaveFailed then world.last == err && world.errors == old(world.errors) + 1
              else world.last == old(world.last) && world.errors == old(world.errors)
      ensures Valid() && Later() && world.log == old(world.log) && world.screen == old(world.screen)
      ensures r == Gone ==> mapping.topics == old(mapping.topics) - {String(key)} && (err == NoError || err == SaveFailed)
      ensures r == Gone && err == NoError ==> world.disk == Mem()
      ensures r != Gone ==>
        && mapping.topics == old(mapping.topics) && world.saves == old(world.saves)
        && err == if r in {Forbidden, Fatal, Cancelled} then CallFailed else NoError
    {
      hide String, ParseKey, Threads, Guarded, OpenWhileLive, Agreed;
      err := NoError;
      if r == Gone {
        DropGone(key);
        err := Save();
      } else if r in {Forbidden, Fatal, Cancelled} {
        err := CallFailed;
      }
    }

    /** Forgets an entry, if there is one, whose topic Telegram no longer has. */
    method DropGone(key: Key)
      requires Valid()
      requires String(key) in mapping.topics ==> mapping.topics[String(key)].thread !in world.existing
      modifies mapping`topics
      ensures Valid() && mapping.topics == old(mapping.topics) - {String(key)}
    {
      hide String, ParseKey, Guarded, Threads, Agreed, Looks, Alone, Told;
      ThreadsForget(mapping.topics, String(key), world.existing);
      GuardedSameThreads(world.existing, world.creator, Mem(), Snapshot(mapping.topics - {String(key)}, mapping.pending));
      AgreedFewer(world.existing, world.existing, world.screen, mapping.topics, mapping.topics - {String(key)});
      mapping.Forget(key);
    }

    /** One request about an existing entry, which says so once it is accepted. */
    method Tell(key: Key, req: Request) returns (r: Outcome)
      requires Valid() && String(key) in mapping.topics
      requires req.EditTopic? || req.CloseTopic? || req.ReopenTopic?
      requires req.thread == mapping.topics[String(key)].thread
      requires var e := Recorded(mapping.topics[String(key)], req); e.status.Live() ==> !e.closed
      modifies mapping`topics, world
      ensures world.Noted(if r == Forbidden || r == Fatal || r == Cancelled then CallFailed else NoError)
      ensures Valid() && Later() && world.log == old(world.log) + [req] && world.saves == old(world.saves)
      ensures world.faults == old(world.faults) + if r == Accepted then 0 else 1
      ensures r == Gone ==> req.thread !in world.existing
      ensures r != Accepted ==>
        mapping.topics == old(mapping.topics) && world.screen.unsure == old(world.screen.unsure) + Told(req)
      ensures r == Accepted ==>
        && OnlyAt(old(mapping.topics), mapping.topics, String(key))
        && mapping.topics[String(key)] ==
           Recorded(old(mapping.topics)[String(key)], req).(updatedAt := mapping.topics[String(key)].updatedAt)
        && world.screen.unsure ==
           old(world.screen.unsure) - if Alone(old(mapping.topics), String(key)) then Told(req) else {}
    {
      hide String, ParseKey, Guarded, Threads, Agreed, Told, Alone, Recorded, OpenWhileLive, Looks;
      ghost var m, existing, screen := mapping.topics, world.existing, world.screen;
      var e := mapping.topics[String(key)];
      r := world.Touch(req, Alone(m, String(key)));
      GuardedFewer(existing, world.existing, world.creator, Mem());
      if r != Accepted {
        AgreedRefused(existing, world.existing, screen, world.screen, m, req);
        return;
      }
      var now := world.Now();
      mapping.Update(key, Recorded(e, req), now);
      OpenUpdate(m, String(key), mapping.topics[String(key)]);
      CanStoreUpdate(m, String(key));
      AgreedTold(existing, world.existing, screen, world.screen, m, String(key), req, mapping.topics[String(key)]);
    }

    /** Asks for a new topic under a durable intent. A second request for the
        same agent is refused while the first is unresolved. */
    method CreateTopic(a: Agent) returns (err: Error)
      requires Valid() && String(a.key) !in mapping.topics
      modifies this`dirty, mapping, world
      ensures Reported(err)
      ensures Valid() && Later()
      ensures String(a.key) in old(mapping.pending) ==> err == UnresolvedIntent && Idle() && dirty == old(dirty)
      ensures String(a.key) !in old(mapping.pending) && world.faults == old(world.faults) ==>
        err == NoError && Served(old(mapping.topics), mapping.topics, a) && !dirty
      ensures world.log == old(world.log) || world.log == old(world.log) + [AskTopic(DesiredName(a), a.status)]
      ensures String(a.key) !in old(mapping.pending) && world.faults == old(world.faults) ==> world.log != old(world.log)
      ensures mapping.pending == old(mapping.pending) + if err == OutcomeUnknown then {String(a.key)} else {}
      ensures world.log == old(world.log) || err in {UnresolvedIntent, OutcomeUnknown, CallFailed} ==>
        mapping.topics == old(mapping.topics)
      ensures err == NoError ==> world.disk == Mem()
      ensures err == NoError || mapping.topics != old(mapping.topics) ==>
        && String(a.key) in mapping.topics
        && mapping.topics == old(mapping.topics)[String(a.key) := mapping.topics[String(a.key)]]
        && mapping.topics[String(a.key)].thread !in Threads(old(mapping.topics))
      ensures err == NoError ==>
        var t := mapping.topics[String(a.key)].thread;
        Icon(t) !in world.screen.unsure && Name(t) !in world.screen.unsure && LinkedFor(mapping.topics[String(a.key)], a)
    {
      hide String, ParseKey, Threads, Guarded, Orphans, Served, OpenWhileLive, Agreed;
      var key := String(a.key);
      if key in mapping.pending {
        assert mapping.pending + {} == mapping.pending;
        return UnresolvedIntent;
      }
      ghost var before, existing, creator := Mem(), world.existing, world.creator;
      IntentCovers(existing, creator, before, key);
      GuardedSameThreads(existing, creator, before, Snapshot(before.topics, before.pending + {key}));
      mapping.pending := mapping.pending + {key};
      var saved := Save();
      if saved != NoError {
        mapping.pending := mapping.pending - {key};
        assert mapping.pending == before.pending;
        return saved;
      }
      err := AskForTopic(a, before);
    }

    /** The request itself, with the intent on disk. */
    method AskForTopic(a: Agent, ghost before: Snapshot) returns (err: Error)
      requires Valid() && String(a.key) !in mapping.topics && String(a.key) !in before.pending
      requires Mem() == Snapshot(before.topics, before.pending + {String(a.key)}) && world.disk == Mem() && !dirty
      requires forall u <- Orphans(world.existing, world.creator, Mem()) :: world.creator[u] != String(a.key)
      modifies this`dirty, mapping, world
      ensures Reported(err)
      ensures Valid() && Later()
      ensures world.faults == old(world.faults) ==> err == NoError && Served(before.topics, mapping.topics, a) && !dirty
      ensures world.log == old(world.log) + [AskTopic(DesiredName(a), a.status)]
      ensures mapping.pending == before.pending + if err == OutcomeUnknown then {String(a.key)} else {}
      ensures err in {OutcomeUnknown, CallFailed} ==> mapping.topics == before.topics
      ensures err != UnresolvedIntent && (err == NoError ==> world.disk == Mem())
      ensures err == NoError || mapping.topics != before.topics ==>
        && String(a.key) in mapping.topics && mapping.topics == before.topics[String(a.key) := mapping.topics[String(a.key)]]
        && mapping.topics[String(a.key)].thread !in Threads(before.topics)
      ensures err == NoError ==>
        var t := mapping.topics[String(a.key)].thread;
        Icon(t) !in world.screen.unsure && Name(t) !in world.screen.unsure && LinkedFor(mapping.topics[String(a.key)], a)
    {
      hide String, ParseKey, Threads, Guarded, Orphans, Served, OpenWhileLive, Agreed;
      hide Accounted, AllSent, Alone, Told, Looks;
      var key := String(a.key);
      ghost var existing, creator, used, screen := world.existing, world.creator, world.used, world.screen;
      assert before.pending + {key} - {key} == before.pending;
      ghost var asked := Mem();
      var r;
      ghost var made;
      r, made := world.CreateTopic(key, DesiredName(a), a.status);
      AgreedMade(existing, world.existing, used, screen, world.screen, before.topics, made);
      match r {
        case Rejected =>
          OrphansFewer(existing, world.existing, creator, asked, key);
          GuardedWithoutIntent(world.existing, world.creator, asked, key);
          mapping.pending := mapping.pending - {key};
          var saved := Save();
          if saved != NoError {
            return saved;
          }
          err := Fail(a.key, Fatal);
        case Unanswered =>
          err := OutcomeUnknown;
        case Made(thread, name) =>
          var now := world.Now();
          OrphansNew(existing, world.existing, creator, asked, key, thread);
          mapping.Link(a, thread, name, false, now);
          LooksAsMade(world.existing, world.screen, mapping.topics[key]);
          AgreedLink(world.existing, used, world.screen, before.topics, key, mapping.topics[key]);
          ThreadsLink(before.topics, key, mapping.topics[key]);
          LinkedOpen(before.topics, mapping.topics, key);
          GuardedLink(world.existing, world.creator, asked, key, thread, mapping.topics);
          mapping.pending := mapping.pending - {key};
          err := Save();
          if world.faults == old(world.faults) {
            ServedByLink(before.topics, mapping.topics, a);
          }
      }
    }

    /** Records a change to an existing entry and writes the mapping: what the
        program's Apply, Mark... and mute operations do, followed by save. */
    method Record(k: Key, e: TopicEntry) returns (err: Error)
      requires Valid() && String(k) in mapping.topics && e.thread == mapping.topics[String(k)].thread
      requires (e.status.Live() ==> !e.closed) && Looks(world.existing, world.screen, e)
      modifies this`dirty, mapping`topics, world
      ensures world.Noted(err)
      ensures Valid() && Later() && world.log == old(world.log) && world.existing == old(world.existing)
      ensures world.screen == old(world.screen)
      ensures OnlyAt(old(mapping.topics), mapping.topics, String(k))
      ensures mapping.topics[String(k)] == e.(updatedAt := mapping.topics[String(k)].updatedAt)
      ensures err == NoError || err == SaveFailed
      ensures err == NoError ==> world.faults == old(world.faults) && !dirty
      ensures err == SaveFailed ==> world.faults > old(world.faults)
    {
      hide String, ParseKey, Guarded, Threads, Agreed, Looks, OpenWhileLive, Alone, Told;
      var now := world.Now();
      ghost var before := mapping.topics;
      mapping.Update(k, e, now);
      OpenUpdate(before, String(k), mapping.topics[String(k)]);
      CanStoreUpdate(before, String(k));
      LooksTime(world.existing, world.screen, e, mapping.topics[String(k)]);
      AgreedUpdate(world.existing, world.screen, before, String(k), mapping.topics[String(k)]);
      err := Save();
    }

    method Close(key: Key) returns (err: Error, ghost r: Outcome)
      requires Valid() && (String(key) in mapping.topics ==> !mapping.topics[String(key)].status.Live())
      modifies this`dirty, mapping`topics, world
      ensures Dropped(key, r)
      ensures Reported(err)
      ensures Valid() && Later()
      ensures forall s <- mapping.topics ::
                s in old(mapping.topics) && mapping.topics[s].status == old(mapping.topics)[s].status
      ensures String(key) in old(mapping.topics) && !Blocked() && world.faults == old(world.faults) ==>
        err == NoError && Finished(old(mapping.topics), mapping.topics, String(key)) && (dirty ==> old(dirty))
      ensures world.log == old(world.log) +
        if String(key) in old(mapping.topics) && !Blocked() then CloseRequests(old(mapping.topics)[String(key)]) else []
      ensures String(key) in old(mapping.topics) && Alone(old(mapping.topics), String(key)) && !old(mapping.topics)[String(key)].closed
              && !Blocked() && world.faults == old(world.faults) ==>
        Door(old(mapping.topics)[String(key)].thread) !in world.screen.unsure
    {
      hide String, ParseKey, Guarded, Threads, Agreed, OpenWhileLive, Alone, Told, Looks;
      if String(key) !in mapping.topics || mapping.topics[String(key)].closed || Blocked() {
        return NoError, Accepted;
      }
      ToldBy(mapping.topics[String(key)].thread, None, None);
      var answer := Tell(key, CloseTopic(mapping.topics[String(key)].thread));
      r := answer;
      if answer != Accepted {
        err := Fail(key, answer);
      } else {
        err := Save();
      }
    }

    /** Marks the topic finished and closes it; a muted one is only recorded. */
    method Exit(key: Key) returns (err: Error)
      requires Valid()
      modifies this`dirty, mapping`topics, world
      ensures Reported(err)
      ensures Valid() && Later()
      ensures String(key) in old(mapping.topics) && !Blocked() && world.faults == old(world.faults) ==>
        err == NoError && Finished(old(mapping.topics), mapping.topics, String(key)) && (dirty ==> old(dirty))
      ensures String(key) !in old(mapping.topics) || Blocked() ==> world.log == old(world.log)
      ensures String(key) in old(mapping.topics) && !Blocked() ==>
        var wanted := ExitRequests(old(mapping.topics)[String(key)]);
        world.log <= old(world.log) + wanted && (world.faults == old(world.faults) ==> world.log == old(world.log) + wanted)
    {
      hide String, ParseKey, Guarded, Threads, Agreed, Looks, Alone, Told;
      if String(key) !in mapping.topics || Blocked() {
        return NoError;
      }
      var e := mapping.topics[String(key)];
      if e.muted {
        LooksAt(world.existing, world.screen, mapping.topics, String(key));
        LooksMuted(world.existing, world.screen, e, e.(status := Exited, closed := true));
        err := Record(key, e.(status := Exited, closed := true));
        return;
      }
      if e.status.Live() {
        var done;
        ghost var r;
        done, err, r := Flag(key);
        if !done {
          return;
        }
      }
      ghost var r;
      err, r := Close(key);
    }

    /** Writes the finished icon; done says that it was accepted and recorded. */
    method Flag(key: Key) returns (done: bool, err: Error, ghost r: Outcome)
      requires Valid() && String(key) in mapping.topics
      modifies this`dirty, mapping`topics, world
      ensures Dropped(key, r)
      ensures Reported(err)
      ensures Valid() && Later() && (done ==> err == NoError)
      ensures world.log == old(world.log) + [FinishRequest(old(mapping.topics)[String(key)])]
      ensures world.faults == old(world.faults) ==> done && !dirty
      ensures done ==>
        && OnlyAt(old(mapping.topics), mapping.topics, String(key))
        && mapping.topics[String(key)] ==
           old(mapping.topics)[String(key)].(status := Exited, updatedAt := mapping.topics[String(key)].updatedAt)
      ensures done && Alone(old(mapping.topics), String(key)) ==> Icon(old(mapping.topics)[String(key)].thread) !in world.screen.unsure
    {
      hide String, ParseKey, Guarded, Threads, Agreed, Looks, Alone, Told;
      done := false;
      ToldBy(mapping.topics[String(key)].thread, None, Some(Exited));
      var answer := Tell(key, EditTopic(mapping.topics[String(key)].thread, None, Some(Exited)));
      r := answer;
      if answer != Accepted {
        err := Fail(key, answer);
        return;
      }
      err := Save();
      done := err == NoError;
    }

    /** Continues a returning agent in its finished topic; only a topic that no
        longer exists is replaced. */
    method Revive(a: Agent) returns (err: Error, ghost gone: bool)
      requires Valid() && String(a.key) in mapping.topics
      modifies this`dirty, mapping, world
      ensures Reported(err)
      ensures Valid() && Later()
      ensures old(mapping.topics[String(a.key)].muted) ==> err == NoError && Idle() && dirty == old(dirty)
      ensures world.faults == old(world.faults) ==>
        err == NoError && Served(old(mapping.topics), mapping.topics, a) && mapping.pending == old(mapping.pending)
        && (dirty ==> old(dirty))
      ensures world.faults == old(world.faults) ==>
        world.log == old(world.log) + ReviveRequests(old(mapping.topics)[String(a.key)], a)
      ensures !old(mapping.topics)[String(a.key)].muted && world.faults == old(world.faults)
              && Alone(old(mapping.topics), String(a.key)) ==>
        Icon(old(mapping.topics)[String(a.key)].thread) !in world.screen.unsure
      ensures gone && err == NoError ==> Replaced(old(mapping.topics), mapping.topics, a)
      ensures gone && world.faults == old(world.faults) + 1 ==>
        err == if String(a.key) in old(mapping.pending) then UnresolvedIntent else NoError
      ensures world.faults == old(world.faults) && !old(mapping.topics)[String(a.key)].muted ==> world.log != old(world.log)
    {
      hide String, ParseKey, Guarded, Threads, Served, Agreed, Looks, Alone, Told;
      var key := a.key;
      var e := mapping.topics[String(key)];
      if e.muted {
        ServedIfShown(mapping.topics, a);
        return NoError, false;
      }
      if e.closed {
        var unlocked;
        unlocked, err, gone := Unlock(a);
        if !unlocked {
          return;
        }
      }
      ghost var reopened := mapping.topics;
      if e.closed {
        AloneStill(old(mapping.topics), reopened, String(key));
      }
      err, gone := Refresh(a);
      if e.closed {
        SameOthers(old(mapping.topics), reopened, mapping.topics, a);
        if world.faults == old(world.faults) {
          ServedOn(old(mapping.topics), reopened, mapping.topics, a);
        }
      }
    }

    /** Asks for a closed topic to be opened; one that is gone is replaced. */
    method Unlock(a: Agent) returns (unlocked: bool, err: Error, ghost gone: bool)
      requires Valid() && String(a.key) in mapping.topics
      modifies this`dirty, mapping, world
      ensures Reported(err)
      ensures Valid() && Later()
      ensures unlocked ==>
        && OnlyAt(old(mapping.topics), mapping.topics, String(a.key))
        && mapping.topics[String(a.key)] ==
           old(mapping.topics)[String(a.key)].(closed := false, updatedAt := mapping.topics[String(a.key)].updatedAt)
        && err == NoError && world.faults == old(world.faults) && dirty == old(dirty) && mapping.pending == old(mapping.pending)
        && world.log == old(world.log) + [ReopenTopic(old(mapping.topics)[String(a.key)].thread)]
      ensures !unlocked ==> world.faults > old(world.faults)
      ensures gone ==> !unlocked
      ensures gone && err == NoError ==> Replaced(old(mapping.topics), mapping.topics, a)
      ensures gone && world.faults == old(world.faults) + 1 ==>
        err == if String(a.key) in old(mapping.pending) then UnresolvedIntent else NoError
    {
      hide String, ParseKey, Guarded, Threads, Served, Agreed, Looks, Alone, Told;
      err, gone := NoError, false;
      var r := Tell(a.key, ReopenTopic(mapping.topics[String(a.key)].thread));
      unlocked := r == Accepted;
      if r == Gone {
        gone := true;
        DropGone(a.key);
        err := CreateTopic(a);
      } else if r != Accepted {
        err := Fail(a.key, r);
      }
    }

    /** The second half of Revive, once the topic is open again. */
    method Refresh(a: Agent) returns (err: Error, ghost gone: bool)
      requires Valid() && String(a.key) in mapping.topics
      requires !mapping.topics[String(a.key)].muted && !mapping.topics[String(a.key)].closed
      modifies this`dirty, mapping, world
      ensures Reported(err)
      ensures Valid() && Later()
      ensures world.faults == old(world.faults) ==>
        err == NoError && Served(old(mapping.topics), mapping.topics, a) && mapping.pending == old(mapping.pending)
        && (dirty ==> old(dirty))
      ensures world.faults == old(world.faults) ==>
        world.log == old(world.log) + [ShowRequest(old(mapping.topics)[String(a.key)], a)]
      ensures world.faults == old(world.faults) && Alone(old(mapping.topics), String(a.key)) ==>
        Icon(old(mapping.topics)[String(a.key)].thread) !in world.screen.unsure
      ensures gone && err == NoError ==> Replaced(old(mapping.topics), mapping.topics, a)
      ensures gone && world.faults == old(world.faults) + 1 ==>
        err == if String(a.key) in old(mapping.pending) then UnresolvedIntent else NoError
    {
      hide String, ParseKey, Guarded, Threads, Served, Agreed, Looks, Alone, Told;
      var key := a.key;
      ghost var before := mapping.topics;
      LooksAt(world.existing, world.screen, before, String(key));
      err := Record(key, mapping.topics[String(key)].(closed := false));
      if err != NoError {
        return err, false;
      }
      ghost var recorded := mapping.topics;
      AloneStill(before, recorded, String(key));
      ghost var r;
      err, r := Show(a);
      gone := r == Gone;
      SameOthers(before, recorded, mapping.topics, a);
      if world.faults == old(world.faults) {
        ServedOn(before, recorded, mapping.topics, a);
      }
    }

    /** A topic that Telegram no longer has is forgotten and replaced. */
    method Recreate(a: Agent) returns (err: Error)
      requires Valid() && String(a.key) in mapping.topics
      requires mapping.topics[String(a.key)].thread !in world.existing
      modifies this`dirty, mapping, world
      ensures Reported(err)
      ensures Valid() && Later()
      ensures err == NoError ==>
        && Replaced(old(mapping.topics), mapping.topics, a)
        && world.log == old(world.log) + [AskTopic(DesiredName(a), a.status)]
      ensures world.faults == old(world.faults) ==>
        err == if String(a.key) in old(mapping.pending) then UnresolvedIntent else NoError
    {
      hide String, ParseKey, Guarded, Threads, Agreed, Looks, Served;
      DropGone(a.key);
      err := Save();
      if err == NoError {
        err := CreateTopic(a);
      }
    }

    /** The entry still says finished, so the status is always sent. */
    method Show(a: Agent) returns (err: Error, ghost r: Outcome)
      requires Valid() && String(a.key) in mapping.topics
      requires !mapping.topics[String(a.key)].muted && !mapping.topics[String(a.key)].closed
      modifies this`dirty, mapping, world
      ensures Reported(err)
      ensures Valid() && Later()
      ensures world.faults == old(world.faults) ==>
        err == NoError && Served(old(mapping.topics), mapping.topics, a) && mapping.pending == old(mapping.pending) && !dirty
      ensures world.faults == old(world.faults) ==>
        world.log == old(world.log) + [ShowRequest(old(mapping.topics)[String(a.key)], a)]
      ensures world.faults == old(world.faults) && Alone(old(mapping.topics), String(a.key)) ==>
        Icon(old(mapping.topics)[String(a.key)].thread) !in world.screen.unsure
      ensures r == Gone && err == NoError ==>
        && Replaced(old(mapping.topics), mapping.topics, a)
        && world.log == old(world.log) + [ShowRequest(old(mapping.topics)[String(a.key)], a), AskTopic(DesiredName(a), a.status)]
      ensures r == Gone && world.faults == old(world.faults) + 1 ==>
        err == if String(a.key) in old(mapping.pending) then UnresolvedIntent else NoError
    {
      hide String, ParseKey, Guarded, Threads, Served, Agreed, Looks, Alone, Told, OpenWhileLive;
      var key := a.key;
      var e := mapping.topics[String(key)];
      var name := if DesiredName(a) != e.name then Some(DesiredName(a)) else None;
      ToldBy(e.thread, name, Some(a.status));
      var answer := Tell(key, EditTopic(e.thread, name, Some(a.status)));
      r := answer;
      if answer == Gone {
        err := Recreate(a);
      } else if answer != Accepted {
        err := Fail(key, answer);
      } else {
        err := Save();
        ServedByEdit(old(mapping.topics), mapping.topics, a);
      }
    }

    /** Gives an agent without a running topic one, unless writes are paused. */
    method Create(a: Agent) returns (err: Error)
      requires Valid() && (String(a.key) in mapping.topics ==> !mapping.topics[String(a.key)].status.Live())
      modifies this`dirty, mapping, world
      ensures Reported(err)
      ensures Valid() && Later()
      ensures Blocked() ==> err == NoError && Idle()
      ensures !Blocked() && String(a.key) !in old(mapping.topics) && String(a.key) in old(mapping.pending) ==>
        err == UnresolvedIntent && Idle() && dirty == old(dirty)
      ensures String(a.key) in old(mapping.topics) && old(mapping.topics)[String(a.key)].muted ==>
        err == NoError && Idle() && dirty == old(dirty)
      ensures !Blocked() && world.faults == old(world.faults)
              && (String(a.key) in old(mapping.pending) ==> String(a.key) in old(mapping.topics)) ==>
        err == NoError && Served(old(mapping.topics), mapping.topics, a) && mapping.pending == old(mapping.pending)
        && (dirty ==> old(dirty))
      ensures !Blocked() && world.faults == old(world.faults) && String(a.key) in mapping.topics
              && (String(a.key) in old(mapping.topics) ==> Alone(old(mapping.topics), String(a.key)))
              && (String(a.key) in old(mapping.pending) ==> String(a.key) in old(mapping.topics))
              && mapping.topics[String(a.key)].status.Live() ==>
        && Icon(mapping.topics[String(a.key)].thread) !in world.screen.unsure
        && (String(a.key) !in old(mapping.topics) ==> Name(mapping.topics[String(a.key)].thread) !in world.screen.unsure)
      ensures rightsLost || paused || quiet ==> world.log == old(world.log)
    {
      hide String, ParseKey, Guarded, Threads, Served, Agreed, Looks, Alone, Told;
      if Blocked() {
        return NoError;
      }
      if String(a.key) in mapping.topics {
        ghost var gone;
        err, gone := Revive(a);
        ServedThread(old(mapping.topics), mapping.topics, a);
      } else {
        err := CreateTopic(a);
      }
    }

    /** Sends the difference between the agent and what was last written; with
        force, sends everything again. */
    method Edit(key: Key) returns (err: Error)
      requires Valid()
      modifies this`dirty, mapping, world
      ensures Reported(err)
      ensures Valid() && Later()
      ensures key !in agents ==> err == NoError && Idle()
      ensures key in agents && String(key) in old(mapping.topics) && !force
              && Shown(old(mapping.topics)[String(key)], agents[key]) ==>
        err == NoError && Idle() && dirty == old(dirty)
      ensures key in agents && String(key) in old(mapping.topics) && old(mapping.topics)[String(key)].status.Live()
              && !Blocked() && world.faults == old(world.faults) ==>
        err == NoError && Served(old(mapping.topics), mapping.topics, agents[key])
        && mapping.pending == old(mapping.pending) && (dirty ==> old(dirty))
      ensures key in agents && String(key) in old(mapping.topics) ==>
        world.log == old(world.log) +
          if Blocked() then [] else EditRequests(old(mapping.topics)[String(key)], agents[key], force)
      ensures force && key in agents && String(key) in old(mapping.topics) && old(mapping.topics)[String(key)].status.Live()
              && Alone(old(mapping.topics), String(key)) && !Blocked() && world.faults == old(world.faults) ==>
        var t := old(mapping.topics)[String(key)].thread;
        Name(t) !in world.screen.unsure && Icon(t) !in world.screen.unsure
      ensures rightsLost || paused || quiet ==> world.log == old(world.log)
    {
      hide String, ParseKey, Guarded, Threads, OnlyAt, Served, Agreed, Looks, Alone, Told;
      if key !in agents {
        return NoError;
      }
      var a := agents[key];
      if String(key) !in mapping.topics {
        err := Create(a);
        return;
      }
      var e := mapping.topics[String(key)];
      if e.muted && !force {
        ServedIfShown(mapping.topics, a);
        return NoError;
      }
      var patch := if force && e.status.Live() then Patch(Some(DesiredName(a)), Some(a.status)) else Diff(e, a);
      if patch.Empty() || Blocked() {
        if e.status.Live() && patch.Empty() {
          OpenAt(mapping.topics, String(key));
          ServedIfShown(mapping.topics, a);
        }
        return NoError;
      }
      OpenAt(mapping.topics, String(key));
      ghost var r;
      err, r := Send(key, patch);
      ToldBy(e.thread, patch.name, patch.status);
      if !Blocked() && world.faults == old(world.faults) {
        ServedByEdit(old(mapping.topics), mapping.topics, a);
      }
    }

    /** Sends one edit of a running topic and records it once it was accepted. */
    method Send(key: Key, patch: Patch) returns (err: Error, ghost r: Outcome)
      requires Valid() && String(key) in mapping.topics && mapping.topics[String(key)].status.Live()
      modifies this`dirty, mapping`topics, world
      ensures Dropped(key, r)
      ensures Reported(err)
      ensures Valid() && Later()
      ensures world.log == old(world.log) + [EditTopic(old(mapping.topics)[String(key)].thread, patch.name, patch.status)]
      ensures world.faults == old(world.faults) ==>
        && err == NoError && !dirty && OnlyAt(old(mapping.topics), mapping.topics, String(key))
        && mapping.topics[String(key)] ==
           Patched(old(mapping.topics)[String(key)], patch).(updatedAt := mapping.topics[String(key)].updatedAt)
      ensures world.faults == old(world.faults) && Alone(old(mapping.topics), String(key)) ==>
        world.screen.unsure !! Told(EditTopic(old(mapping.topics)[String(key)].thread, patch.name, patch.status))
    {
      hide String, ParseKey, Guarded, Threads, Agreed, Looks, Alone, Told;
      OpenAt(mapping.topics, String(key));
      var answer := Tell(key, EditTopic(mapping.topics[String(key)].thread, patch.name, patch.status));
      r := answer;
      if answer != Accepted {
        err := Fail(key, answer);
      } else {
        err := Save();
      }
    }

    /** Learns what the live agents report for the entries a plan assigned. */
    method Learn(plan: seq<Assignment>, byKey: map<Key, Agent>) returns (changed: bool)
      requires forall i, j | 0 <= i < j < |plan| :: To(plan[i]) != To(plan[j])
      modifies this`agents, mapping`topics
      ensures Refreshed(old(mapping.topics), mapping.topics)
      ensures agents == old(agents) - MovedFrom(plan)
      ensures KnownFor(mapping.topics, plan, byKey)
      ensures !changed ==> mapping.topics == old(mapping.topics)
      ensures !changed ==> forall a <- plan :: To(a) in mapping.topics ==> a.from == a.to
      ensures MovedFrom(plan) == {} && KnownFor(old(mapping.topics), plan, byKey) ==> !changed
    {
      hide String, ParseKey, Refreshed, KnownFor, MovedFrom;
      changed := false;
      NothingLearned(mapping.topics, byKey);
      for i := 0 to |plan|
        invariant Refreshed(old(mapping.topics), mapping.topics)
        invariant agents == old(agents) - MovedFrom(plan[..i])
        invariant KnownFor(mapping.topics, plan[..i], byKey)
        invariant !changed ==> mapping.topics == old(mapping.topics)
        invariant !changed ==> forall a <- plan[..i] :: To(a) in mapping.topics ==> a.from == a.to
        invariant MovedFrom(plan) == {} && KnownFor(old(mapping.topics), plan, byKey) ==> !changed
      {
        var a := plan[i];
        ghost var topics := mapping.topics;
        assert plan[..i + 1] == plan[..i] + [a];
        MovedFromAdd(plan[..i], a);
        if a.from != a.to {
          MovedFromHas(plan, i);
          agents := agents - {a.from};
        }
        RefreshedKeys(old(mapping.topics), topics);
        if To(a) in mapping.topics {
          changed := changed || a.from != a.to;
          if a.to in byKey {
            var learned := mapping.UpdateMetadata(a.to, byKey[a.to]);
            changed := changed || learned;
          }
        }
        LearnStep(old(mapping.topics), topics, mapping.topics, plan[..i], a, byKey);
        if KnownFor(old(mapping.topics), plan, byKey) && To(a) in topics && a.to in byKey {
          KnownMember(old(mapping.topics), plan, byKey, a);
        }
      }
      assert plan[..|plan|] == plan;
    }

    /** Lets live agents take over stored entries and learns their metadata. */
    method Reassociate(live: seq<Agent>) returns (err: Error)
      requires Valid()
      modifies this`dirty, this`agents, mapping`topics, world
      ensures Reported(err)
      ensures Valid() && Later() && world.log == old(world.log)
      ensures AllWellFormed(ByKey(live)) ==> err == NoError || err == SaveFailed
      ensures err == SaveFailed ==> world.faults > old(world.faults)
      ensures err == NoError ==> (dirty ==> old(dirty))
      ensures err == NoError ==> mapping.topics == old(mapping.topics) || world.disk == Mem()
      ensures agents.Keys <= old(agents.Keys) && forall k <- agents :: agents[k] == old(agents)[k]
      ensures AllWellFormed(ByKey(live)) ==>
        forall k <- old(agents) :: k in agents <==> !TakenOver(old(mapping.topics), live, k)
      ensures AllWellFormed(ByKey(live)) ==> forall k <- ByKey(live) :: k in old(agents) ==> k in agents
      ensures AllWellFormed(ByKey(live)) ==> Adopted(old(mapping.topics), live, mapping.topics)
      ensures AllWellFormed(ByKey(live)) && OnePerThread(old(mapping.topics)) ==> OnePerThread(mapping.topics)
      ensures AllWellFormed(ByKey(live)) && DistinctKeys(live) ==> AllKnown(mapping.topics, live)
      ensures AllWellFormed(ByKey(live)) && DistinctKeys(live) && AllKnown(old(mapping.topics), live)
              && (forall a <- live :: String(a.key) in old(mapping.topics)) ==>
        err == NoError && Idle() && dirty == old(dirty)
    {
      hide String, ParseKey, Threads, Guarded, Applicable, IsMoved, IsPlan, OnePerThread, OpenWhileLive;
      hide KnownFor, AllKnown, Refreshed, MovedFrom, AllWellFormed, DistinctKeys, ByKey, LastByKey, Adopted, PlanOrdered, TakenOver;
      ghost var before := mapping.topics;
      ghost var A := ByKey(live);
      var plan := mapping.PlanReassociation(live);
      if AllWellFormed(A) {
        PlanApplicable(before, A, plan);
      }
      var failed := mapping.ApplyReassociation(plan.assignments);
      if failed.Some? {
        return PlanRejected;
      }
      ghost var moved := mapping.topics;
      DestinationsDistinct(before, plan.assignments);
      var changed := Learn(plan.assignments, LastByKey(live));
      AdoptionKeeps(before, live, plan, moved, mapping.topics);
      forall k | k in old(agents) ensures k in MovedFrom(plan.assignments) <==> TakenOver(before, live, k) {
        MovedFromExactly(before, live, plan, k);
      }
      AgreedMoved(world.existing, world.screen, before, plan.assignments, moved);
      AgreedRefreshed(world.existing, world.screen, moved, mapping.topics);
      GuardedSameThreads(world.existing, world.creator, Snapshot(before, mapping.pending), Mem());
      err := NoError;
      if changed {
        err := Save();
      } else {
        NothingMoved(before, plan.assignments, moved);
      }
    }

    method ExitOrphans(live: set<Key>) returns (err: Error)
      requires Valid()
      modifies this`dirty, mapping`topics, world
      ensures Reported(err)
      ensures Valid() && Later()
      ensures !Blocked() && world.faults == old(world.faults) ==>
        err == NoError && (dirty ==> old(dirty))
        && SameBindings(old(mapping.topics), mapping.topics) && DeadExited(mapping.topics, live)
        && RunningKept(old(mapping.topics), mapping.topics, live)
      ensures DeadExited(old(mapping.topics), live) ==> err == NoError && Idle() && dirty == old(dirty)
    {
      hide FinishedSoFar, RunningKept, SameBindings, DeadExited, DeadClosed, NoneUnclosed, CloseRequests, ExitRequests;
      hide String, ParseKey, Guarded, Threads, OpenWhileLive, Finished, OnlyAt, Agreed, Looks, Alone, Told;
      var keys := mapping.Orphans(live);
      ghost var m := mapping.topics;
      err := NoError;
      FinishedNone(m);
      NoOrphans(m, keys, live);
      for i := 0 to |keys|
        invariant Valid() && Later() && world.errors == old(world.errors) && err == NoError
        invariant keys == [] ==> Idle() && dirty == old(dirty)
        invariant !Blocked() && world.faults == old(world.faults) ==>
          (dirty ==> old(dirty)) && FinishedSoFar(m, mapping.topics, keys[..i])
      {
        ghost var before := mapping.topics;
        assert keys[..i + 1] == keys[..i] + [keys[i]];
        if !Blocked() && world.faults == old(world.faults) {
          FinishedKeys(m, before, keys[..i]);
        }
        err := Exit(keys[i]);
        if err != NoError {
          return;
        }
        if !Blocked() && world.faults == old(world.faults) {
          FinishOneMore(m, before, mapping.topics, keys[..i], keys[i]);
        }
      }
      assert keys[..|keys|] == keys;
      if !Blocked() && world.faults == old(world.faults) {
        AllOrphansFinished(m, mapping.topics, keys, live);
        OthersFinished(m, mapping.topics, keys, live);
      }
    }

    method CloseFinished(ghost live: set<Key>) returns (err: Error)
      requires Valid()
      modifies this`dirty, mapping`topics, world
      ensures Reported(err)
      ensures Valid() && Later()
      ensures !Blocked() && world.faults == old(world.faults) ==>
        err == NoError && (dirty ==> old(dirty)) && SameBindings(old(mapping.topics), mapping.topics)
        && (DeadExited(old(mapping.topics), live) ==> DeadClosed(mapping.topics, live))
        && RunningKept(old(mapping.topics), mapping.topics, live)
      ensures NoneUnclosed(old(mapping.topics)) ==> err == NoError && Idle() && dirty == old(dirty)
    {
      hide FinishedSoFar, RunningKept, SameBindings, DeadExited, DeadClosed, NoneUnclosed, CloseRequests, ExitRequests;
      hide String, ParseKey, Guarded, Threads, OpenWhileLive, Finished, OnlyAt, Agreed, Looks, Alone, Told;
      var keys := mapping.Unclosed();
      ghost var m := mapping.topics;
      err := NoError;
      FinishedNone(m);
      NoUnclosed(m, keys);
      for i := 0 to |keys|
        invariant Valid() && Later() && world.errors == old(world.errors) && err == NoError
        invariant keys == [] ==> Idle() && dirty == old(dirty)
        invariant forall k <- keys :: String(k) in mapping.topics ==> mapping.topics[String(k)].status == Exited
        invariant !Blocked() && world.faults == old(world.faults) ==>
          (dirty ==> old(dirty)) && FinishedSoFar(m, mapping.topics, keys[..i])
      {
        ghost var before := mapping.topics;
        assert keys[..i + 1] == keys[..i] + [keys[i]];
        if !Blocked() && world.faults == old(world.faults) {
          FinishedKeys(m, before, keys[..i]);
        }
        ghost var r;
        err, r := Close(keys[i]);
        if err != NoError {
          return;
        }
        if !Blocked() && world.faults == old(world.faults) {
          FinishOneMore(m, before, mapping.topics, keys[..i], keys[i]);
        }
      }
      assert keys[..|keys|] == keys;
      if !Blocked() && world.faults == old(world.faults) {
        AllUnclosedFinished(m, mapping.topics, keys, live);
        OthersFinished(m, mapping.topics, keys, live);
      }
    }

    method Serve(a: Agent) returns (err: Error)
      requires Valid()
      modifies this`dirty, mapping, world
      ensures Reported(err)
      ensures Valid() && Later()
      ensures !Blocked() && world.faults == old(world.faults) && a.key in agents && agents[a.key] == a ==>
        if String(a.key) !in old(mapping.topics) && String(a.key) in old(mapping.pending) then
          err == UnresolvedIntent && Idle() && dirty == old(dirty)
        else
          err == NoError && Served(old(mapping.topics), mapping.topics, a) && mapping.pending == old(mapping.pending)
          && (dirty ==> old(dirty))
      ensures !force && a.key in agents && agents[a.key] == a && a.status.Live()
              && String(a.key) in old(mapping.topics) && Shown(old(mapping.topics)[String(a.key)], a) ==>
        err == NoError && Idle() && dirty == old(dirty)
      ensures force && !Blocked() && world.faults == old(world.faults) && a.key in agents && agents[a.key] == a && err == NoError
              && (String(a.key) in old(mapping.topics) ==> Alone(old(mapping.topics), String(a.key)))
              && String(a.key) in mapping.topics && mapping.topics[String(a.key)].status.Live() ==>
        && Icon(mapping.topics[String(a.key)].thread) !in world.screen.unsure
        && (NotFinished(old(mapping.topics), String(a.key)) ==> Name(mapping.topics[String(a.key)].thread) !in world.screen.unsure)
      ensures rightsLost || paused || quiet ==> world.log == old(world.log)
    {
      hide Valid;
      hide String, ParseKey, Guarded, Threads, OpenWhileLive, Served, Agreed, Looks, Alone, Told;
      if String(a.key) !in mapping.topics || !mapping.topics[String(a.key)].status.Live() {
        err := Create(a);
      } else {
        err := Edit(a.key);
        ServedThread(old(mapping.topics), mapping.topics, a);
      }
    }

    /** Creates or refreshes the topic of every live agent, in the order of their
        keys. With nothing else going wrong it stops exactly at the first agent
        that has no entry and an unresolved request for one. */
    method ServeLive(live: seq<Agent>) returns (err: Error, ghost served: seq<Agent>)
      requires Valid()
      modifies this`dirty, mapping, world
      ensures Reported(err)
      ensures Valid() && Later()
      ensures !Blocked() && world.faults == old(world.faults) && Servable(live, agents) ==>
        var stuck := Hindered(old(mapping.topics), old(mapping.pending), live);
        && err == (if stuck == {} then NoError else UnresolvedIntent)
        && mapping.pending == old(mapping.pending) && (dirty ==> old(dirty))
        && ServedAll(old(mapping.topics), mapping.topics, served) && ServedOf(served, live, stuck)
        && (force && OnePerThread(old(mapping.topics)) ==> PartsSure(old(mapping.topics), mapping.topics, world.screen, served))
      ensures !force && Servable(live, agents) && AllShown(old(mapping.topics), live) ==>
        err == NoError && Idle() && dirty == old(dirty)
    {
      hide Valid;
      hide Valid, Servable, ServedAll, AllShown, Hindered, ServedOf, Sorted, Linear, PartsSure, OnePerThread, NoNewDoubt, OnlyRefusals, ServedSo;
      hide String, Threads;
      ghost var m, pending, screen := mapping.topics, mapping.pending, world.screen;
      ghost var stuck := Hindered(m, pending, live);
      ServiceLinear();
      var order := SortBy(live, ServedBefore);
      OrderServable(live, order, agents);
      err := NoError;
      ServedSoNone(m, pending, force, screen);
      NoNewDoubts(screen, screen, screen);
      for i := 0 to |order|
        invariant Valid() && Later() && world.errors == old(world.errors) && err == NoError
        invariant !force && Servable(live, agents) && AllShown(m, live) ==> Idle() && dirty == old(dirty)
        invariant !Blocked() && world.faults == old(world.faults) && Servable(live, agents) ==>
          && (dirty ==> old(dirty)) && ServedSo(m, mapping.topics, pending, mapping.pending, force, world.screen, order[..i])
          && (forall j | 0 <= j < i :: order[j].key !in stuck)
      {
        ghost var before := world.screen;
        err := ServeNext(order, i, live, m, pending,
                         !Blocked() && world.faults == old(world.faults) && Servable(live, agents));
        NoNewDoubts(screen, before, world.screen);
        if err != NoError {
          served := order[..i];
          if order[i].key in stuck {
            ServedUpTo(order, live, stuck, i);
          }
          ServedSoMeans(m, mapping.topics, pending, mapping.pending, force, world.screen, served);
          return;
        }
      }
      served := order[..|order|];
      ServedUpTo(order, live, stuck, |order|);
      ServedSoMeans(m, mapping.topics, pending, mapping.pending, force, world.screen, served);
      if forall j | 0 <= j < |order| :: order[j].key !in stuck {
        NoneHindered(m, pending, live, order);
      }
    }

    /** One agent after those before it. */
    method ServeNext(order: seq<Agent>, i: nat, ghost live: seq<Agent>, ghost m: Table, ghost pending: set<Text>,
                     ghost smooth: bool)
      returns (err: Error)
      requires Valid() && i < |order| && forall a :: a in order <==> a in live
      requires smooth ==>
        !Blocked() && Servable(order, agents)
        && ServedSo(m, mapping.topics, pending, mapping.pending, force, world.screen, order[..i])
      modifies this`dirty, mapping, world
      ensures Reported(err)
      ensures Valid() && Later()
      ensures smooth && world.faults == old(world.faults) ==>
        && (dirty ==> old(dirty))
        && if order[i].key in Hindered(m, pending, live) then
             err == UnresolvedIntent
             && ServedSo(m, mapping.topics, pending, mapping.pending, force, world.screen, order[..i])
           else
             err == NoError && ServedSo(m, mapping.topics, pending, mapping.pending, force, world.screen, order[..i + 1])
      ensures !force && Servable(order, agents) && AllShown(old(mapping.topics), live) ==>
        err == NoError && Idle() && dirty == old(dirty)
    {
      hide Valid, Servable, ServedAll, AllShown, Hindered, PartsSure, OnePerThread, NoNewDoubt, OnlyRefusals, ServedSo, Served;
      hide String, Shown, Threads, Alone;
      var a := order[i];
      ghost var before, screen := mapping.topics, world.screen;
      if Servable(order, agents) {
        ServableAt(order, agents, i);
        if AllShown(before, live) {
          ShownAt(before, live, a);
        }
      }
      if smooth {
        ServedSoMeans(m, before, pending, mapping.pending, force, screen, order[..i]);
        HinderedAt(m, before, pending, live, order, agents, i);
        if OnePerThread(m) {
          OnePerThreadServed(m, before, order[..i]);
          if String(a.key) in before {
            AloneOfOne(before, String(a.key));
          }
        }
      }
      err := Serve(a);
      if smooth && world.faults == old(world.faults) {
        if err == NoError {
          ServedSoMore(m, before, mapping.topics, pending, force, screen, world.screen, order, agents, i);
        } else {
          ServedSoStill(m, before, pending, force, screen, world.screen, order[..i]);
        }
      }
    }

    /** Drops entries that share a thread with a newer one. */
    method Dedupe() returns (err: Error)
      requires Valid()
      modifies this`dirty, mapping`topics, world
      ensures Reported(err)
      ensures Valid() && Later() && world.log == old(world.log)
      ensures err == NoError || err == SaveFailed
      ensures err == SaveFailed ==> world.faults > old(world.faults)
      ensures err == NoError ==> (dirty ==> old(dirty))
      ensures err == NoError ==> mapping.topics == old(mapping.topics) || world.disk == Mem()
      ensures mapping.topics == Deduped(old(mapping.topics)) && OnePerThread(mapping.topics)
      ensures OnePerThread(old(mapping.topics)) ==> err == NoError && Idle() && dirty == old(dirty)
    {
      hide String, ParseKey, Guarded, Threads, Agreed, Looks, Alone, Told, Best, OpenWhileLive, OnePerThread;
      ghost var before := Mem();
      var removed := mapping.DedupeThreads();
      DedupedOpen(before.topics);
      GuardedSameThreads(world.existing, world.creator, before, Mem());
      AgreedFewer(world.existing, world.existing, world.screen, before.topics, mapping.topics);
      err := NoError;
      if removed > 0 {
        err := Save();
      } else {
        SameSizeSame(before.topics, mapping.topics);
      }
    }

    /** Replays the desired state for all live agents. With no call or write
        failing, one pass finishes every topic without an agent and shows every
        agent; it stops with an error exactly if for some agent a request for a
        topic is unresolved and no stored entry is to be found. A settled mapping
        needs nothing at all. */
    method Reconcile(live: seq<Agent>) returns (err: Error)
      requires Valid()
      modifies this`dirty, this`agents, mapping, world
      ensures Reported(err)
      ensures Valid() && Later()
      ensures !(rightsLost || paused || quiet) && LiveSnapshot(live) && world.faults == old(world.faults) ==>
        var stuck := Stuck(Deduped(old(mapping.topics)), old(mapping.pending), live);
        && err == (if stuck == {} then NoError else UnresolvedIntent)
        && agents == LastByKey(live)
        && !dirty && mapping.pending == old(mapping.pending) && Replayed(mapping.topics, live, stuck)
        && (force && stuck == {} ==> exists adopted ::
              && Adopted(Deduped(old(mapping.topics)), live, adopted)
              && PartsSure(adopted, mapping.topics, world.screen, live))
      ensures !force && !old(dirty) && LiveSnapshot(live) && Settled(old(mapping.topics), live) ==>
        err == NoError && Idle() && !dirty
      ensures rightsLost || paused || quiet ==> world.log == old(world.log)
    {
      hide PartsSure;
      hide Valid;
      hide String, ParseKey, Guarded, Threads, OpenWhileLive, WellFormed, Replayed, Hindered, Stuck, AllKnown, Settled;
      hide OnePerThread, AllWellFormed, DistinctKeys, Agreed, Looks, Alone, Told, Deduped, AllShown, DeadExited, NoneUnclosed, Adopted;
      hide LastByKey, ByKey, KeysOf, LiveSnapshot, Servable, Orphans, Storable;
      err := PersistPending();
      if err != NoError || Blocked() {
        return;
      }
      ghost var m0, pending := mapping.topics, mapping.pending;
      if LiveSnapshot(live) && Settled(m0, live) {
        SettledNeedsNothing(m0, live);
      }
      err := Dedupe();
      if err != NoError {
        return;
      }
      err := Adopt(live, pending);
      if err != NoError {
        return;
      }
      err := Replay(live);
    }

    /** Takes over the snapshot and lets its agents find their old entries. */
    method Adopt(live: seq<Agent>, ghost pending: set<Text>) returns (err: Error)
      requires Valid()
      modifies this`dirty, this`agents, mapping`topics, world
      ensures Reported(err)
      ensures Valid() && Later() && world.log == old(world.log)
      ensures err == NoError ==> (dirty ==> old(dirty))
      ensures LiveSnapshot(live) ==>
        && agents == LastByKey(live) && Servable(live, agents) && AllKnown(mapping.topics, live) && Adopted(old(mapping.topics), live, mapping.topics)
        && Hindered(mapping.topics, pending, live) == Stuck(old(mapping.topics), pending, live)
        && (OnePerThread(old(mapping.topics)) ==> OnePerThread(mapping.topics))
        && (world.faults == old(world.faults) ==> err == NoError)
      ensures LiveSnapshot(live) && AllKnown(old(mapping.topics), live)
              && (forall a <- live :: String(a.key) in old(mapping.topics)) ==>
        err == NoError && Idle() && dirty == old(dirty)
    {
      hide String, ParseKey, Guarded, Threads, OpenWhileLive, WellFormed, AllKnown, OnePerThread, AllWellFormed, DistinctKeys;
      hide LastByKey, ByKey, KeysOf, LiveSnapshot, Servable, Orphans, Storable, Agreed, Looks, Alone, Told, Hindered, Stuck, Adopted;
      ghost var before := mapping.topics;
      agents := LastByKey(live);
      KeysAgree(live);
      err := Reassociate(live);
      if LiveSnapshot(live) {
        SnapshotServable(live, agents);
        StuckAreHindered(before, live, mapping.topics, pending);
      }
    }

    /** The last three steps of a pass: finish what has no agent, close what is
        finished, show what is live. */
    method Replay(live: seq<Agent>) returns (err: Error)
      requires Valid() && (LiveSnapshot(live) ==> Servable(live, agents))
      modifies this`dirty, mapping, world
      ensures Reported(err)
      ensures Valid() && Later()
      ensures !Blocked() && LiveSnapshot(live) && world.faults == old(world.faults)
              && OnePerThread(old(mapping.topics)) && AllKnown(old(mapping.topics), live) ==>
        var stuck := Hindered(old(mapping.topics), old(mapping.pending), live);
        && err == (if stuck == {} then NoError else UnresolvedIntent)
        && (dirty ==> old(dirty)) && mapping.pending == old(mapping.pending) && Replayed(mapping.topics, live, stuck)
        && (force && stuck == {} ==> PartsSure(old(mapping.topics), mapping.topics, world.screen, live))
      ensures !force && LiveSnapshot(live) && Settled(old(mapping.topics), live) ==>
        err == NoError && Idle() && dirty == old(dirty)
    {
      hide PartsSure;
      hide String, ParseKey, Guarded, Threads, OpenWhileLive, ServedAll, AllShown, AllKnown, Settled, Agreed, Looks, Alone, Told;
      hide RunningKept, DeadExited, DeadClosed, SameBindings, OnePerThread, NoneUnclosed, LiveSnapshot, Servable, Hindered, Replayed, ServedOf;
      ghost var m1, pending := mapping.topics, mapping.pending;
      if LiveSnapshot(live) && Settled(m1, live) {
        SettledNeedsNothing(m1, live);
      }
      err := ExitOrphans(KeysOf(live));
      if err != NoError {
        return;
      }
      ghost var m2 := mapping.topics;
      err := CloseFinished(KeysOf(live));
      if err != NoError {
        return;
      }
      ghost var m3 := mapping.topics;
      ghost var served;
      err, served := ServeLive(live);
      if LiveSnapshot(live) && !Blocked() && world.faults == old(world.faults) && OnePerThread(m1) && AllKnown(m1, live) {
        SameHindered(m1, m2, m3, pending, live);
        PassSettles(m1, m2, m3, mapping.topics, served, live, Hindered(m1, pending, live));
        SameBindingsKeep(m1, m2, live);
        SameBindingsKeep(m2, m3, live);
        if force && Hindered(m1, pending, live) == {} {
          RunningKeptOn(m1, m2, m3, KeysOf(live));
          SameKeys(m1, m2, m3);
          PartsSureOf(m1, m3, mapping.topics, world.screen, served, live);
        }
      }
    }

    method Resync(live: seq<Agent>) returns (err: Error)
      requires Valid()
      modifies this`dirty, this`agents, this`force, mapping, world
      ensures Reported(err)
      ensures Valid() && Later() && !force
      ensures !(rightsLost || paused || quiet) && LiveSnapshot(live) && world.faults == old(world.faults) ==>
        var stuck := Stuck(Deduped(old(mapping.topics)), old(mapping.pending), live);
        && err == (if stuck == {} then NoError else UnresolvedIntent)
        && agents == LastByKey(live)
        && !dirty && mapping.pending == old(mapping.pending) && Replayed(mapping.topics, live, stuck)
        && (stuck == {} ==> exists adopted ::
              && Adopted(Deduped(old(mapping.topics)), live, adopted)
              && PartsSure(adopted, mapping.topics, world.screen, live))
      ensures rightsLost || paused || quiet ==> world.log == old(world.log)
    {
      hide PartsSure;
      hide String, ParseKey, Guarded, Threads, Replayed, Stuck, Deduped, LiveSnapshot, Agreed, Looks, Alone, Told;
      force := true;
      err := Reconcile(live);
      force := false;
    }

    /** The report is remembered, and every other agent but those whose entries the
        reporting one took over. */
    ghost predicate Remembers(a: Agent, before: map<Key, Agent>, topics: Table)
      reads this`agents
    {
      && a.key in agents && agents[a.key] == a
      && agents.Keys <= before.Keys + {a.key}
      && forall k <- before | k != a.key ::
           if TakenOver(topics, [a], k) then k !in agents else k in agents && agents[k] == before[k]
    }

    /** One registry event. A gone agent's topic is finished; a new agent is shown
        at once, unless its request for a topic is unresolved and it may take over no
        stored entry; a change of a shown agent waits for its delayed edit. */
    method Handle(ev: Event) returns (err: Error)
      requires Valid()
      modifies this`dirty, this`agents, mapping, world
      ensures Reported(err)
      ensures Valid() && Later()
      ensures !old(dirty) || world.faults == old(world.faults) ==>
        if ev.kind == AgentGone then agents == old(agents) - {ev.agent.key}
        else WellFormed(ev.agent.key) ==> Remembers(ev.agent, old(agents), old(mapping.topics))
      ensures ev.kind == AgentGone && String(ev.agent.key) in old(mapping.topics)
              && !(rightsLost || paused || quiet) && world.faults == old(world.faults) ==>
        err == NoError && Finished(old(mapping.topics), mapping.topics, String(ev.agent.key)) && ev.agent.key !in agents
      ensures ev.kind != AgentGone && WellFormed(ev.agent.key) && !(rightsLost || paused || quiet) && world.faults == old(world.faults) ==>
        var stuck := Stuck(old(mapping.topics), old(mapping.pending), [ev.agent]);
        && err == (if stuck == {} then NoError else UnresolvedIntent) && mapping.pending == old(mapping.pending)
        && (stuck == {} ==>
              && String(ev.agent.key) in mapping.topics
              && (Shown(mapping.topics[String(ev.agent.key)], ev.agent)
                  || (ev.kind == Changed && mapping.topics[String(ev.agent.key)].status.Live() && world.log == old(world.log))))
      ensures ev.kind == Changed && WellFormed(ev.agent.key)
              && String(ev.agent.key) in old(mapping.topics) && old(mapping.topics)[String(ev.agent.key)].status.Live() ==>
        Refreshed(old(mapping.topics), mapping.topics) && world.log == old(world.log)
      ensures rightsLost || paused || quiet ==> world.log == old(world.log)
    {
      hide String, ParseKey, Guarded, Threads, OpenWhileLive, Finished, OnlyAt, Agreed, Looks, Alone, Told;
      hide WellFormed, Shown, Stuck, Refreshed;
      err := PersistPending();
      if err != NoError {
        NothingAdopted(mapping.topics);
        return;
      }
      if ev.kind == AgentGone {
        agents := agents - {ev.agent.key};
        err := Exit(ev.agent.key);
      } else {
        err := Meet(ev);
      }
    }

    /** An agent that appeared or changed looks for its entry first. */
    method Meet(ev: Event) returns (err: Error)
      requires Valid() && ev.kind != AgentGone
      modifies this`dirty, this`agents, mapping, world
      ensures Reported(err)
      ensures Valid() && Later()
      ensures WellFormed(ev.agent.key) ==> Remembers(ev.agent, old(agents), old(mapping.topics))
      ensures WellFormed(ev.agent.key) && !Blocked() && world.faults == old(world.faults) ==>
        var stuck := Stuck(old(mapping.topics), old(mapping.pending), [ev.agent]);
        && err == (if stuck == {} then NoError else UnresolvedIntent) && mapping.pending == old(mapping.pending)
        && (stuck == {} ==>
              && String(ev.agent.key) in mapping.topics
              && (Shown(mapping.topics[String(ev.agent.key)], ev.agent)
                  || (ev.kind == Changed && mapping.topics[String(ev.agent.key)].status.Live() && world.log == old(world.log))))
      ensures ev.kind == Changed && WellFormed(ev.agent.key)
              && String(ev.agent.key) in old(mapping.topics) && old(mapping.topics)[String(ev.agent.key)].status.Live() ==>
        Refreshed(old(mapping.topics), mapping.topics) && world.log == old(world.log)
      ensures rightsLost || paused || quiet ==> world.log == old(world.log)
    {
      hide String, ParseKey, Guarded, Threads, OpenWhileLive, Agreed, Looks, Alone, Told, Refreshed, DistinctKeys, AllKnown;
      hide WellFormed, AllWellFormed, Shown, ByKey, LastByKey, Hindered, Stuck, Adopted, OnePerThread, TakenOver;
      err := Recall(ev.agent);
      if err == NoError {
        err := Attend(ev);
      }
    }

    /** The agent is known from now on and takes over the entry that is its own. */
    method Recall(a: Agent) returns (err: Error)
      requires Valid()
      modifies this`dirty, this`agents, mapping`topics, world
      ensures Reported(err)
      ensures Valid() && Later() && world.log == old(world.log)
      ensures WellFormed(a.key) ==> (err == NoError || err == SaveFailed) && (err == SaveFailed ==> world.faults > old(world.faults))
      ensures WellFormed(a.key) ==> Remembers(a, old(agents), old(mapping.topics))
      ensures WellFormed(a.key) ==>
        Stuck(old(mapping.topics), mapping.pending, [a]) ==
          if String(a.key) !in mapping.topics && String(a.key) in mapping.pending then {a.key} else {}
      ensures WellFormed(a.key) && String(a.key) in old(mapping.topics) ==>
        && Refreshed(old(mapping.topics), mapping.topics) && String(a.key) in mapping.topics
        && mapping.topics[String(a.key)].status == old(mapping.topics)[String(a.key)].status
    {
      hide String, ParseKey, Guarded, Threads, OpenWhileLive, Agreed, Looks, Alone, Told, Refreshed, DistinctKeys, AllKnown;
      hide WellFormed, AllWellFormed, ByKey, LastByKey, Hindered, Stuck, Adopted, OnePerThread, TakenOver;
      agents := agents[a.key := a];
      OneAgent(a);
      ghost var before := mapping.topics;
      err := Reassociate([a]);
      if WellFormed(a.key) {
        StuckAreHindered(before, [a], mapping.topics, mapping.pending);
        if String(a.key) in before {
          AdoptedAtHome(before, [a], mapping.topics);
          RefreshedAt(before, mapping.topics, String(a.key));
        }
      }
    }

    /** What an event about a running agent asks for, once its entry is found. */
    method Attend(ev: Event) returns (err: Error)
      requires Valid() && ev.kind != AgentGone
      modifies this`dirty, mapping, world
      ensures Reported(err)
      ensures Valid() && Later()
      ensures ev.agent.key in agents && agents[ev.agent.key] == ev.agent && !Blocked() && world.faults == old(world.faults) ==>
        var s := String(ev.agent.key);
        if s !in old(mapping.topics) && s in old(mapping.pending) then
          err == UnresolvedIntent && Idle()
        else
          && err == NoError && mapping.pending == old(mapping.pending) && s in mapping.topics
          && (Shown(mapping.topics[s], ev.agent) || (ev.kind == Changed && mapping.topics[s].status.Live() && Idle()))
      ensures ev.kind == Changed && String(ev.agent.key) in old(mapping.topics)
              && old(mapping.topics)[String(ev.agent.key)].status.Live() ==>
        err == NoError && Idle()
      ensures rightsLost || paused || quiet ==> world.log == old(world.log)
    {
      hide String, ParseKey, Guarded, Threads, OpenWhileLive, Shown, OnlyAt, Agreed, Looks, Alone, Told, EditRequests;
      err := NoError;
      var key := ev.agent.key;
      if String(key) !in mapping.topics || !mapping.topics[String(key)].status.Live() {
        err := Create(ev.agent);
      } else if ev.kind == Appeared {
        err := Edit(key);
      }
    }

    /** An operator closed a topic: a running agent's topic is muted, a finished
        one is only recorded as closed. */
    method OnTopicClosed(thread: int) returns (err: Error, ghost target: Option<Key>)
      requires Valid()
      modifies this`dirty, mapping, world
      ensures Reported(err)
      ensures Valid() && Onward() && world.screen.unsure == old(world.screen.unsure) + {Door(thread)} && world.log == old(world.log)
      ensures world.screen.causes == old(world.screen.causes).(operated := old(world.screen.causes.operated) + {Door(thread)})
      ensures Claims(old(mapping.topics), thread, target)
      ensures target.None? ==> err == NoError && Idle()
      ensures target.Some? ==>
        var s := String(target.value);
        && OnlyAt(old(mapping.topics), mapping.topics, s)
        && mapping.topics[s] ==
           if old(mapping.topics)[s].status.Live()
           then old(mapping.topics)[s].(muted := true, updatedAt := mapping.topics[s].updatedAt)
           else old(mapping.topics)[s].(closed := true, updatedAt := mapping.topics[s].updatedAt)
    {
      hide String, ParseKey, Guarded, Threads, OpenWhileLive, Claims, Agreed, Looks, Alone, Told;
      Operated(thread, {Door(thread)});
      var found := mapping.KeyForThread(thread);
      target := found;
      if found.None? {
        return NoError, target;
      }
      var e := mapping.topics[String(found.value)];
      ClaimsThread(mapping.topics, thread, found);
      LooksAt(world.existing, world.screen, mapping.topics, String(found.value));
      OpenAt(mapping.topics, String(found.value));
      if e.status.Live() {
        LooksMuted(world.existing, world.screen, e, e.(muted := true));
        err := Record(found.value, e.(muted := true));
      } else {
        LooksDoor(world.existing, world.screen, e, true);
        err := Record(found.value, e.(closed := true));
      }
    }

    /** An operator reopened a topic: it is shown again, or finished again. */
    method OnTopicReopened(thread: int) returns (err: Error, ghost target: Option<Key>)
      requires Valid()
      modifies this`dirty, this`force, mapping, world
      ensures Reported(err)
      ensures Valid() && Onward() && force == old(force)
      ensures Claims(old(mapping.topics), thread, target)
      ensures target.None? ==> err == NoError && Idle()
      ensures target.Some? ==> String(target.value) in old(mapping.topics)
      ensures target.Some? && !Blocked() && world.faults == old(world.faults) ==>
        && err == NoError && String(target.value) in mapping.topics
        && var e := mapping.topics[String(target.value)];
        if target.value in agents then !e.muted && Shown(e, agents[target.value]) else e.status == Exited && e.closed
      ensures target.Some? && Alone(old(mapping.topics), String(target.value)) && !Blocked() && world.faults == old(world.faults) ==>
        Icon(thread) !in world.screen.unsure && (target.value !in agents ==> Door(thread) !in world.screen.unsure)
      ensures world.faults == old(world.faults) ==> world.screen.unsure <= old(world.screen.unsure) + {Door(thread), Icon(thread)}
      ensures CausedBy(old(world.screen.causes), world.screen.causes, {Door(thread)}, {thread})
      ensures world.faults == old(world.faults) ==> world.screen.causes.refused == old(world.screen.causes.refused)
      ensures old(rightsLost || paused || quiet) ==>
        var revives := target.Some? && target.value in agents && !old(mapping.topics)[String(target.value)].status.Live();
        && (world.log != old(world.log) ==> revives)
        && (world.faults == old(world.faults) && revives ==> world.log != old(world.log))
    {
      hide String, ParseKey, Guarded, Threads, OpenWhileLive, Finished, Claims, Served, ReviveRequests, EditRequests;
      hide Agreed, Looks, Alone, Told;
      Operated(thread, {Door(thread)});
      var found := mapping.KeyForThread(thread);
      target := found;
      if found.None? {
        return NoError, target;
      }
      var key := found.value;
      ClaimsThread(mapping.topics, thread, found);
      err := Reopen(key);
      AloneStill(old(mapping.topics), mapping.topics, String(key));
      if err == NoError {
        err := Resume(key);
      }
    }

    /** Shows or finishes the topic that was reopened. */
    method Resume(key: Key) returns (err: Error)
      requires Valid() && String(key) in mapping.topics
      requires !mapping.topics[String(key)].muted && !mapping.topics[String(key)].closed
      modifies this`dirty, this`force, mapping, world
      ensures Reported(err)
      ensures Valid() && Later() && force == old(force)
      ensures !Blocked() && world.faults == old(world.faults) ==>
        && err == NoError && String(key) in mapping.topics
        && var e := mapping.topics[String(key)];
        if key in agents then !e.muted && Shown(e, agents[key]) else e.status == Exited && e.closed
      ensures Alone(old(mapping.topics), String(key)) && !Blocked() && world.faults == old(world.faults) ==>
        var t := old(mapping.topics)[String(key)].thread;
        Icon(t) !in world.screen.unsure && (key !in agents ==> Door(t) !in world.screen.unsure)
      ensures old(Blocked()) ==>
        && (world.log != old(world.log) ==> key in agents && !old(mapping.topics)[String(key)].status.Live())
        && (world.faults == old(world.faults) && key in agents && !old(mapping.topics)[String(key)].status.Live() ==>
              world.log != old(world.log))
    {
      hide String, ParseKey, Guarded, Threads, OpenWhileLive, Finished, Served, ReviveRequests, EditRequests;
      hide Agreed, Looks, Alone, Told;
      if key !in agents {
        err := Finish(key);
        if !Blocked() && world.faults == old(world.faults) {
          FinishedShows(old(mapping.topics), mapping.topics, String(key));
        }
        return;
      }
      if !mapping.topics[String(key)].status.Live() {
        ghost var gone;
        err, gone := Revive(agents[key]);
      } else {
        var was := force;
        force := true;
        err := Edit(key);
        force := was;
      }
      if !Blocked() && world.faults == old(world.faults) {
        ServedShows(old(mapping.topics), mapping.topics, agents[key]);
      }
    }

    /** The status of an agent that left while its topic was muted was never sent. */
    method Reopen(key: Key) returns (err: Error)
      requires Valid() && String(key) in mapping.topics && Door(mapping.topics[String(key)].thread) in world.screen.unsure
      modifies this`dirty, mapping`topics, world
      ensures Reported(err)
      ensures Valid() && Onward() && world.log == old(world.log)
      ensures OnlyAt(old(mapping.topics), mapping.topics, String(key))
      ensures mapping.topics[String(key)] ==
              old(mapping.topics)[String(key)].(muted := false, closed := false, updatedAt := mapping.topics[String(key)].updatedAt)
      ensures world.screen.unsure == old(world.screen.unsure) +
              if old(mapping.topics)[String(key)].muted then {Icon(old(mapping.topics)[String(key)].thread)} else {}
      ensures CausedBy(old(world.screen.causes), world.screen.causes, {}, {old(mapping.topics)[String(key)].thread})
      ensures world.screen.causes.refused == old(world.screen.causes.refused)
      ensures err == NoError ==> world.faults == old(world.faults)
      ensures err != NoError ==> world.faults > old(world.faults)
    {
      hide String, ParseKey, Guarded, Threads, OpenWhileLive, Agreed, Looks;
      var e := mapping.topics[String(key)];
      if e.muted {
        Lifted(e.thread);
      }
      LooksAt(world.existing, world.screen, mapping.topics, String(key));
      LooksDoor(world.existing, world.screen, e, false);
      err := Record(key, e.(muted := false, closed := false));
    }

    /** Writes the finished icon whatever the mapping believes, then closes. */
    method Finish(key: Key) returns (err: Error)
      requires Valid()
      modifies this`dirty, mapping`topics, world
      ensures Reported(err)
      ensures Valid() && Later()
      ensures String(key) in old(mapping.topics) && !Blocked() && world.faults == old(world.faults) ==>
        err == NoError && Finished(old(mapping.topics), mapping.topics, String(key))
        && world.log == old(world.log) + [FinishRequest(old(mapping.topics)[String(key)])]
                        + CloseRequests(old(mapping.topics)[String(key)])
      ensures String(key) in old(mapping.topics) && Alone(old(mapping.topics), String(key)) && !Blocked() && world.faults == old(world.faults) ==>
        var e := old(mapping.topics)[String(key)];
        Icon(e.thread) !in world.screen.unsure && (!e.closed ==> Door(e.thread) !in world.screen.unsure)
      ensures Blocked() ==> world.log == old(world.log)
    {
      hide String, ParseKey, Guarded, Threads, Agreed, Looks, Alone, Told;
      if String(key) !in mapping.topics || Blocked() {
        return NoError;
      }
      var done;
      ghost var r;
      done, err, r := Flag(key);
      if !done {
        return;
      }
      AloneStill(old(mapping.topics), mapping.topics, String(key));
      err, r := Close(key);
    }

    /** The next entries to sweep, no more than one batch. */
    method StaleBatch(now: int, maxAge: int) returns (keys: seq<Key>)
      ensures OldestStale(mapping.topics, now, maxAge, keys)
      ensures BatchDone(mapping.topics, now, maxAge, keys) && |keys| <= 50
    {
      hide String, ParseKey, OldestStale, BatchDone, OlderFirst, IsStale;
      var all := mapping.Stale(now, maxAge);
      keys := if |all| > SWEEP_BATCH then all[..SWEEP_BATCH] else all;
      FirstOfStale(mapping.topics, now, maxAge, all, |keys|);
      assert keys == all[..|keys|];
    }

    /** Deletes topics of long finished agents, the oldest first. An entry is
        dropped exactly when its topic is confirmed to be gone. The pass ends early
        with a refusal, which is no error, with a cancelled call or with a failed
        write; other failures leave the topic to a later pass. */
    method Sweep(maxAge: int, mayDelete: bool)
      returns (deleted: nat, err: Error, ghost now: int, ghost tried: seq<Key>, ghost answers: seq<Outcome>)
      requires Valid()
      modifies this`dirty, mapping`topics, world
      ensures Reported(err)
      ensures Valid() && Later()
      ensures OldestStale(old(mapping.topics), now, maxAge, tried) && |answers| == |tried| <= 50
      ensures SweptSo(old(mapping.topics), mapping.topics, world.existing, now, maxAge, tried, answers,
                      old(world.log), world.log)
      ensures deleted <= 50 && deleted == |old(mapping.topics)| - |mapping.topics|
      ensures EndsWith(answers, err)
      ensures maxAge > 0 && !Blocked() && mayDelete && err == NoError ==>
        BatchDone(old(mapping.topics), now, maxAge, tried) || (tried != [] && answers[|tried| - 1] == Forbidden)
      ensures maxAge <= 0 || Blocked() || !mayDelete ==> Idle() && err == NoError && tried == []
    {
      hide Valid, Swept, OldestStale, BatchDone, Confirmed, Deletions, EndsWith, NoNewDoubt, OnlyRefusals, IsStale, SweptSo;
      deleted, err, now, tried, answers := 0, NoError, 0, [], [];
      if maxAge <= 0 || Blocked() || !mayDelete {
        NothingAnswered();
        NothingTried(mapping.topics, now, maxAge);
        NoNewDoubts(world.screen, world.screen, world.screen);
        SweptStart(mapping.topics, world.existing, now, maxAge, world.log);
        return;
      }
      var clock := world.Now();
      ghost var m := mapping.topics;
      var keys := StaleBatch(clock, maxAge);
      now := clock;
      deleted, err, answers := SweepKeys(keys, now, maxAge);
      tried := keys[..|answers|];
      OldestPrefix(m, now, maxAge, keys, |answers|);
      assert keys[..|keys|] == keys;
    }

    /** Asks for one deletion after the other until something stops it. */
    method SweepKeys(keys: seq<Key>, ghost now: int, ghost maxAge: int)
      returns (deleted: nat, err: Error, ghost answers: seq<Outcome>)
      requires Valid() && OldestStale(mapping.topics, now, maxAge, keys)
      modifies this`dirty, mapping`topics, world
      ensures Reported(err)
      ensures Valid() && Later() && |answers| <= |keys|
      ensures SweptSo(old(mapping.topics), mapping.topics, world.existing, now, maxAge, keys[..|answers|], answers,
                      old(world.log), world.log)
      ensures deleted <= |answers| && deleted == |old(mapping.topics)| - |mapping.topics|
      ensures EndsWith(answers, err)
      ensures err == NoError ==> |answers| == |keys| || (answers != [] && answers[|answers| - 1] == Forbidden)
    {
      hide Valid, OldestStale, Swept, Confirmed, Deletions, SweptSo, EndsWith, GoesOn, NoNewDoubt, OnlyRefusals;
      deleted, err, answers := 0, NoError, [];
      ghost var m, log, screen := mapping.topics, world.log, world.screen;
      NoNewDoubts(screen, screen, screen);
      NothingAnswered();
      SweptStart(m, world.existing, now, maxAge, log);
      assert keys[..0] == [];
      for i := 0 to |keys|
        invariant Valid() && Later() && world.errors == old(world.errors) && err == NoError && deleted <= i && deleted == |m| - |mapping.topics|
        invariant |answers| == i && EndsWith(answers, err) && GoesOn(answers)
        invariant SweptSo(m, mapping.topics, world.existing, now, maxAge, keys[..|answers|], answers, log, world.log)
      {
        ghost var before := world.screen;
        var r;
        r, err, answers := SweepNext(keys, i, m, now, maxAge, answers, log);
        NoNewDoubts(screen, before, world.screen);
        deleted := deleted + if r.Confirms() then 1 else 0;
        if err != NoError || r == Forbidden {
          break;
        }
      }
    }

    /** The deletion of the next one. */
    method SweepNext(keys: seq<Key>, i: nat, ghost m: Table, ghost now: int, ghost maxAge: int,
                     ghost answers: seq<Outcome>, ghost log: seq<Request>)
      returns (r: Outcome, err: Error, ghost answered: seq<Outcome>)
      requires Valid() && i == |answers| < |keys| && OldestStale(m, now, maxAge, keys) && GoesOn(answers)
      requires SweptSo(m, mapping.topics, world.existing, now, maxAge, keys[..|answers|], answers, log, world.log)
      modifies this`dirty, mapping`topics, world
      ensures Reported(err)
      ensures Valid() && Later() && answered == answers + [r]
      ensures SweptSo(m, mapping.topics, world.existing, now, maxAge, keys[..|answered|], answered, log, world.log)
      ensures |mapping.topics| == |old(mapping.topics)| - if r.Confirms() then 1 else 0
      ensures EndsWith(answered, err) && (err == NoError && r != Forbidden ==> GoesOn(answered))
    {
      hide Valid, String, ParseKey, Guarded, Threads, OpenWhileLive, Swept, IsStale, OlderFirst, OldestStale;
      hide Agreed, Looks, Alone, Told, Confirmed, Deletions, SweptSo, EndsWith, GoesOn;
      ghost var before, existing, sent := mapping.topics, world.existing, world.log;
      StaleAt(m, now, maxAge, keys, i);
      assert keys[..i + 1] == keys[..i] + [keys[i]];
      StillThere(m, before, existing, now, maxAge, keys[..i], answers, log, sent, keys[i]);
      r, err := SweepOne(keys[i]);
      SweptStep(m, before, mapping.topics, existing, world.existing, now, maxAge, keys[..i], answers, log, sent, keys[i], r);
      Answered(answers, r, err);
      answered := answers + [r];
    }

    method SweepOne(key: Key) returns (r: Outcome, err: Error)
      requires Valid() && String(key) in mapping.topics
      modifies this`dirty, mapping`topics, world
      ensures Reported(err)
      ensures Valid() && Later() && world.existing <= old(world.existing)
      ensures world.log == old(world.log) + [Request.DeleteTopic(old(mapping.topics)[String(key)].thread)]
      ensures r.Confirms() ==>
        old(mapping.topics)[String(key)].thread !in world.existing && (err == NoError || err == SaveFailed)
      ensures mapping.topics == if r == Accepted || r == Gone then old(mapping.topics) - {String(key)} else old(mapping.topics)
      ensures |mapping.topics| == |old(mapping.topics)| - if r == Accepted || r == Gone then 1 else 0
      ensures (r == Accepted || r == Gone) && err == NoError ==> world.disk == Mem()
      ensures !r.Confirms() ==> err == if r == Cancelled then CallFailed else NoError
    {
      hide String, ParseKey, Guarded, Threads, OpenWhileLive, Agreed, Looks, Alone, Told;
      SizeWithout(mapping.topics, String(key));
      err := NoError;
      r := DeleteTopic(key);
      if r.Confirms() {
        err := Save();
      } else if r == Cancelled {
        err := CallFailed;
      }
    }

    /** Deletes one topic and, once it is confirmed gone, forgets its entry. */
    method DeleteTopic(key: Key) returns (r: Outcome)
      requires Valid() && String(key) in mapping.topics
      modifies mapping`topics, world
      ensures world.Noted(if r == Cancelled then CallFailed else NoError)
      ensures Valid() && Later() && world.existing <= old(world.existing) && world.saves == old(world.saves)
      ensures r.Confirms() ==>
        mapping.topics == old(mapping.topics) - {String(key)}
        && old(mapping.topics[String(key)]).thread !in world.existing
      ensures !r.Confirms() ==> mapping.topics == old(mapping.topics)
      ensures world.log == old(world.log) + [Request.DeleteTopic(old(mapping.topics[String(key)]).thread)]
    {
      hide String, ParseKey, Guarded, Threads, OpenWhileLive, Agreed, Looks, Alone, Told;
      r := world.Delete(mapping.topics[String(key)].thread);
      GuardedFewer(old(world.existing), world.existing, world.creator, Mem());
      AgreedFewer(old(world.existing), world.existing, world.screen, mapping.topics, mapping.topics);
      if r.Confirms() {
        DropGone(key);
      }
    }

    /** One input of a run. */
    method Take(input: Input)
      requires Valid()
      modifies this, mapping, world
      ensures Valid() && world.faults >= old(world.faults)
      ensures match input
        case Operate(_, parts) => CausedBy(old(world.screen.causes), world.screen.causes, parts, {})
        case OperatorClosed(thread) => CausedBy(old(world.screen.causes), world.screen.causes, {Door(thread)}, {})
        case OperatorReopened(thread) => CausedBy(old(world.screen.causes), world.screen.causes, {Door(thread)}, {thread})
        case Crash => world.screen.causes == old(world.screen.causes).(lost := world.screen.causes.lost)
        case _ => CausedBy(old(world.screen.causes), world.screen.causes, {}, {})
      ensures world.faults == old(world.faults) ==> world.screen.causes.refused == old(world.screen.causes.refused)
      ensures world.faults == old(world.faults) && Undisturbed([input]) ==> world.screen.unsure <= old(world.screen.unsure)
    {
      hide Valid, Agreed, OnlyRefusals, NoNewDoubt, CausedBy, Claims, Shown, OnlyAt, Alone, Lost;
      assert input in [input];
      ghost var screen, err, target := world.screen, NoError, None;
      NoCause(screen.causes);
      match input {
        case OperatorClosed(thread) => err, target := OnTopicClosed(thread);
          OperatorCause(screen.causes, {Door(thread)});
        case OperatorReopened(thread) => err, target := OnTopicReopened(thread);
        case Switch(lost, off, away) => Set(lost, off, away);
        case Operate(thread, parts) => Operated(thread, parts);
          OperatorCause(screen.causes, parts);
        case Crash => Restart();
        case _ => Work(input);
          NoOperator(screen, world.screen);
      }
    }

    /** What the program does of its own accord. */
    method Work(input: Input)
      requires Valid()
      requires input.Observe? || input.Pass? || input.Rewrite? || input.Fire? || input.SweepTick? || input.OtherWrite?
      modifies this, mapping, world
      ensures Valid() && Later()
      ensures old(rightsLost || paused || quiet) ==> world.log == old(world.log)
    {
      hide Valid, Agreed, Shown, Finished, Served, Settled, Replayed, Stuck, Deduped, Adopted, PartsSure, Refreshed, EditRequests;
      hide OldestStale, SweptSo, BatchDone, EndsWith, LiveSnapshot, NoNewDoubt, OnlyRefusals;
      var err, deleted;
      ghost var now, tried, answers;
      match input {
        case Observe(ev) => err := Handle(ev);
        case Pass(live) => err := Reconcile(live);
        case Rewrite(live) => err := Resync(live);
        case Fire(key) => err := Edit(key);
        case SweepTick(maxAge, mayDelete) => deleted, err, now, tried, answers := Sweep(maxAge, mayDelete);
        case OtherWrite => err := Save();
          NoNewDoubts(world.screen, world.screen, world.screen);
      }
    }

    /** Lost rights, the operator's switch and quiet mode. */
    method Set(rightsLost: bool, paused: bool, quiet: bool)
      requires Valid()
      modifies this`rightsLost, this`paused, this`quiet
      ensures Valid() && this.rightsLost == rightsLost && this.paused == paused && this.quiet == quiet
    {
      this.rightsLost, this.paused, this.quiet := rightsLost, paused, quiet;
    }

    /** The process dies and starts again from what is on disk. */
    method Restart()
      requires Valid()
      modifies this, mapping, world`screen
      ensures Valid() && mapping.topics == world.disk.topics && mapping.pending == world.disk.pending
      ensures agents == map[] && !rightsLost && !paused && !quiet && !force && !dirty
      ensures world.screen.unsure == old(world.screen.unsure) + Lost(old(mapping.topics), world.disk.topics)
      ensures world.screen.causes ==
              old(world.screen.causes).(lost := old(world.screen.causes.lost) + Lost(old(mapping.topics), world.disk.topics))
    {
      hide Guarded, Threads, OpenWhileLive, Agreed, Lost;
      ghost var screen := world.screen;
      world.Lose(Lost(mapping.topics, world.disk.topics));
      AgreedAfterCrash(world.existing, screen, world.screen, mapping.topics, world.disk.topics);
      mapping.topics, mapping.pending := world.disk.topics, world.disk.pending;
      agents, rightsLost, paused, quiet, force, dirty := map[], false, false, false, false, false;
    }
  }

  datatype Input =
    | Observe(ev: Event)
    | Pass(live: seq<Agent>)
    | Rewrite(live: seq<Agent>)
    | Fire(key: Key)
    | OperatorClosed(thread: int)
    | OperatorReopened(thread: int)
    | SweepTick(maxAge: int, mayDelete: bool)
    | Switch(rightsLost: bool, paused: bool, quiet: bool)
    | Operate(thread: int, parts: set<Part>)
    | OtherWrite
    | Crash

  /** What operators did to topics in these inputs. */
  function OperatedIn(inputs: seq<Input>): set<Part> {
    if inputs == [] then {}
    else
      OperatedIn(inputs[..|inputs| - 1]) +
      match inputs[|inputs| - 1]
      case Operate(_, parts) => parts
      case OperatorClosed(thread) => {Door(thread)}
      case OperatorReopened(thread) => {Door(thread)}
      case _ => {}
  }

  function ReopenedIn(inputs: seq<Input>): set<int> {
    set x | x in inputs && x.OperatorReopened? :: x.thread
  }

  /** The reasons for doubt that a run of these inputs may have added. */
  ghost predicate RunCauses(before: Causes, after: Causes, inputs: seq<Input>) {
    && after.given == before.given && before.refused <= after.refused
    && after.operated <= before.operated + OperatedIn(inputs)
    && after.lifted <= before.lifted + ReopenedIn(inputs)
    && ((forall x <- inputs :: !x.Crash?) ==> after.lost == before.lost)
  }

  lemma RunCausesNone(c: Causes)
    ensures RunCauses(c, c, [])
  {
  }

  lemma RunCausesMore(c: Causes, before: Causes, after: Causes, inputs: seq<Input>, i: nat)
    requires i < |inputs| && RunCauses(c, before, inputs[..i])
    requires match inputs[i]
      case Operate(thread, parts) => CausedBy(before, after, parts, {})
      case OperatorClosed(thread) => CausedBy(before, after, {Door(thread)}, {})
      case OperatorReopened(thread) => CausedBy(before, after, {Door(thread)}, {thread})
      case Crash => after == before.(lost := after.lost)
      case _ => CausedBy(before, after, {}, {})
    ensures RunCauses(c, after, inputs[..i + 1])
  {
    var x := inputs[i];
    assert inputs[..i + 1] == inputs[..i] + [x];
    assert inputs[..i + 1][..i] == inputs[..i];
    assert x in inputs[..i + 1] && forall y <- inputs[..i] :: y in inputs[..i + 1];
    assert ReopenedIn(inputs[..i]) <= ReopenedIn(inputs[..i + 1]);
  }

  /** Nothing but the program touched the topics, and it did not die. */
  predicate Undisturbed(inputs: seq<Input>) {
    forall x <- inputs :: !x.Operate? && !x.OperatorClosed? && !x.OperatorReopened? && !x.Crash?
  }

  /** Any run from any guarded disk, with any inputs, any failures and crashes
      between any two of them: the guard holds at every moment of it. At its end
      Telegram shows every topic as recorded but for the unsure parts, and each of
      these was unsure at the start or has one of the causes: a request about it,
      sent but not accepted, an operator's action among the inputs, a reopened
      topic, or a crash. */
  method Run(world: World, inputs: seq<Input>) returns (r: Reconciler)
    requires world.Valid() && Agreed(world.existing, world.screen, world.disk.topics)
    modifies world
    ensures r.Valid() && r.world == world
    ensures forall h <- world.history :: Guarded(h.existing, h.creator, h.disk)
    ensures Guarded(world.existing, world.creator, world.disk)
    ensures Guarded(world.existing, world.creator, r.Mem())
    ensures Agreed(world.existing, world.screen, r.mapping.topics)
    ensures forall p <- world.screen.unsure :: Explains(world.screen.causes, p)
    ensures AllSent(world.screen.causes.refused, world.log)
    ensures RunCauses(old(world.screen.causes), world.screen.causes, inputs)
    ensures world.faults == old(world.faults) ==> world.screen.causes.refused == old(world.screen.causes.refused)
    ensures world.faults == old(world.faults) && Undisturbed(inputs) ==> world.screen.unsure <= old(world.screen.unsure)
  {
    hide RunCauses, Explains, AllSent;
    r := new Reconciler(world);
    RunCausesNone(world.screen.causes);
    assert inputs[..0] == [];
    for i := 0 to |inputs|
      invariant r.Valid() && r.world == world && fresh(r) && fresh(r.mapping)
      invariant RunCauses(old(world.screen.causes), world.screen.causes, inputs[..i])
      invariant world.faults >= old(world.faults)
      invariant world.faults == old(world.faults) ==> world.screen.causes.refused == old(world.screen.causes.refused)
      invariant world.faults == old(world.faults) && Undisturbed(inputs) ==> world.screen.unsure <= old(world.screen.unsure)
    {
      ghost var before := world.screen.causes;
      assert inputs[i] in inputs;
      r.Take(inputs[i]);
      RunCausesMore(old(world.screen.causes), before, world.screen.causes, inputs, i);
    }
    assert inputs[..|inputs|] == inputs;
  }

  /** A report and, later, the edit it armed: with writes on and nothing failing the
      topic shows what was reported, unless the agent is stuck. */
  method ReportAndFire(r: Reconciler, ev: Event) returns (err: Error)
    requires r.Valid() && !r.force && ev.kind != AgentGone && WellFormed(ev.agent.key)
    modifies r, r.mapping, r.world
    ensures r.Valid()
    ensures !old(r.rightsLost) && !old(r.paused) && !old(r.quiet) && r.world.faults == old(r.world.faults)
            && Stuck(old(r.mapping.topics), old(r.mapping.pending), [ev.agent]) == {} ==>
      && err == NoError && String(ev.agent.key) in r.mapping.topics
      && Shown(r.mapping.topics[String(ev.agent.key)], ev.agent)
  {
    hide String, ParseKey, WellFormed, Stuck, Refreshed, TakenOver, EditRequests, Agreed, Alone, Threads, OpenWhileLive, Guarded;
    err := r.Handle(ev);
    if err == NoError {
      err := r.Edit(ev.agent.key);
    }
  }

  /** Switched off, the program still writes: an operator reopens the finished topic
      of an agent that is back, and its status is sent. */
  method PausedYetSends(key: Key, a: Agent) returns (r: Reconciler)
    requires WellFormed(key) && a.key == key && a.status.Live()
    ensures fresh(r) && fresh(r.world) && r.Valid() && r.paused
    ensures r.world.faults == 0 ==> r.world.log != []
  {
    hide ParseKey, WellFormed, Alone, OnlyAt, Claims;
    var e := TopicEntry(7, "", Exited, true, true, "", "", false, 0);
    var topics := map[String(key) := e];
    var none: Table := map[];
    assert topics == none[String(key) := e] && Threads(none) == {};
    ThreadsLink(none, String(key), e);
    var world := new World({7}, Snapshot(topics, {}), map[7 := Title("", Working, true)]);
    assert Agreed(world.existing, world.screen, topics);
    r := new Reconciler(world);
    r.paused, r.agents := true, map[key := a];
    var err;
    ghost var target;
    err, target := r.OnTopicReopened(7);
    OnlyClaim(topics, key, 7, target);
  }

  lemma OnlyClaim(m: Table, key: Key, thread: int, target: Option<Key>)
    requires WellFormed(key) && m.Keys == {String(key)} && m[String(key)].thread == thread && Claims(m, thread, target)
    ensures target == Some(key)
  {
    hide String, ParseKey, WellFormed, Beats;
    ParseString(key);
    NotEmpty(key);
    assert String(key) in m - {[]};
  }

  lemma NotEmpty(key: Key)
    requires WellFormed(key)
    ensures String(key) != []
  {
    ParseString(key);
    assert ParseKey([]) == None;
  }
}
