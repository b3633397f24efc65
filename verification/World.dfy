/** The reconciler's surroundings: Telegram, which holds the topics, and the
    disk, which holds the last mapping that was written. Every outcome the
    program can meet is left open: a call may fail before or after it took
    effect, a failed write may or may not have replaced the file, and operators
    may delete topics at any time.

    The surroundings carry the safety property as their own invariant, so it
    holds at every single step and therefore at every point where the process
    can die. */
module World {
  import opened Keys
  import opened Topics
  import opened Reassociation

  datatype Snapshot = Snapshot(topics: Table, pending: set<Text>)

  /** The existing topics this program asked for that no entry of st links. */
  ghost function Orphans(existing: set<int>, creator: map<int, Text>, st: Snapshot): set<int> {
    set t | t in existing && t in creator && t !in Threads(st.topics)
  }

  /** Every unlinked topic is covered by the creation intent of the agent it was
      created for, and no agent has two of them. */
  ghost predicate Guarded(existing: set<int>, creator: map<int, Text>, st: Snapshot) {
    var orphans := Orphans(existing, creator, st);
    && (forall t <- orphans :: creator[t] in st.pending)
    && (forall t, u | t in orphans && u in orphans && t != u :: creator[t] != creator[u])
  }

  /** A topic of a running agent is never recorded as closed. */
  ghost predicate OpenWhileLive(m: Table) {
    forall s <- m :: m[s].status.Live() ==> !m[s].closed
  }

  ghost predicate Storable(existing: set<int>, used: set<int>, creator: map<int, Text>, st: Snapshot) {
    Guarded(existing, creator, st) && Threads(st.topics) <= used && OpenWhileLive(st.topics)
  }

  /** Telegram losing topics never breaks the guard. */
  lemma GuardedFewer(existing: set<int>, fewer: set<int>, creator: map<int, Text>, st: Snapshot)
    requires Guarded(existing, creator, st) && fewer <= existing
    ensures Guarded(fewer, creator, st)
  {
  }

  /** Nor does forgetting entries whose topics do not exist, moving entries to
      other keys or changing anything but the thread ids. */
  lemma GuardedSameThreads(existing: set<int>, creator: map<int, Text>, st: Snapshot, st': Snapshot)
    requires Guarded(existing, creator, st) && st'.pending >= st.pending
    requires Threads(st.topics) * existing <= Threads(st'.topics)
    ensures Guarded(existing, creator, st')
  {
  }

  /** A new topic is safe to ask for once its intent is recorded and no earlier
      topic of the same agent is unlinked. */
  lemma GuardedCreate(existing: set<int>, creator: map<int, Text>, st: Snapshot, key: Text, t: int)
    requires Guarded(existing, creator, st) && key in st.pending && t !in existing && t !in creator
    requires forall u <- Orphans(existing, creator, st) :: creator[u] != key
    ensures Guarded(existing + {t}, creator[t := key], st)
  {
    hide Threads;
    var creator' := creator[t := key];
    forall u | u in Orphans(existing + {t}, creator', st) ensures u == t || u in Orphans(existing, creator, st) {
    }
  }

  /** Linking it makes the intent unnecessary. */
  lemma GuardedLink(existing: set<int>, creator: map<int, Text>, st: Snapshot, key: Text, t: int, topics: Table)
    requires Guarded(existing, creator, st)
    requires forall u <- Orphans(existing, creator, st) :: u == t || creator[u] != key
    requires Threads(topics) >= Threads(st.topics) + {t}
    ensures Guarded(existing, creator, Snapshot(topics, st.pending - {key}))
  {
    hide Threads;
  }

  datatype Outcome = Accepted | Gone | ClosedTopic | Forbidden | Fatal | Cancelled | Other {
    /** A deletion that was answered so has taken place. */
    predicate Confirms() {
      this == Accepted || this == Gone
    }
  }

  /** How an operation of the reconciler ends. */
  datatype Error =
    | NoError
    | SaveFailed
    | UnresolvedIntent
    | OutcomeUnknown
    | CallFailed
    | PlanRejected

  datatype Created = Made(thread: int, name: string) | Rejected | Unanswered

  /** What is asked of Telegram. An absent part of an edit stays as it is. */
  datatype Request =
    | AskTopic(title: string, icon: Status)
    | EditTopic(thread: int, name: Option<string>, status: Option<Status>)
    | CloseTopic(thread: int)
    | ReopenTopic(thread: int)
    | DeleteTopic(thread: int)

  // ---- what Telegram shows ----

  datatype Title = Title(name: string, status: Status, closed: bool)

  /** What an accepted request makes of a topic. */
  function Taken(t: Title, r: Request): Title {
    match r
    case EditTopic(_, name, status) =>
      t.(name := if name.Some? then name.value else t.name, status := if status.Some? then status.value else t.status)
    case CloseTopic(_) => t.(closed := true)
    case ReopenTopic(_) => t.(closed := false)
    case _ => t
  }

  datatype Part = Name(thread: int) | Icon(thread: int) | Door(thread: int)

  function Parts(thread: int): set<Part> {
    {Name(thread), Icon(thread), Door(thread)}
  }

  /** What a request decides of its topic. */
  function Told(r: Request): set<Part> {
    match r
    case EditTopic(t, name, status) =>
      (if name.Some? then {Name(t)} else {}) + (if status.Some? then {Icon(t)} else {})
    case CloseTopic(t) => {Door(t)}
    case ReopenTopic(t) => {Door(t)}
    case _ => {}
  }

  /** Why a part may be unsure: it was given so, a request about it was not
      accepted, an operator changed it, a mute was lifted over a status that was
      never sent, or a crash lost what was not written. */
  datatype Causes = Causes(given: set<Part>, refused: set<Request>, operated: set<Part>, lifted: set<int>, lost: set<Part>)

  ghost predicate Explains(c: Causes, p: Part) {
    || p in c.given || p in c.operated || p in c.lost
    || (p.Icon? && p.thread in c.lifted)
    || exists r :: r in c.refused && p in Told(r)
  }

  /** What the topics look like, and the parts of them that may look different from
      what the program was told last, with the reasons there are for that. */
  datatype Screen = Screen(titles: map<int, Title>, unsure: set<Part>, causes: Causes)

  ghost predicate Accounted(s: Screen) {
    forall p <- s.unsure :: Explains(s.causes, p)
  }

  ghost predicate AllSent(refused: set<Request>, log: seq<Request>) {
    forall r <- refused :: r in log
  }

  lemma AllSentMore(refused: set<Request>, log: seq<Request>, r: Request)
    requires AllSent(refused, log)
    ensures AllSent(refused, log + [r]) && AllSent(refused + {r}, log + [r])
  {
  }

  lemma AccountedLess(s: Screen, s': Screen)
    requires Accounted(s) && s'.unsure <= s.unsure && s'.causes == s.causes
    ensures Accounted(s')
  {
  }

  lemma AccountedRefused(s: Screen, s': Screen, r: Request)
    requires Accounted(s) && s'.unsure == s.unsure + Told(r)
    requires s'.causes == s.causes.(refused := s.causes.refused + {r})
    ensures Accounted(s')
  {
    hide Told;
    forall p | p in s'.unsure ensures Explains(s'.causes, p) {
      if p in Told(r) {
        assert r in s'.causes.refused;
      } else {
        assert Explains(s.causes, p);
      }
    }
  }

  lemma AccountedMore(s: Screen, s': Screen, parts: set<Part>)
    requires Accounted(s) && s'.unsure == s.unsure + parts && forall p <- parts :: Explains(s'.causes, p)
    requires s'.causes.given == s.causes.given && s'.causes.refused == s.causes.refused
    requires s'.causes.operated >= s.causes.operated && s'.causes.lifted >= s.causes.lifted && s'.causes.lost >= s.causes.lost
    ensures Accounted(s')
  {
    hide Told;
    forall p | p in s'.unsure ensures Explains(s'.causes, p) {
      assert p in parts || Explains(s.causes, p);
    }
  }

  datatype Moment = Moment(existing: set<int>, creator: map<int, Text>, disk: Snapshot)

  class World {
    var existing: set<int>
    var used: set<int>
    ghost var creator: map<int, Text>
    var disk: Snapshot
    ghost var screen: Screen
    ghost var history: seq<Moment>
    /** Every request sent so far, in order. */
    ghost var log: seq<Request>
    ghost var saves: nat
    ghost var faults: nat
    /** How many of them have to be reported, and what the last of those was. */
    ghost var errors: nat
    ghost var last: Error

    ghost predicate Valid()
      reads this
    {
      && existing <= used && creator.Keys <= used && existing <= screen.titles.Keys
      && Accounted(screen) && AllSent(screen.causes.refused, log)
      && Storable(existing, used, creator, disk)
      && (forall h <- history :: Guarded(h.existing, h.creator, h.disk))
    }

    /** Topics of whose look the program knows nothing for sure. */
    constructor (existing: set<int>, disk: Snapshot, ghost titles: map<int, Title>)
      requires Storable(existing, existing, map[], disk) && titles.Keys == existing
      ensures Valid() && this.existing == existing && used == existing && this.disk == disk && creator == map[]
      ensures log == [] && faults == 0 && history == []
      ensures forall t <- existing :: Parts(t) <= screen.unsure
      ensures screen.titles == titles
    {
      this.existing, used, this.disk, creator := existing, existing, disk, map[];
      log, saves, faults, errors, last, history := [], 0, 0, 0, NoError, [];
      var all := set t, p | t in existing && p in Parts(t) :: p;
      screen := Screen(titles, all, Causes(all, {}, {}, {}, {}));
    }

    ghost predicate CanStore(st: Snapshot)
      reads this
    {
      Storable(existing, used, creator, st)
    }

    /** This failure has to be reported, if it is one. */
    twostate predicate Noted(err: Error)
      reads this
    {
      if err == NoError then errors == old(errors) && last == old(last) else errors == old(errors) + 1 && last == err
    }

    /** An atomic file replacement. */
    method Save(st: Snapshot) returns (ok: bool)
      requires Valid() && CanStore(st)
      modifies this
      ensures Valid() && CanStore(st)
      ensures existing == old(existing) && used == old(used) && creator == old(creator) && log == old(log)
      ensures screen == old(screen)
      ensures disk == st || (!ok && disk == old(disk))
      ensures saves == old(saves) + 1
      ensures faults == old(faults) + if ok then 0 else 1
      ensures Noted(if ok then NoError else SaveFailed)
    {
      var reached := *;
      ok := *;
      if ok || reached {
        disk := st;
      }
      saves := saves + 1;
      Pass(ok, if ok then NoError else SaveFailed);
    }

    /** Topics may be deleted by hand at any time. */
    method Vanish()
      requires Valid()
      modifies this`existing
      ensures Valid() && existing <= old(existing)
    {
      hide Guarded, Threads, OpenWhileLive, Accounted, AllSent;
      var gone: set<int> := *;
      GuardedFewer(existing, existing - gone, creator, disk);
      existing := existing - gone;
    }

    /** A create request for the agent stored under key. It may be carried out
        without an answer; a topic that is answered exists and is new. */
    method CreateTopic(ghost key: Text, name: string, icon: Status) returns (r: Created, ghost made: set<int>)
      requires Valid() && key in disk.pending
      requires forall t <- Orphans(existing, creator, disk) :: creator[t] != key
      modifies this
      ensures Valid() && disk == old(disk) && used == old(used) + made && made !! old(used)
      ensures log == old(log) + [AskTopic(name, icon)] && saves == old(saves)
      ensures existing <= old(existing) + made
      ensures match r
        case Made(thread, echoed) =>
          && made == {thread} && creator == old(creator)[thread := key]
          && thread in screen.titles && screen.titles[thread] == Title(if echoed != "" then echoed else name, icon, false)
        case Rejected =>
          made == {} && creator == old(creator)
        case Unanswered =>
          (made == {} && creator == old(creator)) || exists t :: made == {t} && creator == old(creator)[t := key]
      ensures forall t <- old(used) :: t in old(screen.titles) ==> t in screen.titles && screen.titles[t] == old(screen.titles)[t]
      ensures screen.unsure <= old(screen.unsure) && screen.causes == old(screen.causes)
      ensures forall p <- old(screen.unsure) :: p in screen.unsure || p.thread in made
      ensures r.Made? ==> Parts(r.thread) !! screen.unsure
      ensures faults >= old(faults)
      ensures faults == old(faults) ==> r.Made? && (r.name == "" || r.name == name)
      ensures Noted(if r.Rejected? then CallFailed else if r.Unanswered? then OutcomeUnknown else NoError)
    {
      hide Storable, Accounted, AllSent, Parts, Threads;
      Vanish();
      made := {};
      var thread: int, echoed: string := *, *;
      var accepted, answered := *, *;  // a refusal is an answer too
      AllSentMore(screen.causes.refused, log, AskTopic(name, icon));
      log := log + [AskTopic(name, icon)];
      r := if answered then Rejected else Unanswered;
      if accepted && thread !in used {
        Appear(key, thread, Title(if echoed != "" then echoed else name, icon, false), answered);
        r := if answered then Made(thread, echoed) else Unanswered;
        made := {thread};
      }
      Pass(r.Made? && (r.name == "" || r.name == name),
           if r.Rejected? then CallFailed else if r.Unanswered? then OutcomeUnknown else NoError);
    }

    /** A new topic, asked for by the agent stored under key. */
    method Appear(ghost key: Text, thread: int, title: Title, answered: bool)
      requires Valid() && key in disk.pending && thread !in used
      requires forall t <- Orphans(existing, creator, disk) :: creator[t] != key
      modifies this`existing, this`used, this`creator, this`screen
      ensures Valid() && existing == old(existing) + {thread} && used == old(used) + {thread}
      ensures creator == old(creator)[thread := key] && screen.titles == old(screen.titles)[thread := title]
      ensures screen.unsure <= old(screen.unsure) && screen.causes == old(screen.causes)
      ensures forall p <- old(screen.unsure) :: p in screen.unsure || p.thread == thread
      ensures answered ==> Parts(thread) !! screen.unsure
    {
      hide Guarded, Threads, OpenWhileLive, Accounted, AllSent;
      GuardedCreate(existing, creator, disk, key, thread);
      existing, used, creator := existing + {thread}, used + {thread}, creator[thread := key];
      ghost var before := screen;
      screen := before.(titles := before.titles[thread := title],
                        unsure := if answered then before.unsure - Parts(thread) else before.unsure);
      AccountedLess(before, screen);
    }

    /** Another moment at which the process may die. */
    ghost method Pass(well: bool, err: Error)
      requires Valid()
      modifies this`history, this`faults, this`errors, this`last
      ensures Valid() && Noted(err) && faults == old(faults) + if well then 0 else 1
    {
      hide Guarded, Threads, OpenWhileLive, Accounted, AllSent;
      faults := faults + if well then 0 else 1;
      errors, last := errors + if err == NoError then 0 else 1, if err == NoError then last else err;
      history := history + [Moment(existing, creator, disk)];
    }

    /** An edit, close or reopen request for one topic. Unless it is accepted, what
        it is about becomes unsure; once it is, that is sure again, if alone says
        that no second entry claims the topic. */
    method Touch(req: Request, ghost alone: bool) returns (r: Outcome)
      requires Valid() && (req.EditTopic? || req.CloseTopic? || req.ReopenTopic?)
      modifies this
      ensures Valid() && disk == old(disk) && used == old(used) && creator == old(creator)
      ensures log == old(log) + [req] && saves == old(saves)
      ensures existing <= old(existing)
      ensures r == Gone ==> req.thread !in existing
      ensures faults == old(faults) + if r == Accepted then 0 else 1
      ensures Noted(if r == Forbidden || r == Fatal || r == Cancelled then CallFailed else NoError)
      ensures forall t <- existing | t != req.thread :: screen.titles[t] == old(screen.titles)[t]
      ensures r == Accepted && req.thread in existing ==>
                screen.titles[req.thread] == Taken(old(screen.titles)[req.thread], req)
      ensures r != Accepted && req.thread in existing ==>
                screen.titles[req.thread] in {old(screen.titles)[req.thread], Taken(old(screen.titles)[req.thread], req)}
      ensures screen.unsure ==
                if r != Accepted then old(screen.unsure) + Told(req)
                else if alone then old(screen.unsure) - Told(req)
                else old(screen.unsure)
      ensures screen.causes == old(screen.causes).(refused := old(screen.causes.refused) + if r != Accepted then {req} else {})
    {
      hide Storable, Accounted, AllSent, Taken, Told;
      r := Answer(req.thread);
      AllSentMore(screen.causes.refused, log, req);
      log := log + [req];
      Redraw(req, r == Accepted, alone);
      Pass(r == Accepted, if r == Forbidden || r == Fatal || r == Cancelled then CallFailed else NoError);
    }

    /** Any answer; gone is true. */
    method Answer(thread: int) returns (r: Outcome)
      requires Valid()
      modifies this`existing
      ensures Valid() && existing <= old(existing) && (r == Gone ==> thread !in existing)
    {
      Vanish();
      r := *;
      if r == Gone && thread in existing {
        r := Other;
      }
    }

    /** A request that was not accepted may have worked. */
    ghost method Redraw(req: Request, accepted: bool, alone: bool)
      requires Valid() && AllSent(screen.causes.refused + {req}, log) && (req.EditTopic? || req.CloseTopic? || req.ReopenTopic?)
      modifies this`screen
      ensures Valid()
      ensures forall t <- existing | t != req.thread :: screen.titles[t] == old(screen.titles)[t]
      ensures accepted && req.thread in existing ==>
                screen.titles[req.thread] == Taken(old(screen.titles)[req.thread], req)
      ensures !accepted && req.thread in existing ==>
                screen.titles[req.thread] in {old(screen.titles)[req.thread], Taken(old(screen.titles)[req.thread], req)}
      ensures screen.unsure ==
                if !accepted then old(screen.unsure) + Told(req)
                else if alone then old(screen.unsure) - Told(req)
                else old(screen.unsure)
      ensures screen.causes == old(screen.causes).(refused := old(screen.causes.refused) + if !accepted then {req} else {})
    {
      hide Guarded, Threads, OpenWhileLive, Accounted, AllSent, Taken, Told;
      var worked: bool := *;
      var titles := screen.titles;
      if req.thread in titles && (accepted || worked) {
        titles := titles[req.thread := Taken(titles[req.thread], req)];
      }
      var before := screen;
      if accepted {
        screen := before.(titles := titles, unsure := if alone then before.unsure - Told(req) else before.unsure);
        assert before.causes == before.causes.(refused := before.causes.refused + {});
        AccountedLess(before, screen);
      } else {
        screen := Screen(titles, before.unsure + Told(req), before.causes.(refused := before.causes.refused + {req}));
        AccountedRefused(before, screen, req);
      }
    }

    /** A delete request: an unanswered one may have worked. */
    method Delete(thread: int) returns (r: Outcome)
      requires Valid()
      modifies this
      ensures Valid() && disk == old(disk) && used == old(used) && creator == old(creator)
      ensures log == old(log) + [DeleteTopic(thread)] && saves == old(saves) && screen == old(screen)
      ensures existing <= old(existing)
      ensures r == Accepted || r == Gone ==> thread !in existing
      ensures faults == old(faults) + if r == Accepted then 0 else 1
      ensures Noted(if r == Cancelled then CallFailed else NoError)
    {
      hide Guarded, Threads, OpenWhileLive, Accounted, AllSent;
      Vanish();
      r := *;
      if r == Accepted || r == Gone {
        GuardedFewer(existing, existing - {thread}, creator, disk);
        existing := existing - {thread};
      }
      AllSentMore(screen.causes.refused, log, DeleteTopic(thread));
      log := log + [DeleteTopic(thread)];
      Pass(r == Accepted, if r == Cancelled then CallFailed else NoError);
    }

    /** An operator changes parts of a topic, and the program is not told how. */
    ghost method Meddle(thread: int, parts: set<Part>)
      requires Valid()
      modifies this`screen
      ensures Valid() && screen.unsure == old(screen.unsure) + parts
      ensures screen.causes == old(screen.causes).(operated := old(screen.causes.operated) + parts)
      ensures forall t <- old(screen.titles) | t != thread :: t in screen.titles && screen.titles[t] == old(screen.titles)[t]
      ensures thread in old(screen.titles) ==>
        && thread in screen.titles
        && (Name(thread) !in parts ==> screen.titles[thread].name == old(screen.titles)[thread].name)
        && (Icon(thread) !in parts ==> screen.titles[thread].status == old(screen.titles)[thread].status)
        && (Door(thread) !in parts ==> screen.titles[thread].closed == old(screen.titles)[thread].closed)
    {
      hide Guarded, Threads, OpenWhileLive, Accounted, AllSent;
      var title: Title, changed: map<int, Title> := *, screen.titles;
      if thread in changed {
        var was := changed[thread];
        changed := changed[thread := Title(if Name(thread) in parts then title.name else was.name,
                                           if Icon(thread) in parts then title.status else was.status,
                                           if Door(thread) in parts then title.closed else was.closed)];
      }
      var before := screen;
      screen := Screen(changed, before.unsure + parts, before.causes.(operated := before.causes.operated + parts));
      AccountedMore(before, screen, parts);
    }

    /** A mute is lifted over a status that was never sent. */
    ghost method Lift(thread: int)
      requires Valid()
      modifies this`screen
      ensures Valid() && screen.titles == old(screen.titles) && screen.unsure == old(screen.unsure) + {Icon(thread)}
      ensures screen.causes == old(screen.causes).(lifted := old(screen.causes.lifted) + {thread})
    {
      hide Guarded, Threads, OpenWhileLive, Accounted, AllSent;
      var before := screen;
      screen := Screen(before.titles, before.unsure + {Icon(thread)}, before.causes.(lifted := before.causes.lifted + {thread}));
      AccountedMore(before, screen, {Icon(thread)});
    }

    /** The process died with these parts not written. */
    ghost method Lose(parts: set<Part>)
      requires Valid()
      modifies this`screen
      ensures Valid() && screen.titles == old(screen.titles) && screen.unsure == old(screen.unsure) + parts
      ensures screen.causes == old(screen.causes).(lost := old(screen.causes.lost) + parts)
    {
      hide Guarded, Threads, OpenWhileLive, Accounted, AllSent;
      var before := screen;
      screen := Screen(before.titles, before.unsure + parts, before.causes.(lost := before.causes.lost + parts));
      AccountedMore(before, screen, parts);
    }

    method Now() returns (now: int)
    {
      now := *;
    }
  }
}
