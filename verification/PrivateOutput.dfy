/** The queue of private deliveries. One tick serves at most one job and at most
    four mirrors of it; the rest waits, and a reply that is not written yet is
    waited for three times. */
module PrivateOutput {
  import opened Keys
  import opened Topics
  import opened SharePolicy
  import opened ShareRuns
  import opened ShareTables
  import opened Sorting

  const BATCH := 4
  const RETRIES := 3
  const SETTLE := 2
  const NEXT_BATCH := 1
  const REPLY_DELAY := 5

  /** grants names the mirrors still to serve, each at the revision it was
      queued under. */
  datatype Job = Job(agent: Agent, due: int, captured: bool, attempts: nat, grants: map<Id, nat>)

  /** What the world answers during one tick. */
  datatype Weather = Weather(
    now: int,
    policy: Desk,
    vouched: map<Key, Agent>,
    paused: set<Id>,
    screens: set<Id>,
    unavailable: set<int>,
    exact: bool,
    replyPending: bool,
    readable: bool)

  // ---- which mirrors are still admitted ----

  function OriginOf(d: Desk, id: Id, revision: nat, key: Key): Origin
    requires id in d.st.grants
  {
    var m := d.st.MirrorOf(id);
    Origin(d.st.grants[id].recipient, m.chat, m.thread, id, revision, key, d.process)
  }

  predicate Admitted(w: Weather, id: Id, revision: nat) {
    && !w.policy.disabled && id in w.policy.st.grants
    && var g := w.policy.st.grants[id];
    && g.revision == revision && id !in w.paused && g.recipient !in w.unavailable
    && Decide(w.policy, OriginOf(w.policy, id, revision, g.key), Output, w.now, w.vouched) == Allowed
  }

  /** A mirror is admitted exactly when all of this holds at that moment. */
  lemma AdmittedExactly(w: Weather, id: Id, revision: nat)
    requires Named(w.policy.st)
    ensures Admitted(w, id, revision) <==>
      && !w.policy.disabled && w.policy.bot == w.policy.st.bot && id in w.policy.st.grants && id !in w.paused
      && var g := w.policy.st.grants[id];
      && g.revision == revision > 0 && g.state == Active && (g.expires.Some? ==> w.now < g.expires.value)
      && g.recipient > 0 && g.recipient !in w.unavailable
      && id in w.policy.st.mirrors
      && var m := w.policy.st.mirrors[id];
      && m.grant == id && !m.creating && m.chat > 0 && m.thread > 0
      && g.key.pane != [] && g.key.terminal != [] && g.key in w.vouched
      && w.vouched[g.key].status != Exited && w.vouched[g.key].key == g.key
      && (g.key.digest == [] ==> g.process == w.policy.process != 0)
  {
    if id in w.policy.st.grants {
      BeginAdmits(w.policy, OriginOf(w.policy, id, revision, w.policy.st.grants[id].key), Output, w.now, w.vouched);
    }
  }

  ghost function Open(w: Weather, job: Job): set<Id> {
    set id | id in job.grants && Admitted(w, id, job.grants[id])
  }

  ghost predicate NoRepeats(s: seq<Id>) {
    forall i, j | 0 <= i < j < |s| :: s[i] != s[j]
  }

  ghost function Elements(s: seq<Id>): set<Id> {
    set x | x in s
  }

  method Origins(w: Weather, job: Job) returns (ids: seq<Id>)
    ensures Elements(ids) == Open(w, job) && NoRepeats(ids)
  {
    hide Admitted;
    ids := [];
    var rest := job.grants.Keys;
    while rest != {}
      invariant rest <= job.grants.Keys && NoRepeats(ids)
      invariant forall x :: x in ids <==> x in job.grants && x !in rest && Admitted(w, x, job.grants[x])
      decreases rest
    {
      var id :| id in rest;
      if Admitted(w, id, job.grants[id]) {
        ids := ids + [id];
      }
      rest := rest - {id};
    }
  }

  function AtMostFour(n: nat): nat {
    if n <= 4 then n else 4
  }

  lemma {:induction false} DistinctCount(s: seq<Id>)
    requires NoRepeats(s)
    ensures |Elements(s)| == |s|
  {
    if s != [] {
      DistinctCount(s[1..]);
      assert Elements(s) == {s[0]} + Elements(s[1..]);
      assert s[0] !in Elements(s[1..]);
    }
  }

  function Take(s: seq<Id>): seq<Id> {
    if |s| <= BATCH then s else s[..BATCH]
  }

  function Rest(s: seq<Id>): seq<Id> {
    if |s| <= BATCH then [] else s[BATCH..]
  }

  lemma TakeRest(s: seq<Id>)
    requires NoRepeats(s)
    ensures |Take(s)| == AtMostFour(|s|) && Elements(Take(s)) + Elements(Rest(s)) == Elements(s)
    ensures Elements(Take(s)) !! Elements(Rest(s)) && NoRepeats(Take(s)) && NoRepeats(Rest(s))
    ensures s != [] ==> Elements(Rest(s)) < Elements(s) && Take(s) != []
  {
    if |s| > BATCH {
      assert s == s[..BATCH] + s[BATCH..];
      assert s[0] in Elements(s) && s[0] !in Elements(Rest(s));
    } else if s != [] {
      assert s[0] in Elements(s) && Rest(s) == [];
    }
  }

  /** The same grants at the same revisions, restricted to ids. */
  function Requeue(job: Job, ids: seq<Id>): map<Id, nat> {
    map id | id in ids && id in job.grants :: job.grants[id]
  }

  lemma RequeueKeys(w: Weather, job: Job, ids: seq<Id>)
    requires Elements(ids) <= Open(w, job)
    ensures Requeue(job, ids).Keys == Elements(ids) && Elements(ids) <= job.grants.Keys
    ensures forall id <- Requeue(job, ids) :: Requeue(job, ids)[id] == job.grants[id]
  {
    hide Admitted;
    forall x ensures x in Requeue(job, ids).Keys <==> x in Elements(ids) {
      assert x in Elements(ids) ==> x in Open(w, job);
    }
  }

  // ---- how much is left to do ----

  /** The ticks a job can take at most. */
  function Left(job: Job): nat {
    |job.grants| + if job.captured then 0 else 1 + if job.attempts < RETRIES then RETRIES - job.attempts else 0
  }

  /** (captured, remaining attempts, grants left) decreases lexicographically. */
  predicate Shrinks(before: Job, after: Job) {
    || (!before.captured && after.captured)
    || (before.captured == after.captured && before.attempts < after.attempts <= RETRIES)
    || (before.captured == after.captured && before.attempts == after.attempts && |after.grants| < |before.grants|)
  }

  lemma ShrinkingLeft(before: Job, after: Job)
    requires Shrinks(before, after) && after.grants.Keys <= before.grants.Keys
    requires before.captured ==> after.captured && after.attempts == before.attempts
    ensures Left(after) < Left(before) <= |before.grants| + 4
  {
    SubsetSize(after.grants.Keys, before.grants.Keys);
  }

  lemma RequeuedLeft(w: Weather, job: Job, next: Job)
    requires Requeued(w, job, next) && Shrinks(job, next)
    ensures Left(next) < Left(job) && next.agent == job.agent && next.grants != map[]
  {
    hide Open;
    ShrinkingLeft(job, next);
  }

  // ---- one delivery ----

  /** Some mirror of the job waits for its reply: it shows replies, and this one is
      not written yet. */
  ghost predicate Waits(w: Weather, job: Job) {
    && !job.captured && w.exact && job.agent.status == Done && w.replyPending && job.attempts < 3
    && exists id <- Open(w, job) :: id !in w.screens
  }

  /** The mirrors that need not wait. */
  ghost function Ready(w: Weather, job: Job): set<Id> {
    if Waits(w, job) then Open(w, job) * w.screens else Open(w, job)
  }

  /** The job that is queued again for some of its mirrors. */
  ghost predicate Requeued(w: Weather, job: Job, next: Job) {
    && next == (if Waits(w, job) then job.(attempts := job.attempts + 1, due := w.now + 5)
                else job.(captured := true, due := w.now + 1)).(grants := next.grants)
    && {} < next.grants.Keys <= Open(w, job) <= job.grants.Keys
    && forall id <- next.grants :: next.grants[id] == job.grants[id]
  }

  /** Every admitted mirror is served now or queued again, none twice, none lost. As
      many as fit are served of those that need not wait. */
  ghost predicate Divided(w: Weather, job: Job, served: seq<Id>, queued: Option<Job>) {
    var rest := if queued.Some? then queued.value.grants.Keys else {};
    && |served| == AtMostFour(|Ready(w, job)|) && NoRepeats(served) && Elements(served) <= Ready(w, job)
    && Elements(served) !! rest && Elements(served) + rest == Open(w, job)
    && (queued.Some? ==> Requeued(w, job, queued.value))
  }

  /** The mirrors that show replies wait for one that is not written yet; the
      others go on. Once the attempts are used up nobody waits. */
  method WaitForReply(w: Weather, job: Job, origins: seq<Id>) returns (now: seq<Id>, queued: Option<Job>)
    requires origins != [] && Elements(origins) == Open(w, job) && NoRepeats(origins) && !job.captured
    requires w.exact && job.agent.status == Done && w.replyPending
    ensures queued.None? <==> !Waits(w, job)
    ensures queued.None? ==> now == origins
    ensures queued.Some? ==> Divided(w, job, now, queued)
  {
    hide Admitted, Divided;
    var show, wait: seq<Id> := [], [];
    for i := 0 to |origins|
      invariant forall x :: x in show <==> x in origins[..i] && x in w.screens
      invariant forall x :: x in wait <==> x in origins[..i] && x !in w.screens
      invariant NoRepeats(show) && NoRepeats(wait)
    {
      assert origins[i] !in origins[..i];
      if origins[i] in w.screens {
        show := show + [origins[i]];
      } else {
        wait := wait + [origins[i]];
      }
    }
    assert forall id :: id in Open(w, job) <==> id in Elements(origins);
    if wait == [] || job.attempts >= RETRIES {
      return origins, None;
    }
    assert wait[0] in wait;
    now := Take(show);
    var again := job.(attempts := job.attempts + 1, due := w.now + REPLY_DELAY, grants := Requeue(job, wait + Rest(show)));
    DividedWaiting(w, job, origins, show, wait, again);
    queued := Some(again);
  }

  lemma DividedWaiting(w: Weather, job: Job, origins: seq<Id>, show: seq<Id>, wait: seq<Id>, again: Job)
    requires Elements(origins) == Open(w, job) && NoRepeats(show) && wait != [] && Waits(w, job)
    requires forall x :: x in show <==> x in origins && x in w.screens
    requires forall x :: x in wait <==> x in origins && x !in w.screens
    requires again == job.(attempts := job.attempts + 1, due := w.now + 5, grants := Requeue(job, wait + Rest(show)))
    ensures Divided(w, job, Take(show), Some(again))
  {
    hide Waits, Open, Rest, Take, Requeue, Admitted, Divided;
    DistinctCount(show);
    WaitingSets(w, origins, show, wait);
    TakeRest(show);
    RequeueKeys(w, job, wait + Rest(show));
    hide Elements, NoRepeats;
    DividedFrom(w, job, Take(show), again);
  }

  lemma WaitingSets(w: Weather, origins: seq<Id>, show: seq<Id>, wait: seq<Id>)
    requires NoRepeats(show) && wait != []
    requires forall x :: x in show <==> x in origins && x in w.screens
    requires forall x :: x in wait <==> x in origins && x !in w.screens
    ensures Elements(show) == Elements(origins) * w.screens
    ensures Elements(wait + Rest(show)) + Elements(Take(show)) == Elements(origins)
    ensures Elements(wait + Rest(show)) !! Elements(Take(show)) && Elements(wait + Rest(show)) != {}
  {
    hide Rest, Take, NoRepeats;
    TakeRest(show);
    assert Elements(show) + Elements(wait) == Elements(origins) && Elements(show) !! Elements(wait);
    assert Elements(wait + Rest(show)) == Elements(wait) + Elements(Rest(show));
    assert wait[0] in Elements(wait);
  }

  lemma DividedFrom(w: Weather, job: Job, served: seq<Id>, queued: Job)
    requires |served| == AtMostFour(|Ready(w, job)|) && NoRepeats(served) && Elements(served) <= Ready(w, job)
    requires Elements(served) !! queued.grants.Keys && Elements(served) + queued.grants.Keys == Open(w, job)
    requires queued.grants.Keys != {} && forall id <- queued.grants :: id in job.grants && queued.grants[id] == job.grants[id]
    requires queued == (if Waits(w, job) then job.(attempts := job.attempts + 1, due := w.now + 5)
                        else job.(captured := true, due := w.now + 1)).(grants := queued.grants)
    ensures Divided(w, job, served, Some(queued))
  {
    OpenWithin(w, job);
    hide Elements, NoRepeats, Open, Ready, Waits;
  }

  lemma OpenWithin(w: Weather, job: Job)
    ensures Open(w, job) <= job.grants.Keys
  {
    hide Admitted;
  }

  /** Delivers one job. It is lost on those that could be served now when the agent
      or its screen is not there; those that wait stay queued. */
  method Deliver(w: Weather, job: Job) returns (served: seq<Id>, queued: Option<Job>, lost: bool)
    ensures lost <==> Open(w, job) != {} && (job.agent.key !in w.vouched || Unreadable(w, job))
    ensures !lost ==> Divided(w, job, served, queued)
    ensures lost ==> served == [] && (queued.Some? <==> job.agent.key in w.vouched && Waits(w, job))
    ensures lost && queued.Some? ==> exists given :: Divided(w, job, given, queued)
    ensures queued.Some? ==> Requeued(w, job, queued.value) && Shrinks(job, queued.value)
  {
    hide Admitted, Divided, NoRepeats, Requeued, Shrinks;
    served, queued, lost := [], None, false;
    var origins := Origins(w, job);
    NoneOpen(w, job, origins);
    if origins == [] {
      return;
    }
    if job.agent.key !in w.vouched {
      return [], None, true;
    }
    if !job.captured {
      if w.exact && job.agent.status == Done && w.replyPending {
        origins, queued := WaitForReply(w, job, origins);
        if queued.Some? {
          KeysOfDivided(w, job, origins, queued.value);
          if origins == [] {
            return;
          }
        }
      }
      if !w.readable {
        assert queued.Some? ==> Divided(w, job, origins, queued);
        return [], queued, true;
      }
    }
    if queued.None? {
      served, queued := Batch(w, job, origins);
    } else {
      served := origins;
    }
  }

  lemma NoneOpen(w: Weather, job: Job, origins: seq<Id>)
    requires Elements(origins) == Open(w, job)
    ensures origins == [] <==> Open(w, job) == {}
    ensures origins == [] ==> Divided(w, job, [], None)
    ensures forall id <- origins :: id in Open(w, job)
    ensures forall id <- Open(w, job) :: id in origins
  {
    hide Admitted, Open;
    if origins != [] {
      assert origins[0] in Elements(origins);
    }
  }

  /** The screen is known: four mirrors are served, the others keep their place. */
  method Batch(w: Weather, job: Job, origins: seq<Id>) returns (served: seq<Id>, queued: Option<Job>)
    requires origins != [] && Elements(origins) == Open(w, job) && NoRepeats(origins) && !Waits(w, job)
    ensures Divided(w, job, served, queued)
    ensures queued.Some? ==> Requeued(w, job, queued.value) && Shrinks(job, queued.value)
  {
    hide Admitted, NoRepeats, Open, Waits, Shrinks, Requeued;
    TakeRest(origins);
    DistinctCount(origins);
    served, queued := Take(origins), None;
    if Rest(origins) != [] {
      queued := Some(job.(captured := true, due := w.now + NEXT_BATCH, grants := Requeue(job, Rest(origins))));
      RestQueued(w, job, origins, queued.value);
    } else {
      assert Elements(Rest(origins)) == {};
    }
  }

  lemma KeysOfDivided(w: Weather, job: Job, served: seq<Id>, queued: Job)
    requires Divided(w, job, served, Some(queued)) && Waits(w, job)
    ensures Requeued(w, job, queued) && Shrinks(job, queued)
    ensures served == [] <==> forall id <- Open(w, job) :: id !in w.screens
  {
    hide Admitted, Open;
  }

  lemma RestQueued(w: Weather, job: Job, origins: seq<Id>, queued: Job)
    requires Elements(origins) == Open(w, job) && NoRepeats(origins) && Rest(origins) != [] && !Waits(w, job)
    requires queued == job.(captured := true, due := w.now + 1, grants := Requeue(job, Rest(origins)))
    ensures Divided(w, job, Take(origins), Some(queued)) && Requeued(w, job, queued) && Shrinks(job, queued)
  {
    hide Open, Waits, Admitted, NoRepeats, Take, Requeue, Divided;
    TakeRest(origins);
    DistinctCount(origins);
    RequeueKeys(w, job, Rest(origins));
    OpenWithin(w, job);
    assert Rest(origins)[0] in Elements(Rest(origins));
    hide Elements, Rest;
    SubsetSize(queued.grants.Keys, job.grants.Keys);
    DividedFrom(w, job, Take(origins), queued);
  }

  /** The screen is needed and cannot be read. */
  ghost predicate Unreadable(w: Weather, job: Job) {
    !job.captured && !w.readable && !(Waits(w, job) && forall id <- Open(w, job) :: id !in w.screens)
  }

  // ---- the queue ----

  ghost function Total(m: map<Key, Job>): nat {
    if m == map[] then 0
    else
      var k :| k in m;
      Left(m[k]) + Total(m - {k})
  }

  lemma {:induction false} TotalWithout(m: map<Key, Job>, k: Key)
    requires k in m
    ensures Total(m) == Left(m[k]) + Total(m - {k})
    decreases m
  {
    hide Left;
    var j :| j in m && Total(m) == Left(m[j]) + Total(m - {j});
    if j != k {
      TotalWithout(m - {j}, k);
      TotalWithout(m - {k}, j);
      assert m - {j} - {k} == m - {k} - {j};
    }
  }

  lemma TotalWith(m: map<Key, Job>, k: Key, job: Job)
    requires k !in m
    ensures Total(m[k := job]) == Total(m) + Left(job)
  {
    hide Left;
    TotalWithout(m[k := job], k);
    assert m[k := job] - {k} == m;
  }

  lemma OthersSame(m: map<Key, Job>, n: map<Key, Job>, k: Key)
    requires m - {k} == n - {k}
    ensures forall j | j != k :: (j in n <==> j in m) && (j in n ==> n[j] == m[j])
  {
    forall j | j != k ensures (j in n <==> j in m) && (j in n ==> n[j] == m[j]) {
      assert j in m - {k} <==> j in m;
      assert j in n - {k} <==> j in n;
      if j in n {
        assert (n - {k})[j] == n[j] && (m - {k})[j] == m[j];
      }
    }
  }

  datatype EventKind = Appeared | Changed | Gone

  class Queue {
    var pending: map<Key, Job>
    var working: set<Key>

    ghost predicate Valid()
      reads this
    {
      forall k <- pending :: pending[k].agent.key == k && pending[k].grants != map[]
    }

    constructor ()
      ensures Valid() && pending == map[]
    {
      pending, working := map[], {};
    }

    /** Queues the mirrors of an agent that became blocked or finished a turn. A
        newer event always replaces an older wait. */
    method Observe(kind: EventKind, a: Agent, d: Desk, now: int)
      requires Valid()
      modifies this
      ensures Valid()
      ensures kind == Gone || a.status == Working ==> pending == old(pending) - {a.key}
      ensures var idled := a.status == Status.Idle && a.key in old(working);
        var finished := kind == Changed && (a.status == Done || a.status == Status.Blocked || idled);
        && working == (if kind != Gone && a.status == Working then old(working) + {a.key}
                       else if kind == Gone || finished then old(working) - {a.key}
                       else old(working))
        && (kind != Gone && a.status != Working ==>
              pending == if finished && !d.disabled && ActiveGrants(d, a.key) != map[]
                         then old(pending)[a.key :=
                           Job(if idled then a.(status := Done) else a, now + 2, false, 0, ActiveGrants(d, a.key))]
                         else old(pending))
    {
      if kind == Gone {
        pending, working := pending - {a.key}, working - {a.key};
        return;
      }
      if a.status == Working {
        working, pending := working + {a.key}, pending - {a.key};
        return;
      }
      if kind == Appeared {
        return;
      }
      var done := a;
      if a.status == Status.Idle && a.key in working {
        done := a.(status := Done);
      }
      if done.status != Status.Blocked && done.status != Done {
        return;
      }
      working := working - {a.key};
      if d.disabled {
        return;
      }
      var grants := CollectGrants(d, a.key);
      if |grants| == 0 {
        return;
      }
      pending := pending[a.key := Job(done, now + SETTLE, false, 0, grants)];
    }

    /** Serves the first due job found. Every tick that finds one leaves less to
        do; when no mirror is lost to an unreadable screen, each is served or kept. */
    method Tick(w: Weather, automatic: bool) returns (key: Option<Key>, served: seq<Id>, lost: bool)
      requires Valid()
      modifies this`pending
      ensures Valid()
      ensures key.None? ==>
        served == [] && !lost && (automatic ==> pending == old(pending) && forall k <- pending :: w.now < pending[k].due)
      ensures key.Some? ==>
        && automatic && key.value in old(pending) && old(pending)[key.value].due <= w.now
        && (forall k | k != key.value ::
              (k in pending <==> k in old(pending)) && (k in pending ==> pending[k] == old(pending)[k]))
        && (!lost ==> Divided(w, old(pending)[key.value], served, Lookup(pending, key.value)))
        && var job := old(pending)[key.value];
        && (lost <==> Open(w, job) != {} && (key.value !in w.vouched || Unreadable(w, job)))
        && (lost ==> served == [] && (key.value in pending <==> key.value in w.vouched && Waits(w, job)))
        && (lost && key.value in pending ==> exists given :: Divided(w, job, given, Lookup(pending, key.value)))
        && Total(pending) < Total(old(pending))
      ensures !automatic ==> pending == map k | k in old(pending) && w.now < old(pending)[k].due :: old(pending)[k]
    {
      hide Divided, Unreadable, Left, Shrinks, Open, Total, Elements, NoRepeats, Waits;
      served, lost := [], false;
      var before := pending;
      key := TakeDue(w.now, automatic);
      if key.Some? {
        var job := before[key.value];
        TotalWithout(old(pending), key.value);
        served, lost := Serve(w, key.value, job);
        OthersSame(before, pending, key.value);
      }
    }

    /** Takes one due job; when posting is switched off, due jobs are dropped. */
    method TakeDue(now: int, automatic: bool) returns (key: Option<Key>)
      requires Valid()
      modifies this`pending
      ensures key.Some? ==>
        && automatic && key.value in old(pending) && old(pending)[key.value].due <= now
        && pending == old(pending) - {key.value}
      ensures key.None? && automatic ==> pending == old(pending) && forall k <- pending :: now < pending[k].due
      ensures !automatic ==> pending == map k | k in old(pending) && now < old(pending)[k].due :: old(pending)[k]
    {
      var rest := pending.Keys;
      while rest != {}
        invariant rest <= pending.Keys
        invariant automatic ==> pending == old(pending) && forall k <- pending | k !in rest :: now < pending[k].due
        invariant !automatic ==>
          pending == map k | k in old(pending) && (k in rest || now < old(pending)[k].due) :: old(pending)[k]
        decreases rest
      {
        var k :| k in rest;
        rest := rest - {k};
        if now < pending[k].due {
          continue;
        }
        pending := pending - {k};
        if automatic {
          return Some(k);
        }
      }
      return None;
    }

    /** Delivers a job that was just taken from the queue. */
    method Serve(w: Weather, key: Key, job: Job) returns (served: seq<Id>, lost: bool)
      requires Valid() && key !in pending && job.agent.key == key && job.grants != map[]
      modifies this`pending
      ensures Valid() && pending - {key} == old(pending)
      ensures !lost ==> Divided(w, job, served, Lookup(pending, key))
      ensures lost <==> Open(w, job) != {} && (key !in w.vouched || Unreadable(w, job))
      ensures lost ==> served == [] && (key in pending <==> key in w.vouched && Waits(w, job))
      ensures lost && key in pending ==> exists given :: Divided(w, job, given, Lookup(pending, key))
      ensures Total(pending) < Total(old(pending)) + Left(job)
    {
      var queued;
      served, queued, lost := Deliver(w, job);
      hide Open, Divided, Unreadable, Waits, Requeued, Shrinks;
      assert |job.grants| > 0 by {
        assert job.grants != map[];
      }
      if queued.Some? {
        RequeuedLeft(w, job, queued.value);
        TotalWith(pending, key, queued.value);
        pending := pending[key := queued.value];
      }
      assert Lookup(pending, key) == queued;
      assert pending - {key} == old(pending);
    }
  }

  function Lookup(m: map<Key, Job>, k: Key): Option<Job> {
    if k in m then Some(m[k]) else None
  }

  function ActiveGrants(d: Desk, key: Key): map<Id, nat> {
    map id | id in d.st.grants && d.st.grants[id].key == key && d.st.grants[id].state == Active :: d.st.grants[id].revision
  }

  method CollectGrants(d: Desk, key: Key) returns (grants: map<Id, nat>)
    ensures grants == ActiveGrants(d, key)
  {
    grants := map[];
    var rest := d.st.grants.Keys;
    while rest != {}
      invariant rest <= d.st.grants.Keys
      invariant grants == map id | id in d.st.grants && id !in rest && d.st.grants[id].key == key
                                   && d.st.grants[id].state == Active :: d.st.grants[id].revision
      decreases rest
    {
      var id :| id in rest;
      if d.st.grants[id].key == key && d.st.grants[id].state == Active {
        grants := grants[id := d.st.grants[id].revision];
      }
      rest := rest - {id};
    }
  }

  /** Without newer events every queue empties, whatever the ticks run into, once
      enough ticks found something due. */
  method Drain(q: Queue, weather: nat -> Weather)
    requires q.Valid()
    modifies q`pending
    ensures q.Valid() && q.pending == map[]
  {
    var tick := 0;
    while q.pending != map[]
      invariant q.Valid()
      decreases Total(q.pending)
    {
      var k :| k in q.pending;
      var w := weather(tick).(now := if weather(tick).now < q.pending[k].due then q.pending[k].due else weather(tick).now);
      var key, served, lost := q.Tick(w, true);
      tick := tick + 1;
    }
  }
}
