/** Delayed edits, one timer goroutine per schedule. Every lock section and every
    other step of a goroutine is a method of its own, so a run is any sequence of
    them: that covers all interleavings. */
module Debouncer {
  import opened Keys
  import opened Sorting

  type Id = nat

  datatype Stage =
    | Waiting     // in the select, on the timer and the cancel channel
    | TimerWon    // the select chose the timer; the lock is not taken yet
    | Removed     // found its edit still pending and removed it
    | Sent        // the key was delivered
    | Quit        // ended without delivering

  datatype Routine = Routine(key: Key, due: int, stage: Stage)

  datatype Edit = Edit(cancel: Id, due: int)

  predicate KeyAtMost(a: Key, b: Key) {
    AtMost(String(a), String(b))
  }

  lemma KeyAtMostLinear()
    ensures Linear(KeyAtMost)
  {
    hide String, Before;
    forall a: Key, b: Key, c: Key
      ensures KeyAtMost(a, b) || KeyAtMost(b, a)
      ensures KeyAtMost(a, b) && KeyAtMost(b, c) ==> KeyAtMost(a, c)
    {
      BeforeTotal(String(a), String(b), String(c));
    }
  }

  class Debouncer {
    /** The armed edit of each key, named by its cancel channel. */
    var pending: map<Key, Edit>
    var routines: map<Id, Routine>
    /** The cancel channels that were closed. */
    var closed: set<Id>
    var queue: seq<Key>
    /** The next channel to be made. */
    var next: Id
    /** The schedules behind the keys in queue, in order. */
    ghost var origins: seq<Id>

    /** Every schedule is armed, superseded, or on its way out; exactly one of
        these, whatever the interleaving. */
    ghost predicate Valid()
      reads this
    {
      && (forall id <- routines :: id < next)
      && (forall k <- pending :: Armed(k, pending[k]))
      && (forall id <- closed :: id in routines && routines[id].stage != Removed && routines[id].stage != Sent)
      && (forall id <- routines | id !in closed :: OpenStage(id))
      && |origins| == |queue|
      && (forall i | 0 <= i < |origins| :: origins[i] in routines && routines[origins[i]].stage == Sent
                                           && routines[origins[i]].key == queue[i])
      && (forall i, j | 0 <= i < j < |origins| :: origins[i] != origins[j])
    }

    ghost predicate Armed(k: Key, e: Edit)
      reads this
    {
      && e.cancel in routines && e.cancel !in closed
      && routines[e.cancel].key == k && routines[e.cancel].due == e.due
      && (routines[e.cancel].stage == Waiting || routines[e.cancel].stage == TimerWon)
    }

    ghost predicate OpenStage(id: Id)
      requires id in routines
      reads this
    {
      var r := routines[id];
      match r.stage
      case Waiting | TimerWon => r.key in pending && pending[r.key].cancel == id
      case Removed => true
      case Sent => id in origins
      case Quit => false
    }

    constructor ()
      ensures Valid() && pending == map[] && queue == [] && closed == {}
    {
      pending, routines, closed, queue, next, origins := map[], map[], {}, [], 0, [];
    }

    /** Closing a closed channel panics. */
    method Close(id: Id)
      requires id !in closed
      modifies this`closed
      ensures closed == old(closed) + {id}
    {
      closed := closed + {id};
    }

    /** Supersedes the armed edit of a key. */
    method Disarm(key: Key)
      requires Valid() && key in pending
      modifies this`pending, this`closed
      ensures Valid() && pending == old(pending) - {key} && closed == old(closed) + {old(pending)[key].cancel}
    {
      Close(pending[key].cancel);
      pending := pending - {key};
      assert forall id <- routines | id !in closed :: OpenStage(id) by {
        forall id | id in routines && id !in closed ensures OpenStage(id) {
          assert id !in old(closed) && old(OpenStage(id));
        }
      }
    }

    method ScheduleAfter(key: Key, now: int, delay: int) returns (id: Id)
      requires Valid()
      modifies this
      ensures Valid() && queue == old(queue) && id !in old(routines)
      ensures pending == old(pending)[key := Edit(id, now + delay)]
      ensures routines == old(routines)[id := Routine(key, now + delay, Waiting)]
      ensures closed == old(closed) + if key in old(pending) then {old(pending)[key].cancel} else {}
    {
      if key in pending {
        Disarm(key);
      }
      id := next;
      Arm(key, now + delay);
    }

    /** A new channel, its goroutine and the armed edit. */
    method Arm(key: Key, due: int)
      requires Valid() && key !in pending
      modifies this`pending, this`routines, this`next
      ensures Valid() && old(next) !in old(routines)
      ensures pending == old(pending)[key := Edit(old(next), due)]
      ensures routines == old(routines)[old(next) := Routine(key, due, Waiting)]
    {
      pending := pending[key := Edit(next, due)];
      routines := routines[next := Routine(key, due, Waiting)];
      next := next + 1;
      assert forall x <- routines | x !in closed :: OpenStage(x) by {
        forall x | x in routines && x !in closed ensures OpenStage(x) {
          assert x in old(routines) ==> old(OpenStage(x));
        }
      }
    }

    method Cancel(key: Key) returns (had: bool)
      requires Valid()
      modifies this`pending, this`closed
      ensures Valid() && had == (key in old(pending)) && pending == old(pending) - {key}
      ensures closed == old(closed) + if had then {old(pending)[key].cancel} else {}
    {
      had := key in pending;
      if had {
        Disarm(key);
      } else {
        assert pending - {key} == pending;
      }
    }

    /** The first lock section of a move: both keys lose their edits. The second
        one is a ScheduleAfter with the remaining delay; anything may happen in
        between. */
    method MoveOut(from: Key, to: Key, now: int) returns (remaining: Option<int>)
      requires Valid()
      modifies this`pending, this`closed
      ensures Valid()
      ensures from == to || from !in old(pending) ==> remaining == None && pending == old(pending) && closed == old(closed)
      ensures from != to && from in old(pending) ==>
        && pending == old(pending) - {from, to}
        && remaining.Some? && now + remaining.value == (if old(pending)[from].due < now then now else old(pending)[from].due)
        && closed == old(closed) + {old(pending)[from].cancel} + if to in old(pending) then {old(pending)[to].cancel} else {}
    {
      if from == to || from !in pending {
        return None;
      }
      var left := pending[from].due - now;
      Disarm(from);
      if to in pending {
        Disarm(to);
      }
      assert pending == old(pending) - {from, to};
      return Some(if left < 0 then 0 else left);
    }

    /** Supersedes everything; the keys, in their order, are fired at once by the
        owner. */
    method Drain() returns (keys: seq<Key>)
      requires Valid()
      modifies this`pending, this`closed
      ensures Valid() && pending == map[]
      ensures Sorted(keys, KeyAtMost) && forall k :: k in keys <==> k in old(pending)
      ensures |keys| == |old(pending)|
      ensures closed == old(closed) + set k | k in old(pending) :: old(pending)[k].cancel
    {
      hide Valid, Sorted, Linear, KeyAtMost;
      var drained := DisarmAll();
      KeyAtMostLinear();
      keys := SortBy(drained, KeyAtMost);
      SameMembers(drained, keys);
    }

    /** Supersedes one edit after the other. */
    method DisarmAll() returns (keys: seq<Key>)
      requires Valid()
      modifies this`pending, this`closed
      ensures Valid() && pending == map[]
      ensures |keys| == |old(pending)| && forall k :: k in keys <==> k in old(pending)
      ensures closed == old(closed) + set k | k in old(pending) :: old(pending)[k].cancel
    {
      hide Valid;
      keys := [];
      while pending.Keys != {}
        invariant Valid() && pending.Keys <= old(pending).Keys
        invariant forall k :: k in keys <==> k in old(pending).Keys - pending.Keys
        invariant |keys| + |pending| == |old(pending)|
        invariant forall k <- pending :: pending[k] == old(pending)[k]
        invariant closed == old(closed) + set k | k in old(pending).Keys - pending.Keys :: old(pending)[k].cancel
        decreases pending.Keys
      {
        var key :| key in pending.Keys;
        assert (pending - {key}).Keys == pending.Keys - {key};
        Disarm(key);
        keys := keys + [key];
      }
    }

    // ---- the steps of one timer goroutine ----

    /** Changing the stage of one goroutine. */
    ghost predicate Moved(before: map<Id, Routine>, id: Id, stage: Stage)
      reads this
    {
      id in before && routines == before[id := before[id].(stage := stage)]
    }

    /** The select chose the timer; it may do so even when the channel is closed. */
    method TimerFires(id: Id, now: int)
      requires Valid() && id in routines && routines[id].stage == Waiting && now >= routines[id].due
      modifies this`routines
      ensures Valid() && Moved(old(routines), id, TimerWon)
    {
      routines := routines[id := routines[id].(stage := TimerWon)];
      StagesKept(id);
    }

    /** The select chose the closed channel. */
    method SeesCancel(id: Id)
      requires Valid() && id in routines && routines[id].stage == Waiting && id in closed
      modifies this`routines
      ensures Valid() && Moved(old(routines), id, Quit)
    {
      routines := routines[id := routines[id].(stage := Quit)];
      StagesKept(id);
    }

    /** The lock section after the timer: an edit that is no longer this one's is
        left alone. */
    method TryRemove(id: Id) returns (mine: bool)
      requires Valid() && id in routines && routines[id].stage == TimerWon
      modifies this`routines, this`pending
      ensures Valid() && mine == (id !in closed)
      ensures Moved(old(routines), id, if mine then Removed else Quit)
      ensures pending == if mine then old(pending) - {routines[id].key} else old(pending)
    {
      var key := routines[id].key;
      mine := key in pending && pending[key].cancel == id;
      assert id !in closed ==> OpenStage(id);
      if mine {
        pending := pending - {key};
        routines := routines[id := routines[id].(stage := Removed)];
      } else {
        routines := routines[id := routines[id].(stage := Quit)];
      }
      StagesKept(id);
    }

    /** The key goes out, once. */
    method Send(id: Id)
      requires Valid() && id in routines && routines[id].stage == Removed
      modifies this`routines, this`queue, this`origins
      ensures Valid() && queue == old(queue) + [old(routines)[id].key] && origins == old(origins) + [id]
      ensures Moved(old(routines), id, Sent) && id !in old(origins)
    {
      queue := queue + [routines[id].key];
      origins := origins + [id];
      routines := routines[id := routines[id].(stage := Sent)];
      StagesKept(id);
    }

    /** The other goroutines are not concerned. */
    twostate lemma StagesKept(id: Id)
      requires old(Valid()) && closed == old(closed) && id in old(routines)
      requires id in routines && routines == old(routines)[id := routines[id]] && routines[id].key == old(routines[id]).key
      requires pending == old(pending)
               || (pending == old(pending) - {routines[id].key}
                   && old(routines[id].key in pending && pending[routines[id].key].cancel == id))
      requires origins == old(origins) || origins == old(origins) + [id]
      ensures forall x <- routines | x !in closed && x != id :: OpenStage(x)
    {
      forall x | x in routines && x !in closed && x != id ensures OpenStage(x) {
        assert old(OpenStage(x));
      }
    }
  }

  datatype Step =
    | DoSchedule(key: Key, now: int, delay: int)
    | DoCancel(key: Key)
    | DoMoveOut(from: Key, to: Key, now: int)
    | DoDrain
    | DoTimer(id: Id, now: int)
    | DoSeeCancel(id: Id)
    | DoRemove(id: Id)
    | DoSend(id: Id)

  /** Any interleaving: no channel is closed twice (Close would refuse), no
      schedule is delivered twice, and none that was superseded is delivered. */
  method Interleave(steps: seq<Step>) returns (d: Debouncer)
    ensures d.Valid()
    ensures forall i, j | 0 <= i < j < |d.origins| :: d.origins[i] != d.origins[j]
    ensures forall id <- d.origins :: id !in d.closed
    ensures forall id <- d.routines :: id in d.closed || id in d.origins || d.routines[id].stage == Removed
              || exists k <- d.pending :: d.pending[k].cancel == id
  {
    d := new Debouncer();
    for i := 0 to |steps|
      invariant d.Valid() && fresh(d)
    {
      match steps[i] {
        case DoSchedule(key, now, delay) =>
          var id := d.ScheduleAfter(key, now, delay);
        case DoCancel(key) =>
          var had := d.Cancel(key);
        case DoMoveOut(from, to, now) =>
          var remaining := d.MoveOut(from, to, now);
        case DoDrain =>
          var keys := d.Drain();
        case DoTimer(id, now) =>
          if id in d.routines && d.routines[id].stage == Waiting && now >= d.routines[id].due {
            d.TimerFires(id, now);
          }
        case DoSeeCancel(id) =>
          if id in d.routines && d.routines[id].stage == Waiting && id in d.closed {
            d.SeesCancel(id);
          }
        case DoRemove(id) =>
          if id in d.routines && d.routines[id].stage == TimerWon {
            var mine := d.TryRemove(id);
          }
        case DoSend(id) =>
          if id in d.routines && d.routines[id].stage == Removed {
            d.Send(id);
          }
      }
    }
    forall id | id in d.routines && id !in d.closed
      ensures id in d.origins || d.routines[id].stage == Removed || exists k <- d.pending :: d.pending[k].cancel == id
    {
      assert d.OpenStage(id);
    }
    forall id | id in d.origins ensures id !in d.closed {
      assert d.routines[id].stage == Sent;
    }
  }
}
