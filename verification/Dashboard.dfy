/** The dashboard: one pinned message, created under the same durable intent as
    topics. Forgetting a message also drops the intent, so here the guard holds
    exactly as long as nothing is forgotten while a creation is unresolved. */
module Dashboard {
  import opened Keys

  /** What the mapping file says about the message; 0 means none. */
  datatype Slot = Slot(id: int, pending: bool)

  datatype Reply = Fine | MessageGone | Refused | Cancelled | Trouble

  /** The dashboards in the chat that slot does not know. */
  function Strays(shown: set<int>, slot: Slot): set<int> {
    shown - {slot.id}
  }

  /** At most one, and then the intent to create it is recorded. */
  ghost predicate Guarded(shown: set<int>, slot: Slot) {
    && (Strays(shown, slot) != {} ==> slot.pending)
    && forall a, b | a in Strays(shown, slot) && b in Strays(shown, slot) :: a == b
  }

  lemma GuardedFewer(shown: set<int>, fewer: set<int>, slot: Slot)
    requires Guarded(shown, slot) && fewer <= shown
    ensures Guarded(fewer, slot)
  {
    assert Strays(fewer, slot) <= Strays(shown, slot);
  }

  /** With no creation unresolved and the recorded message gone, nothing is shown
      but what was given up. */
  lemma NothingLoose(shown: set<int>, abandoned: set<int>, slot: Slot)
    requires Guarded(shown - abandoned, slot) && !slot.pending && slot.id !in shown
    ensures shown <= abandoned
  {
    forall x | x in shown ensures x in abandoned {
      assert x !in Strays(shown - abandoned, slot);
    }
  }

  /** Forgetting a message that is gone keeps the guard, whatever is shown, exactly
      when no creation is unresolved. */
  lemma ForgettingIsSafe(slot: Slot)
    ensures (forall shown: set<int> | Guarded(shown, slot) && slot.id !in shown && 0 !in shown ::
               Guarded(shown, Slot(0, false)))
            <==> !slot.pending
  {
    if slot.pending {
      var stray := if slot.id == 1 then 2 else 1;
      assert Strays({stray}, slot) == {stray} && Strays({stray}, Slot(0, false)) == {stray};
      assert Guarded({stray}, slot) && !Guarded({stray}, Slot(0, false));
    } else {
      forall shown: set<int> | Guarded(shown, slot) && slot.id !in shown && 0 !in shown
        ensures Guarded(shown, Slot(0, false))
      {
        assert Strays(shown, slot) == shown;
      }
    }
  }

  // ---- switching the dashboard off ----

  /** What became of a request to take a message down: the reply, and whether the
      message was gone afterwards. A request without a reply may have worked. */
  datatype TakenDown = TakenDown(reply: Reply, gone: bool) {
    /** Telegram confirmed that nothing is left. */
    predicate Confirmed() {
      reply == Fine || reply == MessageGone
    }

    predicate Possible() {
      Confirmed() ==> gone
    }
  }

  /** The off note is sent when the deletion failed for a reason that passes. */
  predicate NoteSent(deletion: TakenDown) {
    deletion.reply == Trouble
  }

  /** What switching off leaves recorded. */
  function SlotAfterRemove(slot: Slot, deletion: TakenDown, note: TakenDown): Slot {
    if deletion.Confirmed() then Slot(0, false)
    else if !NoteSent(deletion) || note.reply == Refused then slot
    else Slot(0, false)
  }

  /** And what it leaves in the chat. */
  function ShownAfterRemove(shown: set<int>, id: int, deletion: TakenDown, note: TakenDown): set<int> {
    if deletion.gone || (NoteSent(deletion) && note.gone) then shown - {id} else shown
  }

  /** The message is forgotten although it still looks like a running dashboard. */
  predicate LeftBehind(shown: set<int>, slot: Slot, deletion: TakenDown, note: TakenDown) {
    && SlotAfterRemove(slot, deletion, note).id == 0
    && slot.id in ShownAfterRemove(shown, slot.id, deletion, note)
  }

  /** That happens exactly when the deletion failed for a reason that passes, the
      note failed without being refused, and neither worked without a reply. */
  lemma LeftBehindExactly(shown: set<int>, slot: Slot, deletion: TakenDown, note: TakenDown)
    requires slot.id != 0 && slot.id in shown && deletion.Possible() && note.Possible()
    ensures LeftBehind(shown, slot, deletion, note) <==>
      && deletion.reply !in {Fine, MessageGone, Refused, Cancelled} && !deletion.gone
      && note.reply !in {Fine, MessageGone, Refused} && !note.gone
  {
  }

  /** Without an unresolved creation the guard is lost in exactly these cases. */
  lemma RemoveKeepsGuardExactly(shown: set<int>, slot: Slot, deletion: TakenDown, note: TakenDown)
    requires slot.id != 0 && 0 !in shown && !slot.pending && Guarded(shown, slot)
    requires deletion.Possible() && note.Possible()
    ensures Guarded(ShownAfterRemove(shown, slot.id, deletion, note), SlotAfterRemove(slot, deletion, note))
            <==> !LeftBehind(shown, slot, deletion, note)
  {
    var after, left := SlotAfterRemove(slot, deletion, note), ShownAfterRemove(shown, slot.id, deletion, note);
    assert Strays(shown, slot) == {};
    if LeftBehind(shown, slot, deletion, note) {
      assert slot.id in Strays(left, after);
    } else if after == slot {
      GuardedFewer(shown, left, slot);
    } else {
      forall m | m in Strays(left, after) ensures m in Strays(shown, slot) {
      }
    }
  }

  /** Two requests without a reply that did not work leave a live-looking message. */
  lemma OffLeavesOrphan()
    ensures var slot, lost := Slot(7, false), TakenDown(Trouble, false);
      && Guarded({7}, slot) && lost.Possible() && LeftBehind({7}, slot, lost, lost)
      && !Guarded(ShownAfterRemove({7}, 7, lost, lost), SlotAfterRemove(slot, lost, lost))
  {
    assert 7 in Strays({7}, Slot(0, false));
  }

  datatype Moment = Moment(shown: set<int>, disk: Slot)

  /** The chat and the disk. */
  class Chat {
    /** The messages that look like a running dashboard. */
    var shown: set<int>
    var used: set<int>
    var disk: Slot
    /** Dashboards that were forgotten while they were still shown. */
    ghost var abandoned: set<int>
    ghost var history: seq<Moment>
    ghost var calls: nat
    /** The body last put into each message, as a hash, and the messages whose body
        is not known for sure. */
    ghost var bodies: map<int, Text>
    ghost var unsure: set<int>
    /** Calls and writes that failed. A message that is gone is an answer, counted
        apart. */
    ghost var faults: nat
    ghost var gones: nat
    /** Requests that Telegram refused. */
    ghost var refused: nat

    ghost predicate Valid()
      reads this
    {
      && shown <= used && abandoned <= used && 0 !in used && CanStore(disk)
      && forall h <- history :: Guarded(h.shown, h.disk)
    }

    ghost predicate CanStore(slot: Slot)
      reads this
    {
      Guarded(shown - abandoned, slot)
    }

    method Save(slot: Slot) returns (ok: bool)
      requires Valid() && CanStore(slot)
      modifies this`disk, this`history, this`faults
      ensures Valid() && CanStore(slot) && (if ok then disk == slot else disk == slot || disk == old(disk))
      ensures faults == old(faults) + if ok then 0 else 1
    {
      var reached := *;
      ok := *;
      if ok || reached {
        disk := slot;
      }
      faults := faults + if ok then 0 else 1;
      history := history + [Moment(shown - abandoned, disk)];
    }

    /** A new message; without an answer it may be there all the same. */
    method Send(hash: Text) returns (id: int, r: Reply)
      requires Valid() && disk.pending && shown <= abandoned
      modifies this`shown, this`used, this`history, this`calls, this`bodies, this`unsure, this`faults, this`refused
      ensures faults == old(faults) + if r == Fine then 0 else 1
      ensures refused == old(refused) + if r == Refused then 1 else 0
      ensures if r == Fine then bodies == old(bodies)[id := hash] && unsure == old(unsure) - {id}
              else bodies == old(bodies) && unsure == old(unsure)
      ensures Valid() && disk == old(disk) && calls == old(calls) + 1
      ensures r == Fine ==> id != 0 && id !in abandoned && shown <= old(shown) + {id}
      ensures r != Fine ==> shown == old(shown) || (r != Refused && exists m :: shown == old(shown) + {m})
    {
      id, r := *, *;
      var made := *;
      calls := calls + 1;
      if id == 0 || id in used || r == MessageGone {
        r := Trouble;
      }
      if id != 0 && id !in used && (r == Fine || (r != Refused && made)) {
        shown, used := shown + {id}, used + {id};
        assert shown - abandoned == {id};
      } else {
        assert shown - abandoned == {};
      }
      if r == Fine {
        bodies, unsure := bodies[id := hash], unsure - {id};
      }
      faults := faults + if r == Fine then 0 else 1;
      refused := refused + if r == Refused then 1 else 0;
      history := history + [Moment(shown - abandoned, disk)];
    }

    /** A new body for a message. Without an answer it may be there all the same. */
    method Edit(id: int, hash: Text) returns (r: Reply)
      requires Valid()
      modifies this`shown, this`history, this`calls, this`bodies, this`unsure, this`faults, this`gones, this`refused
      ensures Valid() && shown <= old(shown) && (r == MessageGone ==> id !in shown) && calls == old(calls) + 1
      ensures forall slot :: old(CanStore(slot)) ==> CanStore(slot)
      ensures faults == old(faults) + if r == Fine || r == MessageGone then 0 else 1
      ensures gones == old(gones) + if r == MessageGone then 1 else 0
      ensures refused == old(refused) + if r == Refused then 1 else 0
      ensures if r == Fine then bodies == old(bodies)[id := hash] && unsure == old(unsure) - {id}
              else unsure == old(unsure) + {id} && forall x <- old(bodies) | x != id :: x in bodies && bodies[x] == old(bodies)[x]
    {
      r := Touch(id);
      var worked := *;
      if r == Fine || worked {
        bodies := bodies[id := hash];
      }
      unsure := if r == Fine then unsure - {id} else unsure + {id};
      faults := faults + if r == Fine || r == MessageGone then 0 else 1;
      gones := gones + if r == MessageGone then 1 else 0;
      refused := refused + if r == Refused then 1 else 0;
    }

    /** Any call: the owner may have removed messages meanwhile. */
    method Touch(id: int) returns (r: Reply)
      requires Valid()
      modifies this`shown, this`history, this`calls
      ensures Valid() && shown <= old(shown) && (r == MessageGone ==> id !in shown) && calls == old(calls) + 1
      ensures forall slot :: old(CanStore(slot)) ==> CanStore(slot)
    {
      var removed: set<int> := *;
      r := *;
      if r == MessageGone {
        removed := removed + {id};
      }
      calls := calls + 1;
      Vanish(removed);
    }

    /** A call that, when it works, leaves no running dashboard behind: a deletion,
        or an edit to a note that it is off. */
    method TakeDown(id: int) returns (r: Reply)
      requires Valid()
      modifies this`shown, this`history, this`calls, this`faults, this`refused
      ensures refused == old(refused) + if r == Refused then 1 else 0
      ensures Valid() && shown <= old(shown) && (r == Fine || r == MessageGone ==> id !in shown) && calls == old(calls) + 1
      ensures forall slot :: old(CanStore(slot)) ==> CanStore(slot)
      ensures faults == old(faults) + if r == Fine || r == MessageGone then 0 else 1
    {
      r := Touch(id);
      faults := faults + if r == Fine || r == MessageGone then 0 else 1;
      refused := refused + if r == Refused then 1 else 0;
      if r == Fine {
        Vanish({id});
      }
    }

    method Vanish(removed: set<int>)
      requires Valid()
      modifies this`shown, this`history
      ensures Valid() && shown == old(shown) - removed
      ensures forall slot :: old(CanStore(slot)) ==> CanStore(slot)
    {
      ghost var before := shown - abandoned;
      shown := shown - removed;
      forall slot | Guarded(before, slot) ensures CanStore(slot) {
        GuardedFewer(before, shown - abandoned, slot);
      }
      history := history + [Moment(shown - abandoned, disk)];
    }

    /** What a message says is no longer known for sure. */
    ghost method Doubt(id: int)
      requires Valid()
      modifies this`unsure
      ensures Valid() && unsure == old(unsure) + {id}
    {
      unsure := unsure + {id};
    }

    ghost method Settle(id: int)
      requires Valid()
      modifies this`unsure
      ensures Valid() && unsure == old(unsure) - {id}
    {
      unsure := unsure - {id};
    }

    /** The program stops looking after everything that is shown. */
    ghost method AbandonAll()
      requires Valid()
      modifies this`abandoned
      ensures Valid() && abandoned == old(abandoned) + shown && forall slot :: CanStore(slot)
    {
      abandoned := abandoned + shown;
      assert shown - abandoned == {};
    }
  }

  class Dashboard {
    const chat: Chat
    var slot: Slot
    var dirty: bool
    var lastHash: Option<Text>

    ghost predicate Valid()
      reads this, chat
    {
      Sane() && (dirty || chat.disk == slot)
    }

    /** The same while a change waits for its write. */
    ghost predicate Sane()
      reads this, chat
    {
      chat.Valid() && chat.CanStore(slot) && Knows()
    }

    /** The hash that is remembered is that of the message, or nothing is sure. */
    ghost predicate Knows()
      reads this, chat
    {
      slot.id != 0 && lastHash.Some? && slot.id !in chat.unsure ==>
        slot.id in chat.bodies && chat.bodies[slot.id] == lastHash.value
    }

    /** The message is recorded with this body, in memory and on disk. */
    ghost predicate Up(hash: Text)
      reads this, chat
    {
      && slot.id != 0 && !slot.pending && chat.disk == slot && !dirty && lastHash == Some(hash)
      && slot.id in chat.bodies && chat.bodies[slot.id] == hash && slot.id !in chat.unsure
    }

    constructor (chat: Chat)
      requires chat.Valid()
      ensures Valid() && this.chat == chat && slot == chat.disk && lastHash == None && !dirty
    {
      this.chat, this.slot, this.dirty, this.lastHash := chat, chat.disk, false, None;
    }

    method Save() returns (ok: bool)
      requires Sane()
      modifies this`dirty, chat`disk, chat`history, chat`faults
      ensures Valid() && (ok ==> chat.disk == slot) && dirty == !ok
      ensures chat.faults == old(chat.faults) + if ok then 0 else 1
    {
      ok := chat.Save(slot);
      dirty := !ok;
    }

    method PersistPending() returns (ok: bool)
      requires Valid()
      modifies this`dirty, chat`disk, chat`history, chat`faults
      ensures Valid() && dirty == !ok && (!old(dirty) ==> ok && chat.disk == old(chat.disk) && chat.history == old(chat.history))
      ensures ok ==> chat.disk == if old(dirty) then slot else old(chat.disk)
      ensures chat.faults == old(chat.faults) + if ok then 0 else 1
    {
      ok := true;
      if dirty {
        ok := Save();
      }
    }

    /** Records the message; the intent has served its purpose. */
    method SetID(id: int) returns (ok: bool)
      requires Valid() && chat.CanStore(Slot(id, false))
      requires id != 0 && lastHash.Some? && id !in chat.unsure ==> id in chat.bodies && chat.bodies[id] == lastHash.value
      modifies this`slot, this`dirty, chat`disk, chat`history, chat`faults
      ensures Valid() && slot == Slot(id, false) && dirty == !ok
      ensures old(slot) == Slot(id, false) && !old(dirty) ==> ok && chat.history == old(chat.history)
      ensures chat.faults == old(chat.faults) + if ok then 0 else 1
    {
      if slot.id == id && !slot.pending {
        ok := PersistPending();
        return;
      }
      slot := Slot(id, false);
      ok := Save();
    }

    /** The one write path. Nothing is sent for an unchanged body, and nothing is
        created while an earlier creation is unresolved. When nothing fails the
        message shows the body, anew if it was gone, or is gone if switched off. */
    method Refresh(enabled: bool, hash: Text) returns (ok: bool, ghost saved: bool)
      requires Valid()
      modifies this, chat
      ensures Valid()
      ensures !old(dirty) ==> saved
      ensures !saved ==> !ok && chat.calls == old(chat.calls) && slot == old(slot) && lastHash == old(lastHash)
      ensures saved && enabled && old(slot.id) != 0 && old(lastHash) != Some(hash) && chat.gones == old(chat.gones) ==>
        slot == old(slot) && (ok <==> chat.refused == old(chat.refused))
      ensures enabled && old(slot.id) != 0 && old(lastHash) == Some(hash) ==>
        chat.calls == old(chat.calls) && slot == old(slot) && lastHash == old(lastHash) && (chat.faults == old(chat.faults) ==> ok)
      ensures enabled && old(slot.id) != 0 && old(lastHash) != Some(hash) && !old(dirty) ==> chat.calls > old(chat.calls)
      ensures enabled && old(slot.id) == 0 && old(slot.pending) ==> !ok && chat.calls == old(chat.calls) && slot == old(slot)
      ensures enabled ==> chat.abandoned == old(chat.abandoned)
      ensures enabled && chat.faults == old(chat.faults) && (old(slot.id) == 0 || old(lastHash) != Some(hash)) ==>
        if old(slot.pending) && (old(slot.id) == 0 || chat.gones > old(chat.gones)) then !ok && slot == old(slot)
        else ok && lastHash == Some(hash) && slot.id in chat.bodies && chat.bodies[slot.id] == hash && slot.id !in chat.unsure
             && (old(slot.id) != 0 && chat.gones == old(chat.gones) ==> slot == old(slot))
             && (old(slot.id) == 0 || chat.gones > old(chat.gones) ==> Up(hash))
      ensures !enabled && old(slot.id) == 0 ==> slot == old(slot) && chat.calls == old(chat.calls)
      ensures !enabled && old(slot.id) != 0 && chat.faults == old(chat.faults) ==>
        ok && slot == Slot(0, false) && chat.disk == slot && old(slot.id) !in chat.shown && lastHash == None
    {
      hide Guarded;
      ok := PersistPending();
      saved := ok;
      if !ok {
        return;
      }
      if !enabled {
        if slot.id != 0 {
          ghost var deletion, note;
          ok, deletion, note := Remove();
        }
        return;
      }
      if slot.id != 0 {
        if lastHash == Some(hash) {
          return;
        }
        var r := chat.Edit(slot.id, hash);
        if r == Fine {
          lastHash := Some(hash);
          return;
        }
        if r != MessageGone {
          return r != Refused, saved;
        }
      }
      ok := Create(hash);
    }

    method Create(hash: Text) returns (ok: bool)
      requires Valid() && slot.id !in chat.shown
      modifies this, chat
      ensures Valid() && chat.abandoned == old(chat.abandoned) && chat.calls >= old(chat.calls)
      ensures old(slot.pending) ==> !ok && chat.calls == old(chat.calls) && slot == old(slot) && chat.faults == old(chat.faults)
      ensures chat.gones == old(chat.gones) && chat.faults >= old(chat.faults)
      ensures !old(slot.pending) ==> (ok <==> chat.faults == old(chat.faults)) && (ok ==> Up(hash))
      ensures !old(slot.pending) && (chat.calls == old(chat.calls) || chat.refused > old(chat.refused)) ==> !ok && slot == old(slot)
      ensures !old(slot.pending) && !ok && chat.calls > old(chat.calls) && chat.refused == old(chat.refused) ==>
        slot == old(slot).(pending := true) || (!slot.pending && dirty && lastHash == old(lastHash))
    {
      if slot.pending {
        return false;
      }
      NothingLoose(chat.shown, chat.abandoned, slot);
      slot := slot.(pending := true);
      ok := Save();
      if !ok {
        slot := slot.(pending := false);
        return;
      }
      var id, r := chat.Send(hash);
      if r == Refused {
        slot := slot.(pending := false);
        ok := Save();
        return false;
      }
      if r != Fine {
        return false;
      }
      assert chat.shown - chat.abandoned <= {id};
      ok := Keep(id, hash);
    }

    /** Pins and records the new message. Until that is saved it may be taken for the
        old one. */
    method Keep(id: int, hash: Text) returns (ok: bool)
      requires chat.Valid() && chat.CanStore(slot) && chat.CanStore(Slot(id, false)) && slot.pending && (slot.id == id || Knows())
      requires dirty || chat.disk == slot
      requires id != 0 && id in chat.bodies && chat.bodies[id] == hash && id !in chat.unsure
      modifies this, chat
      ensures Valid() && slot == Slot(id, false) && (if ok then Up(hash) else dirty && lastHash == old(lastHash))
      ensures chat.abandoned == old(chat.abandoned) && chat.gones == old(chat.gones)
      ensures chat.refused == old(chat.refused) && chat.calls > old(chat.calls)
      ensures chat.faults == old(chat.faults) + if ok then 0 else 1
    {
      hide Guarded;
      var pinned := chat.Touch(id);
      if lastHash.Some? && lastHash.value != hash {
        chat.Doubt(id);
      }
      ok := SetID(id);
      if ok {
        chat.Settle(id);
        lastHash := Some(hash);
      }
    }

    /** Deletes the message, or marks it off, before it is forgotten; its intent is
        dropped with it. */
    method Remove() returns (ok: bool, ghost deletion: TakenDown, ghost note: TakenDown)
      requires Valid() && slot.id != 0
      modifies this, chat
      ensures Valid() && deletion.Possible() && note.Possible()
      ensures chat.faults >= old(chat.faults)
      ensures chat.faults == old(chat.faults) ==> ok && deletion.Confirmed() && chat.disk == slot && lastHash == None
      ensures slot == SlotAfterRemove(old(slot), deletion, note)
      ensures old(slot.id) in chat.shown <==>
        old(slot.id) in ShownAfterRemove(old(chat.shown), old(slot.id), deletion, note)
      ensures !old(slot.pending) && !LeftBehind(old(chat.shown), old(slot), deletion, note) ==>
        chat.abandoned == old(chat.abandoned)
      ensures LeftBehind(old(chat.shown), old(slot), deletion, note) ==> old(slot.id) in chat.shown * chat.abandoned
    {
      var id := slot.id;
      var r := chat.Touch(id);
      r := chat.TakeDown(id);
      deletion, note := TakenDown(r, id !in chat.shown), TakenDown(Trouble, true);
      if r != Fine && r != MessageGone {
        if r == Refused {
          return false, deletion, note;
        }
        if r == Cancelled {
          return true, deletion, note;
        }
        r := chat.TakeDown(id);
        note := TakenDown(r, id !in chat.shown);
        if r == Refused {
          return false, deletion, note;
        }
      }
      ok := Forget();
      if ok {
        lastHash := None;
      }
    }

    /** Forgets the message and, with it, any unresolved intent. */
    method Forget() returns (ok: bool)
      requires Valid() && slot.id != 0
      modifies this`slot, this`dirty, chat`disk, chat`history, chat`abandoned, chat`faults
      ensures Valid() && slot == Slot(0, false) && (ok ==> chat.disk == slot && !dirty)
      ensures chat.faults == old(chat.faults) + if ok then 0 else 1
      ensures !old(slot.pending) && old(slot.id) !in chat.shown ==> chat.abandoned == old(chat.abandoned)
      ensures chat.abandoned == old(chat.abandoned) + chat.shown
    {
      if !slot.pending && slot.id !in chat.shown {
        NothingLoose(chat.shown, chat.abandoned, slot);
      }
      chat.AbandonAll();
      ok := SetID(0);
    }

    /** At start the message is pinned again; one that is gone is forgotten. */
    method Repin(enabled: bool) returns (ghost gone: bool)
      requires Valid()
      modifies this, chat
      ensures Valid() && slot == (if gone then Slot(0, false) else old(slot)) && (gone ==> lastHash == None)
      ensures gone ==> enabled && old(slot.id) != 0 && old(slot.id) !in chat.shown
      ensures !gone ==> lastHash == old(lastHash)
      ensures if enabled && old(slot.id) != 0 then old(chat.calls) < chat.calls <= old(chat.calls) + 2
              else chat.calls == old(chat.calls)
      ensures !old(slot.pending) ==> chat.abandoned == old(chat.abandoned)
    {
      gone := false;
      if slot.id == 0 || !enabled {
        return;
      }
      var r := chat.Touch(slot.id);
      if r == MessageGone {
        gone := true;
        var ok := Forget();
        lastHash := None;
      } else if r != Fine {
        r := chat.Touch(slot.id);
      }
    }

    method Restart()
      requires Valid()
      modifies this
      ensures Valid() && slot == chat.disk && lastHash == None && !dirty
    {
      slot, dirty, lastHash := chat.disk, false, None;
    }
  }

  /** DoShared is a write of the mapping file by its other user, the reconciler. */
  datatype Step = DoRefresh(enabled: bool, hash: Text) | DoRepin(enabled: bool) | DoShared | DoRestart

  /** Over every run, with crashes and failed writes anywhere: apart from those that
      were forgotten while shown, there is the recorded dashboard and at most one
      more, and that one is covered by the intent on disk. Refreshing and crashing
      alone forget none. */
  method Run(chat: Chat, steps: seq<Step>) returns (d: Dashboard)
    requires chat.Valid()
    modifies chat
    ensures d.Valid() && d.chat == chat
    ensures forall h <- chat.history :: Guarded(h.shown, h.disk)
    ensures Guarded(chat.shown - chat.abandoned, chat.disk) && Guarded(chat.shown - chat.abandoned, d.slot)
    ensures (forall s <- steps :: (s.DoRefresh? && s.enabled) || s.DoShared? || s.DoRestart?) ==> chat.abandoned == old(chat.abandoned)
  {
    d := new Dashboard(chat);
    for i := 0 to |steps|
      invariant d.Valid() && d.chat == chat && fresh(d)
      invariant (forall s <- steps :: (s.DoRefresh? && s.enabled) || s.DoShared? || s.DoRestart?) ==> chat.abandoned == old(chat.abandoned)
    {
      assert steps[i] in steps;
      match steps[i] {
        case DoRefresh(enabled, hash) => var ok, saved := d.Refresh(enabled, hash);
        case DoRepin(enabled) =>
          ghost var gone := d.Repin(enabled);
        case DoShared => var ok := d.Save();
        case DoRestart => d.Restart();
      }
    }
  }
}
