/** The screen history of one agent, changed in place. */
module History {
  import opened Keys
  import opened HistoryRules

  method EqualLines(a: seq<Line>, b: seq<Line>) returns (same: bool)
    ensures same <==> a == b
  {
    if |a| != |b| {
      return false;
    }
    for i := 0 to |a|
      invariant a[..i] == b[..i]
    {
      if a[i] != b[i] {
        return false;
      }
    }
    return true;
  }

  method HasAnchors(a: seq<Line>, b: seq<Line>) returns (yes: bool)
    ensures yes <==> Anchored(a, b)
  {
    hide Blank;
    var window := Min(Min(|a|, ANCHOR_WINDOW), |b|);
    var hits := 0;
    for i := 0 to window
      invariant hits == Hits(a, b, i)
    {
      if !Blank(a[i]) && a[i] == b[i] {
        hits := hits + 1;
      }
    }
    yes := hits >= ANCHOR_LINES;
  }

  method IsAligned(overlap: seq<Line>, stable: seq<Line>) returns (yes: bool)
    requires |overlap| <= |stable|
    ensures yes <==> Aligned(overlap, stable)
  {
    hide Blank;
    var window := Min(|overlap|, ANCHOR_WINDOW);
    var text, hits := 0, 0;
    for i := 0 to window
      invariant text == Texts(overlap, i) && hits == Hits(overlap, stable, i)
    {
      if !Blank(overlap[i]) {
        text := text + 1;
        if overlap[i] == stable[i] {
          hits := hits + 1;
        }
      }
    }
    if text == 0 {
      return false;
    }
    var need := ANCHOR_LINES;
    if text < need {
      need := text;
    }
    yes := hits >= need;
  }

  class History {
    var committed: seq<Line>
    var bytes: int
    var prev: seq<Line>
    var tail: seq<Line>
    var mark: int
    var truncated: bool

    ghost function View(): Hist
      reads this
    {
      Hist(committed, prev, tail, mark, truncated)
    }

    ghost predicate Valid()
      reads this
    {
      Kept(View()) && bytes == Bytes(committed)
    }

    constructor ()
      ensures Valid() && View() == EMPTY
    {
      committed, bytes, prev, tail, mark, truncated := [], 0, [], [], -1, false;
      new;
      hide Kept, Bytes;
      EmptyKept();
    }

    /** Merges one screen: exactly what Merged says, within the caps. */
    method Append(lines: seq<Line>) returns (added: nat, shift: nat, gap: bool)
      requires Valid()
      modifies this
      ensures Valid() && View() == Appended(old(View()), lines, false)
      ensures Reports(old(View()), Stable(lines), false, added, shift, gap)
    {
      added, shift, gap := AppendSnapshot(Stable(lines), Live(lines), false);
      AppendKeeps(old(View()), lines, false);
    }

    /** Merges a screen that may start with older lines. */
    method AppendRecentAfterVisible(lines: seq<Line>) returns (added: nat, shift: nat, gap: bool)
      requires Valid()
      modifies this
      ensures Valid() && View() == Appended(old(View()), lines, true)
      ensures Reports(old(View()), Stable(lines), true, added, shift, gap)
    {
      added, shift, gap := AppendSnapshot(Stable(lines), Live(lines), true);
      AppendKeeps(old(View()), lines, true);
    }

    method AppendSnapshot(stable: seq<Line>, live: seq<Line>, recent: bool) returns (added: nat, shift: nat, gap: bool)
      requires Valid()
      modifies this
      ensures bytes == Bytes(committed)
      ensures Reports(old(View()), stable, recent, added, shift, gap)
      ensures View() ==
              if stable == [] then old(View()).(tail := live)
              else Capped(old(View()).(committed := Merged(old(committed), old(prev), stable, recent).committed,
                                       prev := stable, tail := live))
    {
      hide Kept, Fits, Trim, Aligned, Capped, RepeatEnd, RepeatsAt, FirstShift;
      tail := live;
      if stable == [] {
        return 0, 0, false;
      }
      if recent {
        var end := RecentPrefixEnd(stable);
        if end.Some? {
          RepeatFound(committed, prev, stable, end.value);
          Commit(stable[end.value..]);
          prev := stable;
          Cap();
          added := |stable| - end.value;
          return added, added, false;
        }
      }
      added, shift, gap := Align(stable);
      prev := stable;
      Cap();
    }

    /** The ordinary merge: where the screens align, the shared lines are
        replaced by their fresh version; otherwise a gap line separates them. */
    method Align(stable: seq<Line>) returns (added: nat, shift: nat, gap: bool)
      requires bytes == Bytes(committed)
      modifies this`committed, this`bytes
      ensures bytes == Bytes(committed)
      ensures Merge(committed, added, shift, gap) == Merged(old(committed), old(prev), stable, false)
    {
      hide Aligned;
      if prev == [] {
        Commit(stable);
        return |stable|, 0, false;
      }
      shift := 0;
      while shift < |prev|
        invariant shift <= |prev| && committed == old(committed) && bytes == old(bytes)
        invariant FirstShift(prev, stable, 0) == FirstShift(prev, stable, shift)
      {
        var overlap := prev[shift..];
        if |overlap| <= |stable| {
          var yes := IsAligned(overlap, stable);
          if yes {
            var keep, skip := |committed| - |overlap|, 0;
            if keep < 0 {
              keep, skip := 0, -keep;
            }
            Cut(keep);
            Commit(stable[skip..]);
            return |stable| - |overlap|, shift, false;
          }
        }
        shift := shift + 1;
      }
      Commit([GAP]);
      Commit(stable);
      return |stable|, |prev|, true;
    }

    method RecentPrefixEnd(stable: seq<Line>) returns (end: Option<nat>)
      ensures end == RepeatEnd(committed, prev, stable, 1)
    {
      hide RepeatsAt, RepeatShift;
      var offset := 1;
      while offset < |stable|
        invariant 1 <= offset
        invariant RepeatEnd(committed, prev, stable, 1) == RepeatEnd(committed, prev, stable, offset)
      {
        end := RepeatAtOffset(stable, offset);
        if end.Some? {
          return;
        }
        offset := offset + 1;
      }
      return None;
    }

    method RepeatAtOffset(stable: seq<Line>, offset: nat) returns (end: Option<nat>)
      requires offset <= |stable|
      ensures var shift := RepeatShift(committed, prev, stable, offset, 0);
        end == if shift < |prev| then Some(offset + |prev| - shift) else None
    {
      hide RepeatsAt;
      var shift := 0;
      while shift < |prev|
        invariant shift <= |prev|
        invariant RepeatShift(committed, prev, stable, offset, 0) == RepeatShift(committed, prev, stable, offset, shift)
      {
        end := RepeatHere(stable, offset, shift);
        if end.Some? {
          return;
        }
        shift := shift + 1;
      }
      return None;
    }

    method RepeatHere(stable: seq<Line>, offset: nat, shift: nat) returns (end: Option<nat>)
      requires offset <= |stable| && shift <= |prev|
      ensures end == if RepeatsAt(committed, prev, stable, offset, shift) then Some(offset + |prev| - shift) else None
    {
      hide Anchored;
      var overlap := prev[shift..];
      if |overlap| > |stable| - offset {
        return None;
      }
      var last := offset + |overlap|;
      var candidate := stable[offset..last];
      var anchored := HasAnchors(overlap, candidate);
      var same := EqualLines(overlap, candidate);
      if !anchored || !same {
        return None;
      }
      var prefix := stable[..last];
      if |prefix| > |committed| {
        return None;
      }
      same := EqualLines(committed[|committed| - |prefix|..], prefix);
      if !same {
        return None;
      }
      return Some(last);
    }

    /** A human message starts here. */
    method Mark()
      requires Valid()
      modifies this`mark, this`truncated
      ensures Valid() && View() == Marked(old(View()))
    {
      mark := |committed|;
      truncated := false;
    }

    method Lines() returns (out: seq<Line>)
      requires Valid()
      ensures out == Shown(View())
    {
      var start := 0;
      if mark > 0 {
        start := mark;
      }
      if start > |committed| {
        start := |committed|;
      }
      out := [];
      if truncated {
        out := out + [GAP];
      }
      out := out + committed[start..];
      out := out + tail;
    }

    method Commit(lines: seq<Line>)
      requires bytes == Bytes(committed)
      modifies this`committed, this`bytes
      ensures committed == old(committed) + lines && bytes == Bytes(committed)
    {
      for i := 0 to |lines|
        invariant committed == old(committed) && bytes == old(bytes) + Bytes(lines[..i])
      {
        BytesSplit(lines[..i + 1], i);
        assert lines[..i + 1][..i] == lines[..i] && lines[..i + 1][i..] == [lines[i]];
        bytes := bytes + |lines[i]| + 1;
      }
      assert lines[..|lines|] == lines;
      committed := committed + lines;
      BytesConcat(old(committed), lines);
    }

    /** Drops the lines from index n on. */
    method Cut(n: nat)
      requires n <= |committed| && bytes == Bytes(committed)
      modifies this`committed, this`bytes
      ensures committed == old(committed)[..n] && bytes == Bytes(committed)
    {
      BytesSplit(committed, n);
      var i := n;
      while i < |committed|
        invariant n <= i <= |committed| && committed == old(committed)
        invariant bytes == Bytes(committed[..n]) + Bytes(committed[i..])
      {
        bytes := bytes - (|committed[i]| + 1);
        i := i + 1;
      }
      committed := committed[..n];
    }

    /** Drops lines from the front until both caps hold. */
    method Cap()
      requires bytes == Bytes(committed)
      modifies this`committed, this`bytes, this`mark, this`truncated
      ensures bytes == Bytes(committed) && View() == Capped(old(View()))
    {
      var drop, left := 0, bytes;
      TrimLongest(committed);
      while drop < |committed| && (|committed| - drop > MAX_LINES || left > MAX_BYTES)
        invariant drop <= |committed| && left == Bytes(committed[drop..])
        invariant Trim(committed) == Trim(committed[drop..])
      {
        assert committed[drop..][1..] == committed[drop + 1..];
        left := left - (|committed[drop]| + 1);
        drop := drop + 1;
      }
      assert Trim(committed) == committed[drop..];
      if drop == 0 {
        return;
      }
      committed := committed[drop..];
      bytes := left;
      if mark >= 0 {
        mark := mark - drop;
        if mark < 0 {
          mark := 0;
          truncated := true;
        }
      } else {
        truncated := true;
      }
    }
  }

  /** What Append answers: the lines added, the lines scrolled, and whether the
      screens could not be aligned. */
  ghost predicate Reports(h: Hist, stable: seq<Line>, recent: bool, added: nat, shift: nat, gap: bool) {
    if stable == [] then added == 0 && shift == 0 && !gap
    else
      var m := Merged(h.committed, h.prev, stable, recent);
      m.added == added && m.shift == shift && m.gap == gap
  }
}
