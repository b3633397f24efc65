/** What a screen history is meant to hold: the pure meaning of merging one
    screen snapshot, and the proof that merging the screens of a growing
    transcript, whatever they skip or repeat, yields the transcript they show. */
module HistoryRules {
  import opened Keys
  import opened Sorting

  /** A line of output: bytes, no carriage return, no trailing blanks. */
  type Line = Text

  const LIVE_LINES := 8
  const ANCHOR_WINDOW := 6
  const ANCHOR_LINES := 3
  const MAX_LINES := 2000
  const MAX_BYTES := 262144
  const GAP: Line := [0xE2 as char, 0x80 as char, 0xA6 as char]

  // ---- lines ----

  /** The number of bytes of the UTF-8 white space character s starts with, 0 if
      it starts with none. */
  function BlankPrefix(s: Line): (n: nat)
    ensures n <= |s|
  {
    if s == [] then 0
    else if s[0] == ' ' || 0x09 <= s[0] as int <= 0x0D then 1
    else if |s| >= 2 && s[0] as int == 0xC2 && (s[1] as int == 0x85 || s[1] as int == 0xA0) then 2
    else if |s| < 3 then 0
    else
      var a, b, c := s[0] as int, s[1] as int, s[2] as int;
      if (a == 0xE1 && b == 0x9A && c == 0x80)
         || (a == 0xE2 && b == 0x80 && (0x80 <= c <= 0x8A || c == 0xA8 || c == 0xA9 || c == 0xAF))
         || (a == 0xE2 && b == 0x81 && c == 0x9F) || (a == 0xE3 && b == 0x80 && c == 0x80) then 3
      else 0
  }

  predicate Blank(s: Line) {
    s == [] || (BlankPrefix(s) > 0 && Blank(s[BlankPrefix(s)..]))
  }

  /** The code points of Unicode's property White_Space. */
  ghost predicate WhiteSpace(cp: int) {
    || 0x09 <= cp <= 0x0D || cp in {0x20, 0x85, 0xA0, 0x1680} || 0x2000 <= cp <= 0x200A
    || cp in {0x2028, 0x2029, 0x202F, 0x205F, 0x3000}
  }

  /** UTF-8 as in section 3 of RFC 3629, up to three bytes. */
  ghost function Utf8(cp: int): Line
    requires WhiteSpace(cp)
  {
    if cp < 0x80 then [cp as char]
    else if cp < 0x800 then [(0xC0 + cp / 64) as char, (0x80 + cp % 64) as char]
    else [(0xE0 + cp / 4096) as char, (0x80 + cp / 64 % 64) as char, (0x80 + cp % 64) as char]
  }

  /** A text that starts with the encoding of such a code point starts with white
      space, and all of that is skipped; */
  lemma BlankEncoded(cp: int, s: Line)
    requires WhiteSpace(cp) && Utf8(cp) <= s
    ensures BlankPrefix(s) == |Utf8(cp)|
  {
    if cp < 0x80 {
      assert s[0] as int == cp;
    } else if cp < 0x800 {
      assert s[0] as int == 0xC2 && s[1] as int == 0x80 + cp % 64;
    } else {
      assert s[0] as int == 0xE0 + cp / 4096 && s[1] as int == 0x80 + cp / 64 % 64 && s[2] as int == 0x80 + cp % 64;
    }
  }

  /** and nothing else does. */
  lemma BlankDecoded(s: Line) returns (cp: int)
    requires BlankPrefix(s) > 0
    ensures WhiteSpace(cp) && Utf8(cp) <= s
  {
    var n := BlankPrefix(s);
    if n == 1 {
      cp := s[0] as int;
      assert s[..1] == Utf8(cp);
    } else if n == 2 {
      cp := s[1] as int;
      assert s[..2] == Utf8(cp);
    } else {
      cp := (s[0] as int - 0xE0) * 4096 + (s[1] as int - 0x80) * 64 + s[2] as int - 0x80;
      assert s[..3] == Utf8(cp);
    }
  }

  ghost function Encoded(cps: seq<int>): Line
    requires forall cp <- cps :: WhiteSpace(cp)
  {
    if cps == [] then [] else Utf8(cps[0]) + Encoded(cps[1..])
  }

  /** So a line is blank exactly if it is made of such characters. */
  lemma {:induction false} BlankLine(cps: seq<int>)
    requires forall cp <- cps :: WhiteSpace(cp)
    ensures Blank(Encoded(cps))
  {
    if cps != [] {
      BlankLine(cps[1..]);
      BlankEncoded(cps[0], Encoded(cps));
      assert Encoded(cps)[|Utf8(cps[0])|..] == Encoded(cps[1..]);
    }
  }

  lemma {:induction false} BlankLineOnly(s: Line) returns (cps: seq<int>)
    requires Blank(s)
    ensures (forall cp <- cps :: WhiteSpace(cp)) && Encoded(cps) == s
  {
    hide Utf8, WhiteSpace, BlankPrefix;
    cps := [];
    if s != [] {
      var n := BlankPrefix(s);
      var cp := BlankDecoded(s);
      BlankEncoded(cp, s);
      var rest := BlankLineOnly(s[n..]);
      cps := [cp] + rest;
      assert s == s[..n] + s[n..] && cps[1..] == rest;
    }
  }

  function Bytes(lines: seq<Line>): nat {
    if lines == [] then 0 else |lines[0]| + 1 + Bytes(lines[1..])
  }

  lemma {:induction false} BytesConcat(a: seq<Line>, b: seq<Line>)
    ensures Bytes(a + b) == Bytes(a) + Bytes(b)
  {
    if a == [] {
      assert a + b == b;
    } else {
      assert (a + b)[1..] == a[1..] + b;
      BytesConcat(a[1..], b);
    }
  }

  lemma BytesSplit(s: seq<Line>, n: nat)
    requires n <= |s|
    ensures Bytes(s) == Bytes(s[..n]) + Bytes(s[n..])
  {
    assert s == s[..n] + s[n..];
    BytesConcat(s[..n], s[n..]);
  }

  predicate Fits(lines: seq<Line>) {
    |lines| <= MAX_LINES && Bytes(lines) <= MAX_BYTES
  }

  /** Drops lines from the front until both caps hold. */
  function Trim(lines: seq<Line>): seq<Line> {
    if lines == [] || Fits(lines) then lines else Trim(lines[1..])
  }

  /** That is the longest suffix that fits. */
  lemma {:induction false} TrimLongest(s: seq<Line>)
    ensures var drop := |s| - |Trim(s)|;
      drop >= 0 && Trim(s) == s[drop..] && Fits(Trim(s)) && forall k | 0 <= k < drop :: !Fits(s[k..])
  {
    if s == [] || Fits(s) {
    } else {
      TrimLongest(s[1..]);
      forall k | 0 < k <= |s| ensures s[k..] == s[1..][k - 1..] {
      }
    }
  }

  /** In numbers: 2000 lines and 256 KiB. */
  lemma TrimExactly(s: seq<Line>, drop: nat)
    requires drop <= |s|
    ensures Trim(s) == s[drop..] <==>
      && |s[drop..]| <= 2000 && Bytes(s[drop..]) <= 262144
      && forall k | 0 <= k < drop :: |s[k..]| > 2000 || Bytes(s[k..]) > 262144
  {
    TrimLongest(s);
    hide Trim, Bytes;
    var longest := |s| - |Trim(s)|;
    assert Fits(s[longest..]) && (Trim(s) == s[drop..] <==> longest == drop);
  }

  /** Trimming early loses nothing: lines that fall out never come back in. */
  lemma {:induction false} TrimAppend(s: seq<Line>, t: seq<Line>)
    ensures Trim(Trim(s) + t) == Trim(s + t)
  {
    if s != [] && !Fits(s) {
      BytesConcat(s, t);
      assert (s + t)[1..] == s[1..] + t;
      TrimAppend(s[1..], t);
    }
  }

  // ---- alignment ----

  function Texts(a: seq<Line>, n: nat): nat
    requires n <= |a|
  {
    if n == 0 then 0 else Texts(a, n - 1) + if Blank(a[n - 1]) then 0 else 1
  }

  function Hits(a: seq<Line>, b: seq<Line>, n: nat): nat
    requires n <= |a| && n <= |b|
  {
    if n == 0 then 0 else Hits(a, b, n - 1) + if !Blank(a[n - 1]) && a[n - 1] == b[n - 1] then 1 else 0
  }

  function Min(a: nat, b: nat): nat {
    if a < b then a else b
  }

  /** The start of overlap matches the start of stable. */
  predicate Aligned(overlap: seq<Line>, stable: seq<Line>)
    requires |overlap| <= |stable|
  {
    var window := Min(|overlap|, ANCHOR_WINDOW);
    Texts(overlap, window) > 0 && Hits(overlap, stable, window) >= Min(ANCHOR_LINES, Texts(overlap, window))
  }

  predicate Anchored(a: seq<Line>, b: seq<Line>) {
    Hits(a, b, Min(Min(|a|, ANCHOR_WINDOW), |b|)) >= ANCHOR_LINES
  }

  /** The first n lines with text, and those of them that b repeats in place. */
  ghost function Texted(a: seq<Line>, n: nat): set<nat>
    requires n <= |a|
  {
    set i: nat | i < n && !Blank(a[i])
  }

  ghost function Repeated(a: seq<Line>, b: seq<Line>, n: nat): set<nat>
    requires n <= |a| && n <= |b|
  {
    set i: nat | i < n && !Blank(a[i]) && a[i] == b[i]
  }

  lemma {:induction false} TextsCounted(a: seq<Line>, n: nat)
    requires n <= |a|
    ensures Texts(a, n) == |Texted(a, n)|
  {
    hide Blank;
    if n > 0 {
      TextsCounted(a, n - 1);
      assert Texted(a, n) == Texted(a, n - 1) + if Blank(a[n - 1]) then {} else {n - 1};
    }
  }

  lemma {:induction false} HitsCounted(a: seq<Line>, b: seq<Line>, n: nat)
    requires n <= |a| && n <= |b|
    ensures Hits(a, b, n) == |Repeated(a, b, n)|
  {
    hide Blank;
    if n > 0 {
      HitsCounted(a, b, n - 1);
      assert Repeated(a, b, n) == Repeated(a, b, n - 1) + if !Blank(a[n - 1]) && a[n - 1] == b[n - 1] then {n - 1} else {};
    }
  }

  /** Of the first six lines, three with text agree, or all that have any. */
  lemma AlignedExactly(overlap: seq<Line>, stable: seq<Line>)
    requires |overlap| <= |stable|
    ensures var window := if |overlap| < 6 then |overlap| else 6;
      Aligned(overlap, stable) <==>
        && Texted(overlap, window) != {}
        && (|Repeated(overlap, stable, window)| >= 3 || Repeated(overlap, stable, window) == Texted(overlap, window))
  {
    hide Blank;
    var window := if |overlap| < 6 then |overlap| else 6;
    TextsCounted(overlap, window);
    HitsCounted(overlap, stable, window);
    SubsetSize(Repeated(overlap, stable, window), Texted(overlap, window));
  }

  lemma AnchoredExactly(a: seq<Line>, b: seq<Line>)
    requires |a| == |b|
    ensures Anchored(a, b) <==> |Repeated(a, b, if |a| < 6 then |a| else 6)| >= 3
  {
    hide Blank;
    HitsCounted(a, b, if |a| < 6 then |a| else 6);
  }

  predicate AlignsAt(prev: seq<Line>, stable: seq<Line>, shift: nat)
    requires shift <= |prev|
  {
    |prev[shift..]| <= |stable| && Aligned(prev[shift..], stable)
  }

  /** The first shift from which prev aligns with stable; |prev| if there is none. */
  function FirstShift(prev: seq<Line>, stable: seq<Line>, from: nat): (shift: nat)
    requires from <= |prev|
    ensures from <= shift <= |prev|
    ensures shift < |prev| ==> AlignsAt(prev, stable, shift)
    ensures forall s | from <= s < shift :: !AlignsAt(prev, stable, s)
    decreases |prev| - from
  {
    if from == |prev| || AlignsAt(prev, stable, from) then from else FirstShift(prev, stable, from + 1)
  }

  /** The last n lines of s. */
  function Last(s: seq<Line>, n: nat): seq<Line>
    requires n <= |s|
  {
    s[|s| - n..]
  }

  /** At offset, stable repeats all of prev from shift on, and everything up to
      the end of that is already the end of what is kept. */
  predicate RepeatsAt(kept: seq<Line>, prev: seq<Line>, stable: seq<Line>, offset: nat, shift: nat)
    requires offset <= |stable| && shift <= |prev|
  {
    var overlap := prev[shift..];
    && |overlap| <= |stable| - offset
    && var end := offset + |overlap|;
    && Anchored(overlap, stable[offset..end]) && overlap == stable[offset..end]
    && end <= |kept| && Last(kept, end) == stable[..end]
  }

  function RepeatShift(kept: seq<Line>, prev: seq<Line>, stable: seq<Line>, offset: nat, from: nat): (shift: nat)
    requires offset <= |stable| && from <= |prev|
    ensures from <= shift <= |prev|
    ensures shift < |prev| ==> RepeatsAt(kept, prev, stable, offset, shift)
    ensures forall s | from <= s < shift :: !RepeatsAt(kept, prev, stable, offset, s)
    decreases |prev| - from
  {
    if from == |prev| || RepeatsAt(kept, prev, stable, offset, from) then from
    else RepeatShift(kept, prev, stable, offset, from + 1)
  }

  function RepeatEnd(kept: seq<Line>, prev: seq<Line>, stable: seq<Line>, offset: nat): (end: Option<nat>)
    requires 1 <= offset
    ensures end.Some? ==> end.value <= |stable| && exists o: nat, s: nat | 1 <= o < |stable| && s < |prev| ::
                RepeatsAt(kept, prev, stable, o, s) && end.value == o + |prev| - s
    ensures end.None? ==> forall o: nat, s: nat | offset <= o < |stable| && s < |prev| :: !RepeatsAt(kept, prev, stable, o, s)
    decreases |stable| - offset
  {
    if offset >= |stable| then None
    else
      var shift := RepeatShift(kept, prev, stable, offset, 0);
      if shift < |prev| then Some(offset + |prev| - shift) else RepeatEnd(kept, prev, stable, offset + 1)
  }

  // ---- one snapshot ----

  /** mark is an index into committed, -1 when there is none. */
  datatype Hist = Hist(committed: seq<Line>, prev: seq<Line>, tail: seq<Line>, mark: int, truncated: bool)

  datatype Merge = Merge(committed: seq<Line>, added: nat, shift: nat, gap: bool)

  function Stable(lines: seq<Line>): seq<Line> {
    if |lines| <= LIVE_LINES then [] else lines[..|lines| - LIVE_LINES]
  }

  function Live(lines: seq<Line>): seq<Line> {
    if |lines| <= LIVE_LINES then lines else lines[|lines| - LIVE_LINES..]
  }

  /** The lines merged with the stable part of the next snapshot, untrimmed. */
  function Merged(kept: seq<Line>, prev: seq<Line>, stable: seq<Line>, recent: bool): Merge {
    var end := if recent then RepeatEnd(kept, prev, stable, 1) else None;
    if end.Some? then
      Merge(kept + stable[end.value..], |stable| - end.value, |stable| - end.value, false)
    else if prev == [] then Merge(kept + stable, |stable|, 0, false)
    else
      var shift := FirstShift(prev, stable, 0);
      if shift < |prev| then
        var overlap := |prev| - shift;
        var keep, skip := if |kept| >= overlap then |kept| - overlap else 0,
                          if |kept| >= overlap then 0 else overlap - |kept|;
        Merge(kept[..keep] + stable[skip..], |stable| - overlap, shift, false)
      else Merge(kept + [GAP] + stable, |stable|, |prev|, true)
  }

  /** The effect of the caps on a history whose lines just grew. */
  function Capped(h: Hist): Hist {
    var kept := Trim(h.committed);
    TrimLongest(h.committed);
    var drop := |h.committed| - |kept|;
    if drop == 0 then h
    else h.(committed := kept,
            mark := if h.mark < 0 then h.mark else if h.mark < drop then 0 else h.mark - drop,
            truncated := h.truncated || h.mark < drop)
  }

  function Appended(h: Hist, lines: seq<Line>, recent: bool): Hist {
    var stable := Stable(lines);
    if stable == [] then h.(tail := Live(lines))
    else Capped(h.(committed := Merged(h.committed, h.prev, stable, recent).committed, prev := stable, tail := Live(lines)))
  }

  function Marked(h: Hist): Hist {
    h.(mark := |h.committed|, truncated := false)
  }

  /** What a reader is shown. */
  function Shown(h: Hist): seq<Line>
    requires h.mark <= |h.committed|
  {
    (if h.truncated then [GAP] else []) + h.committed[if h.mark > 0 then h.mark else 0..] + h.tail
  }

  // ---- what every sequence of snapshots keeps ----

  /** Both caps hold, the mark is inside, and the lines end as the last screen did. */
  ghost predicate Kept(h: Hist) {
    && Fits(h.committed) && -1 <= h.mark <= |h.committed|
    && var n := Min(|h.committed|, |h.prev|); Last(h.committed, n) == Last(h.prev, n)
  }

  /** Every merge grows the lines by exactly what it reports, plus its gap line. */
  lemma MergeGrows(h: Hist, stable: seq<Line>, recent: bool)
    ensures var m := Merged(h.committed, h.prev, stable, recent);
      |m.committed| == |h.committed| + m.added + if m.gap then 1 else 0
  {
  }

  /** A screen is its stable lines and, below them, eight that may still change. */
  lemma StableAndLive(lines: seq<Line>)
    ensures Stable(lines) + Live(lines) == lines && |Live(lines)| == (if |lines| <= 8 then |lines| else 8)
  {
  }

  lemma LastOfConcat(a: seq<Line>, b: seq<Line>)
    ensures Last(a + b, |b|) == b
  {
  }

  lemma MergeEnds(h: Hist, stable: seq<Line>, recent: bool)
    ensures var c := Merged(h.committed, h.prev, stable, recent).committed;
      var n := Min(|c|, |stable|); Last(c, n) == Last(stable, n)
  {
    hide RepeatEnd, FirstShift;
    var end := if recent then RepeatEnd(h.committed, h.prev, stable, 1) else None;
    if end.Some? {
      RepeatFound(h.committed, h.prev, stable, end.value);
      RepeatJoins(h.committed, stable, end.value);
    } else if h.prev == [] {
      LastOfConcat(h.committed, stable);
    } else {
      var shift := FirstShift(h.prev, stable, 0);
      var overlap := |h.prev| - shift;
      if shift == |h.prev| {
        LastOfConcat(h.committed + [GAP], stable);
      } else if |h.committed| >= overlap {
        LastOfConcat(h.committed[..|h.committed| - overlap], stable);
      }
    }
  }

  lemma RepeatJoins(c: seq<Line>, stable: seq<Line>, end: nat)
    requires end <= |c| && end <= |stable| && Last(c, end) == stable[..end]
    ensures |c + stable[end..]| >= |stable| && Last(c + stable[end..], |stable|) == stable
  {
    assert c + stable[end..] == c[..|c| - end] + stable by {
      assert c == c[..|c| - end] + stable[..end];
      assert stable == stable[..end] + stable[end..];
    }
    LastOfConcat(c[..|c| - end], stable);
  }

  lemma RepeatFound(kept: seq<Line>, prev: seq<Line>, stable: seq<Line>, end: nat)
    requires RepeatEnd(kept, prev, stable, 1) == Some(end)
    ensures end <= |stable| && end <= |kept| && Last(kept, end) == stable[..end]
  {
    hide Anchored, Last;
    var o: nat, s: nat :| 1 <= o < |stable| && s < |prev| && RepeatsAt(kept, prev, stable, o, s) && end == o + |prev| - s;
  }

  lemma LastOfSuffix(c: seq<Line>, drop: nat, s: seq<Line>)
    requires drop <= |c|
    requires var n := Min(|c|, |s|); Last(c, n) == Last(s, n)
    ensures var n := Min(|c| - drop, |s|); Last(c[drop..], n) == Last(s, n)
  {
    var n, k := Min(|c|, |s|), Min(|c| - drop, |s|);
    forall i | 0 <= i < k ensures Last(c[drop..], k)[i] == Last(s, k)[i] {
      assert Last(c[drop..], k)[i] == c[|c| - k + i] == Last(c, n)[n - k + i];
      assert Last(s, k)[i] == s[|s| - k + i] == Last(s, n)[n - k + i];
    }
  }

  lemma CapKeeps(h: Hist)
    requires -1 <= h.mark <= |h.committed|
    requires var n := Min(|h.committed|, |h.prev|); Last(h.committed, n) == Last(h.prev, n)
    ensures Kept(Capped(h))
  {
    hide Fits, Trim, Last;
    TrimLongest(h.committed);
    LastOfSuffix(h.committed, |h.committed| - |Trim(h.committed)|, h.prev);
  }

  lemma AppendKeeps(h: Hist, lines: seq<Line>, recent: bool)
    requires Kept(h)
    ensures Kept(Appended(h, lines, recent))
  {
    hide Merged, Fits, Capped, Last;
    var stable := Stable(lines);
    if stable != [] {
      var m := Merged(h.committed, h.prev, stable, recent);
      MergeGrows(h, stable, recent);
      MergeEnds(h, stable, recent);
      CapKeeps(h.(committed := m.committed, prev := stable, tail := Live(lines)));
    }
  }

  // ---- the transcript ----

  /** No two lines that screens can show above their live ones can be confused with
      each other, unless they are blank. */
  ghost predicate Distinct(t: seq<Line>) {
    forall i, j | 0 <= i < j < |t| - LIVE_LINES && t[i] == t[j] :: Blank(t[i])
  }

  /** How many of the lines that anchor the overlap a..b are not blank. */
  function Anchors(t: seq<Line>, a: nat, b: nat): nat
    requires a <= b <= |t|
  {
    Texts(t[a..b], Min(b - a, ANCHOR_WINDOW))
  }

  /** What an observer keeps who sees where every screen lies in the transcript and
      has no caps: all lines, with a gap line wherever the screens leave off; the
      line of these that the last message started at, -1 before any; and the stable
      part and the live lines of the last screen. */
  datatype View = View(all: seq<Line>, since: int, top: nat, edge: nat, tail: seq<Line>) {
    function From(): int {
      if since < 0 then 0 else since
    }
  }

  const UNSEEN := View([], -1, 0, 0, [])

  /** How many lines the caps drop. */
  function Dropped(all: seq<Line>): (n: nat)
    ensures n <= |all| && Trim(all) == all[n..]
  {
    TrimLongest(all);
    |all| - |Trim(all)|
  }

  /** The lines within the caps end with these. */
  predicate Holds(all: seq<Line>, lines: seq<Line>) {
    |lines| <= |Trim(all)| && Last(Trim(all), |lines|) == lines
  }

  ghost predicate Recognised(t: seq<Line>, v: View, top: nat)
    requires v.edge <= |t|
  {
    exists a: nat :: top < a && v.top <= a < v.edge && Anchors(t, a, v.edge) >= ANCHOR_LINES
  }

  /** The screen carries on where the last one left off: it ends no earlier, starts
      inside the last one, and something of what they share can be recognised. A
      recent screen may also start before it, if everything up to the end of the
      last one is still kept and part of that one can be recognised well enough. */
  ghost predicate Continues(t: seq<Line>, v: View, top: nat, edge: nat, recent: bool)
    requires v.top <= v.edge <= |t|
  {
    && v.edge <= edge
    && (|| (v.top <= top < v.edge && Anchors(t, top, v.edge) > 0)
        || (recent && top < v.edge && Recognised(t, v, top) && Holds(v.all, t[top..v.edge])))
  }

  /** What a screen adds. */
  ghost function News(t: seq<Line>, v: View, top: nat, edge: nat, recent: bool): seq<Line>
    requires v.top <= v.edge <= |t| && top <= edge <= |t|
  {
    if v.top == v.edge then t[top..edge]
    else if Continues(t, v, top, edge, recent) then t[v.edge..edge]
    else [GAP] + t[top..edge]
  }

  datatype Event = Window(top: nat, bottom: nat, recent: bool) | Message

  predicate Inside(t: seq<Line>, e: Event) {
    e.Window? ==> e.top <= e.bottom <= |t|
  }

  /** A screen without stable lines only replaces the live ones. */
  ghost function Seen(t: seq<Line>, v: View, e: Event): View
    requires v.top <= v.edge <= |t| && Inside(t, e)
  {
    match e
    case Message => v.(since := |v.all|)
    case Window(top, bottom, recent) =>
      if bottom - top <= LIVE_LINES then v.(tail := t[top..bottom])
      else
        var edge := bottom - LIVE_LINES;
        View(v.all + News(t, v, top, edge, recent), v.since, top, edge, t[edge..bottom])
  }

  ghost predicate Placed(t: seq<Line>, v: View) {
    && v.top <= v.edge <= |t| && -1 <= v.since <= |v.all|
    && v.edge - v.top <= |v.all| && Last(v.all, v.edge - v.top) == t[v.top..v.edge]
    && (if v.top == v.edge then v.all == [] else v.edge + LIVE_LINES <= |t|)
  }

  /** The history holds exactly what the observer keeps, within the caps. */
  ghost predicate Tracks(h: Hist, t: seq<Line>, v: View) {
    && Placed(t, v) && h.prev == t[v.top..v.edge] && h.tail == v.tail
    && h.committed == Trim(v.all)
    && var dropped := Dropped(v.all);
    && h.mark == (if v.since < 0 then -1 else if v.since < dropped then 0 else v.since - dropped)
    && h.truncated == (v.From() < dropped)
  }

  lemma {:induction false} HitsBounded(a: seq<Line>, b: seq<Line>, n: nat)
    requires n <= |a| && n <= |b|
    ensures Hits(a, b, n) <= n
  {
    if n > 0 {
      HitsBounded(a, b, n - 1);
    }
  }

  lemma {:induction false} HitsEqual(a: seq<Line>, b: seq<Line>, n: nat)
    requires n <= |a| && n <= |b| && forall i | 0 <= i < n :: a[i] == b[i]
    ensures Hits(a, b, n) == Texts(a, n)
  {
    hide Blank;
    if n > 0 {
      HitsEqual(a, b, n - 1);
    }
  }

  lemma {:induction false} TextsEqual(a: seq<Line>, b: seq<Line>, n: nat)
    requires n <= |a| && n <= |b| && forall i | 0 <= i < n :: a[i] == b[i]
    ensures Texts(a, n) == Texts(b, n)
  {
    hide Blank;
    if n > 0 {
      TextsEqual(a, b, n - 1);
    }
  }

  lemma {:induction false} HitsNone(t: seq<Line>, a: seq<Line>, b: seq<Line>, x: nat, y: nat, n: nat)
    requires Distinct(t) && n <= |a| && n <= |b| && x != y
    requires x + n + LIVE_LINES <= |t| && y + n + LIVE_LINES <= |t|
    requires forall i | 0 <= i < n :: a[i] == t[x + i] && b[i] == t[y + i]
    ensures Hits(a, b, n) == 0
  {
    hide Blank;
    if n > 0 {
      HitsNone(t, a, b, x, y, n - 1);
    }
  }

  /** Two windows of the transcript align only where they are the same lines, and
      there exactly if the second ends no earlier than the first and one of the
      lines that anchor the overlap is not blank. */
  lemma AlignsExactly(t: seq<Line>, top: nat, edge: nat, top': nat, edge': nat, shift: nat)
    requires Distinct(t) && top < edge && top' < edge' && shift < edge - top
    requires edge + LIVE_LINES <= |t| && edge' + LIVE_LINES <= |t|
    ensures AlignsAt(t[top..edge], t[top'..edge'], shift) <==>
              top + shift == top' && edge <= edge' && Anchors(t, top', edge) > 0
  {
    hide Blank, Distinct, Hits, Texts;
    var prev, stable := t[top..edge], t[top'..edge'];
    var overlap := prev[shift..];
    var n := Min(|overlap|, ANCHOR_WINDOW);
    if |overlap| <= |stable| {
      if top + shift == top' {
        assert overlap == t[top'..edge];
        HitsEqual(overlap, stable, n);
      } else {
        HitsNone(t, overlap, stable, top + shift, top', n);
      }
    }
  }

  /** The first aligned shift is the distance scrolled; there is none exactly when
      the second window does not start inside the first, ends before it, or shares
      only blank anchor lines with it. */
  lemma ShiftIsScroll(t: seq<Line>, top: nat, edge: nat, top': nat, edge': nat)
    requires Distinct(t) && top < edge && top' < edge' && edge + LIVE_LINES <= |t| && edge' + LIVE_LINES <= |t|
    ensures FirstShift(t[top..edge], t[top'..edge'], 0) ==
            if top <= top' < edge <= edge' && Anchors(t, top', edge) > 0 then top' - top else edge - top
  {
    hide AlignsAt, Distinct, Anchors;
    var prev, stable := t[top..edge], t[top'..edge'];
    forall s | 0 <= s < |prev|
      ensures AlignsAt(prev, stable, s) <==> top + s == top' && edge <= edge' && Anchors(t, top', edge) > 0
    {
      AlignsExactly(t, top, edge, top', edge', s);
    }
    assert top <= top' < edge <= edge' && Anchors(t, top', edge) > 0 ==> AlignsAt(prev, stable, top' - top);
  }

  /** A repeat inside a recent screen can only be the place it repeats. */
  lemma RepeatIsPlace(kept: seq<Line>, t: seq<Line>, v: View, top: nat, edge: nat, o: nat, s: nat)
    requires Distinct(t) && v.top < v.edge && top < edge && v.edge + LIVE_LINES <= |t| && edge + LIVE_LINES <= |t|
    requires 1 <= o < edge - top && s < v.edge - v.top
    requires RepeatsAt(kept, t[v.top..v.edge], t[top..edge], o, s)
    ensures v.top + s == top + o && v.edge <= edge && Anchors(t, v.top + s, v.edge) >= ANCHOR_LINES
    ensures v.edge - top <= |kept| && Last(kept, v.edge - top) == t[top..v.edge]
  {
    hide Blank, Last, Hits, Texts, Distinct;
    var prev, stable := t[v.top..v.edge], t[top..edge];
    var overlap := prev[s..];
    var end := o + |overlap|;
    var n := Min(|overlap|, ANCHOR_WINDOW);
    assert overlap == t[v.top + s..v.edge];
    Slice(t, top, edge, o, end);
    if v.top + s != top + o {
      HitsNone(t, overlap, stable[o..end], v.top + s, top + o, n);
    }
    HitsEqual(overlap, stable[o..end], n);
    assert v.top + s == top + o ==> stable[..end] == t[top..v.edge];
  }

  lemma Slice(t: seq<Line>, a: nat, b: nat, i: nat, j: nat)
    requires a <= b <= |t| && i <= j <= b - a
    ensures t[a..b][i..j] == t[a + i..a + j]
  {
    assert forall k | 0 <= k < j - i :: t[a..b][i..j][k] == t[a + i + k];
  }

  lemma RepeatExists(kept: seq<Line>, t: seq<Line>, v: View, top: nat, edge: nat, a: nat)
    requires v.top <= a < v.edge <= edge <= |t| && top < a && Anchors(t, a, v.edge) >= ANCHOR_LINES
    requires v.edge - top <= |kept| && Last(kept, v.edge - top) == t[top..v.edge]
    ensures RepeatsAt(kept, t[v.top..v.edge], t[top..edge], a - top, a - v.top)
  {
    hide Blank, Hits, Texts, Last;
    var prev, stable, o, end := t[v.top..v.edge], t[top..edge], a - top, v.edge - top;
    Slice(t, v.top, v.edge, a - v.top, v.edge - v.top);
    Slice(t, top, edge, o, end);
    Slice(t, top, edge, 0, end);
    HitsEqual(prev[a - v.top..], stable[o..end], Min(v.edge - a, ANCHOR_WINDOW));
  }

  /** A repeat is found exactly in a screen that can be recognised and whose start is
      still kept. */
  lemma RepeatContinues(t: seq<Line>, v: View, top: nat, edge: nat)
    requires Distinct(t) && v.top < v.edge && top < edge && v.edge + LIVE_LINES <= |t| && edge + LIVE_LINES <= |t|
    ensures var end := RepeatEnd(Trim(v.all), t[v.top..v.edge], t[top..edge], 1);
      && (end.Some? ==> top + end.value == v.edge)
      && (end.Some? <==> v.edge <= edge && top < v.edge && Recognised(t, v, top) && Holds(v.all, t[top..v.edge]))
  {
    hide RepeatsAt, Trim, Distinct, Anchors, Last;
    var kept, prev, stable := Trim(v.all), t[v.top..v.edge], t[top..edge];
    var end := RepeatEnd(kept, prev, stable, 1);
    if end.Some? {
      var o: nat, s: nat :| 1 <= o < |stable| && s < |prev|
        && RepeatsAt(kept, prev, stable, o, s) && end.value == o + |prev| - s;
      RepeatIsPlace(kept, t, v, top, edge, o, s);
      assert top < v.top + s;
    } else if v.edge <= edge && top < v.edge && Recognised(t, v, top) && Holds(v.all, t[top..v.edge]) {
      var a: nat :| top < a && v.top <= a < v.edge && Anchors(t, a, v.edge) >= ANCHOR_LINES;
      RepeatExists(kept, t, v, top, edge, a);
    }
  }

  lemma KeptTail(kept: seq<Line>, t: seq<Line>, v: View, m: nat)
    requires v.top <= v.edge <= |t| && m <= |kept| && m <= v.edge - v.top
    requires var n := Min(|kept|, v.edge - v.top); Last(kept, n) == Last(t[v.top..v.edge], n)
    ensures Last(kept, m) == t[v.edge - m..v.edge]
  {
    hide Last;
    var n, prev := Min(|kept|, v.edge - v.top), t[v.top..v.edge];
    LastOfLast(kept, n, m);
    LastOfLast(prev, n, m);
    LastOfSlice(t, v.top, v.edge, m);
  }

  lemma LastOfSlice(t: seq<Line>, a: nat, b: nat, m: nat)
    requires a <= b <= |t| && m <= b - a
    ensures Last(t[a..b], m) == t[b - m..b]
  {
  }

  lemma Joined(t: seq<Line>, a: nat, b: nat, c: nat)
    requires a <= b <= c <= |t|
    ensures t[a..b] + t[b..c] == t[a..c]
  {
  }

  lemma SplitLast(s: seq<Line>, m: nat)
    requires m <= |s|
    ensures s == s[..|s| - m] + Last(s, m)
  {
  }

  /** Replacing the shared lines by their fresh version adds the new ones. */
  lemma Splice(kept: seq<Line>, t: seq<Line>, v: View, top: nat, edge: nat)
    requires v.top <= top < v.edge <= edge <= |t|
    requires var n := Min(|kept|, v.edge - v.top); Last(kept, n) == Last(t[v.top..v.edge], n)
    ensures var overlap, stable := v.edge - top, t[top..edge];
      if |kept| >= overlap then kept[..|kept| - overlap] + stable == kept + t[v.edge..edge]
      else kept[..0] + stable[overlap - |kept|..] == kept + t[v.edge..edge]
  {
    hide Last;
    var overlap := v.edge - top;
    var m := Min(|kept|, overlap);
    KeptTail(kept, t, v, m);
    SplitLast(kept, m);
    Joined(t, v.edge - m, v.edge, edge);
    var front := kept[..|kept| - m];
    Grouped(front, t[v.edge - m..v.edge], t[v.edge..edge]);
    Beyond(t, top, edge, overlap - m);
  }

  lemma LastOfLast(s: seq<Line>, n: nat, m: nat)
    requires m <= n <= |s|
    ensures Last(s, m) == Last(Last(s, n), m)
  {
  }

  /** What is within the caps ends as the last screen did. */
  lemma KeptEnds(t: seq<Line>, v: View)
    requires Placed(t, v)
    ensures var kept := Trim(v.all);
      var n := Min(|kept|, v.edge - v.top); Last(kept, n) == Last(t[v.top..v.edge], n)
  {
    hide Trim;
    LastOfSuffix(v.all, Dropped(v.all), t[v.top..v.edge]);
  }

  lemma MergedRepeat(kept: seq<Line>, prev: seq<Line>, stable: seq<Line>, end: nat)
    requires RepeatEnd(kept, prev, stable, 1) == Some(end)
    ensures Merged(kept, prev, stable, true) == Merge(kept + stable[end..], |stable| - end, |stable| - end, false)
  {
    hide RepeatEnd;
  }

  lemma MergedAligned(kept: seq<Line>, prev: seq<Line>, stable: seq<Line>, recent: bool)
    requires prev != [] && (recent ==> RepeatEnd(kept, prev, stable, 1).None?)
    requires FirstShift(prev, stable, 0) < |prev|
    ensures var shift := FirstShift(prev, stable, 0);
      var overlap := |prev| - shift;
      && overlap <= |stable|
      && Merged(kept, prev, stable, recent) == Merge(
           if |kept| >= overlap then kept[..|kept| - overlap] + stable else kept[..0] + stable[overlap - |kept|..],
           |stable| - overlap, shift, false)
  {
    hide RepeatEnd, Aligned, FirstShift;
  }

  lemma MergedGap(kept: seq<Line>, prev: seq<Line>, stable: seq<Line>, recent: bool)
    requires prev != [] && (recent ==> RepeatEnd(kept, prev, stable, 1).None?)
    requires FirstShift(prev, stable, 0) == |prev|
    ensures Merged(kept, prev, stable, recent) == Merge(kept + [GAP] + stable, |stable|, |prev|, true)
  {
    hide RepeatEnd, FirstShift;
  }

  lemma MergeContinuing(t: seq<Line>, v: View, top: nat, edge: nat, recent: bool)
    requires Distinct(t) && Placed(t, v) && v.top < v.edge && top < edge && edge + LIVE_LINES <= |t|
    requires Continues(t, v, top, edge, recent)
    ensures var m := Merged(Trim(v.all), t[v.top..v.edge], t[top..edge], recent);
      m.committed == Trim(v.all) + t[v.edge..edge] && m.added == edge - v.edge && !m.gap
  {
    hide Merged, FirstShift, RepeatEnd, Trim, Distinct, Holds, Last, Anchors, Recognised, Continues;
    var kept, prev, stable := Trim(v.all), t[v.top..v.edge], t[top..edge];
    var end := RepeatEnd(kept, prev, stable, 1);
    if recent && end.Some? {
      RepeatContinues(t, v, top, edge);
      MergedRepeat(kept, prev, stable, end.value);
      Beyond(t, top, edge, v.edge - top);
    } else {
      MergeScrolled(t, v, top, edge, recent);
    }
  }

  lemma MergeScrolled(t: seq<Line>, v: View, top: nat, edge: nat, recent: bool)
    requires Distinct(t) && Placed(t, v) && v.top < v.edge && top < edge && edge + LIVE_LINES <= |t|
    requires Continues(t, v, top, edge, recent)
    requires !(recent && RepeatEnd(Trim(v.all), t[v.top..v.edge], t[top..edge], 1).Some?)
    ensures var m := Merged(Trim(v.all), t[v.top..v.edge], t[top..edge], recent);
      m.committed == Trim(v.all) + t[v.edge..edge] && m.added == edge - v.edge && !m.gap
  {
    hide Merged, FirstShift, RepeatEnd, Trim, Distinct, Holds, Last, Anchors, Recognised;
    var kept, prev, stable := Trim(v.all), t[v.top..v.edge], t[top..edge];
    RepeatContinues(t, v, top, edge);
    ShiftIsScroll(t, v.top, v.edge, top, edge);
    MergedAligned(kept, prev, stable, recent);
    KeptEnds(t, v);
    Splice(kept, t, v, top, edge);
  }

  lemma MergeBroken(t: seq<Line>, v: View, top: nat, edge: nat, recent: bool)
    requires Distinct(t) && v.top < v.edge && top < edge && v.edge + LIVE_LINES <= |t| && edge + LIVE_LINES <= |t|
    requires !Continues(t, v, top, edge, recent)
    ensures var m := Merged(Trim(v.all), t[v.top..v.edge], t[top..edge], recent);
      m.committed == Trim(v.all) + ([GAP] + t[top..edge]) && m.added == edge - top && m.gap
  {
    hide Merged, FirstShift, RepeatEnd, Trim, Distinct, Holds, Anchors, Recognised;
    RepeatContinues(t, v, top, edge);
    ShiftIsScroll(t, v.top, v.edge, top, edge);
    MergedGap(Trim(v.all), t[v.top..v.edge], t[top..edge], recent);
    assert Trim(v.all) + [GAP] + t[top..edge] == Trim(v.all) + ([GAP] + t[top..edge]);
  }

  /** Merging any screen adds to what is kept exactly the news, and reports a gap
      exactly when the screen does not continue. */
  lemma MergeTracks(h: Hist, t: seq<Line>, v: View, top: nat, edge: nat, recent: bool)
    requires Distinct(t) && Tracks(h, t, v) && top < edge && edge + LIVE_LINES <= |t|
    ensures var m, news := Merged(h.committed, h.prev, t[top..edge], recent), News(t, v, top, edge, recent);
      && m.committed == h.committed + news && |news| == m.added + (if m.gap then 1 else 0)
      && (m.gap <==> v.top < v.edge && !Continues(t, v, top, edge, recent))
  {
    hide Merged, Trim, Distinct, Continues, Last;
    if v.top == v.edge {
      NothingTrimmed();
      FirstMerge(t[top..edge], recent);
      assert [] + t[top..edge] == t[top..edge];
    } else if Continues(t, v, top, edge, recent) {
      MergeContinuing(t, v, top, edge, recent);
    } else {
      MergeBroken(t, v, top, edge, recent);
    }
  }

  lemma NothingTrimmed()
    ensures Trim([]) == []
  {
  }

  lemma FirstMerge(stable: seq<Line>, recent: bool)
    ensures Merged([], [], stable, recent) == Merge(stable, |stable|, 0, false)
  {
    hide RepeatsAt, Aligned;
    assert RepeatEnd([], [], stable, 1).None?;
    assert [] + stable == stable;
  }

  /** The observer's lines still end as the new screen does. */
  lemma NewsPlaced(t: seq<Line>, v: View, top: nat, edge: nat, recent: bool)
    requires Placed(t, v) && top < edge <= |t|
    ensures var all := v.all + News(t, v, top, edge, recent);
      edge - top <= |all| && Last(all, edge - top) == t[top..edge]
  {
    hide Trim, Dropped, Anchors, Recognised, Last, Holds;
    if v.top < v.edge && Continues(t, v, top, edge, recent) {
      if v.top <= top < v.edge {
        LastOfLast(v.all, v.edge - v.top, v.edge - top);
        LastOfSlice(t, v.top, v.edge, v.edge - top);
      } else {
        HeldEnds(v.all, t[top..v.edge]);
      }
      EndsGrow(v.all, t, top, v.edge, edge);
    } else {
      Grouped(v.all, [GAP], t[top..edge]);
      LastOfConcat(v.all, t[top..edge]);
      LastOfConcat(v.all + [GAP], t[top..edge]);
    }
  }

  lemma HeldEnds(all: seq<Line>, lines: seq<Line>)
    requires Holds(all, lines)
    ensures |lines| <= |all| && Last(all, |lines|) == lines
  {
    hide Trim, Dropped;
    assert Trim(all) == all[Dropped(all)..];
    SuffixOfSuffix(all, Dropped(all), |Trim(all)| - |lines|);
  }

  lemma EndsGrow(all: seq<Line>, t: seq<Line>, top: nat, seen: nat, edge: nat)
    requires top <= seen <= edge <= |t| && seen - top <= |all| && Last(all, seen - top) == t[top..seen]
    ensures Last(all + t[seen..edge], edge - top) == t[top..edge]
  {
    hide Last;
    var front := all[..|all| - (seen - top)];
    SplitLast(all, seen - top);
    Joined(t, top, seen, edge);
    Grouped(front, t[top..seen], t[seen..edge]);
    LastOfConcat(front, t[top..edge]);
  }

  /** Trimming early drops in all what trimming late does. */
  lemma DroppedGrows(all: seq<Line>, news: seq<Line>)
    ensures Trim(Trim(all) + news) == Trim(all + news)
    ensures Dropped(all + news) == Dropped(all) + Dropped(Trim(all) + news)
  {
    hide Trim;
    TrimAppend(all, news);
  }

  /** One more screen, wherever it lies. */
  lemma WindowTracks(h: Hist, t: seq<Line>, v: View, top: nat, bottom: nat, recent: bool)
    requires Distinct(t) && Tracks(h, t, v) && top + LIVE_LINES < bottom <= |t|
    ensures Tracks(Appended(h, t[top..bottom], recent), t, Seen(t, v, Window(top, bottom, recent)))
  {
    hide Blank, Merged, Trim, News, Last, Distinct;
    var lines, edge := t[top..bottom], bottom - LIVE_LINES;
    Slice(t, top, bottom, 0, edge - top);
    Slice(t, top, bottom, edge - top, bottom - top);
    assert Stable(lines) == t[top..edge] && Live(lines) == t[edge..bottom];
    MergeTracks(h, t, v, top, edge, recent);
    NewsPlaced(t, v, top, edge, recent);
    DroppedGrows(v.all, News(t, v, top, edge, recent));
  }

  lemma MarkTracks(h: Hist, t: seq<Line>, v: View)
    requires Tracks(h, t, v)
    ensures Tracks(Marked(h), t, Seen(t, v, Message))
  {
    hide Trim;
  }

  /** Any event, wherever its screen lies. */
  function Taken(h: Hist, t: seq<Line>, e: Event): Hist
    requires Inside(t, e)
  {
    match e
    case Message => Marked(h)
    case Window(top, bottom, recent) => Appended(h, t[top..bottom], recent)
  }

  lemma EventTracks(h: Hist, t: seq<Line>, v: View, e: Event)
    requires Distinct(t) && Tracks(h, t, v) && Inside(t, e)
    ensures Tracks(Taken(h, t, e), t, Seen(t, v, e))
  {
    hide Trim, News, Distinct, Merged, Capped;
    match e
    case Message => MarkTracks(h, t, v);
    case Window(top, bottom, recent) =>
      if bottom - top > LIVE_LINES {
        WindowTracks(h, t, v, top, bottom, recent);
      } else {
        assert Stable(t[top..bottom]) == [] && Live(t[top..bottom]) == t[top..bottom];
      }
  }

  const EMPTY := Hist([], [], [], -1, false)

  lemma EmptyKept()
    ensures Kept(EMPTY) && Bytes(EMPTY.committed) == 0
  {
  }

  /** A history without a stable screen is tracked from nothing, marked or not and
      whatever its live lines are; so the first screen starts it. */
  lemma FirstTracks(h: Hist, t: seq<Line>, top: nat, bottom: nat, recent: bool)
    requires Distinct(t) && top + LIVE_LINES < bottom <= |t|
    requires h.committed == h.prev == [] && (h.mark == -1 || h.mark == 0) && !h.truncated
    ensures var edge := bottom - LIVE_LINES;
      Tracks(Appended(h, t[top..bottom], recent), t, View(t[top..edge], h.mark, top, edge, t[edge..bottom]))
  {
    hide Appended, Distinct, Tracks;
    FreshTracks(h, t);
    WindowTracks(h, t, View([], h.mark, 0, 0, h.tail), top, bottom, recent);
    assert [] + t[top..bottom - LIVE_LINES] == t[top..bottom - LIVE_LINES];
  }

  lemma FreshTracks(h: Hist, t: seq<Line>)
    requires h.committed == h.prev == [] && (h.mark == -1 || h.mark == 0) && !h.truncated
    ensures Tracks(h, t, View([], h.mark, 0, 0, h.tail))
  {
  }

  ghost function After(h: Hist, t: seq<Line>, events: seq<Event>): Hist
    requires forall e <- events :: Inside(t, e)
    decreases |events|
  {
    if events == [] then h else After(Taken(h, t, events[0]), t, events[1..])
  }

  ghost function ViewAfter(t: seq<Line>, v: View, events: seq<Event>): View
    requires v.top <= v.edge <= |t| && forall e <- events :: Inside(t, e)
    decreases |events|
  {
    if events == [] then v else ViewAfter(t, Seen(t, v, events[0]), events[1..])
  }

  lemma {:induction false} RunTracks(h: Hist, t: seq<Line>, v: View, events: seq<Event>)
    requires Distinct(t) && Tracks(h, t, v) && forall e <- events :: Inside(t, e)
    ensures Tracks(After(h, t, events), t, ViewAfter(t, v, events))
    decreases |events|
  {
    hide Distinct, Tracks, Taken, Seen;
    TracksPlaced(h, t, v);
    if events != [] {
      EventTracks(h, t, v, events[0]);
      TracksPlaced(Taken(h, t, events[0]), t, Seen(t, v, events[0]));
      RunTracks(Taken(h, t, events[0]), t, Seen(t, v, events[0]), events[1..]);
    }
  }

  lemma TracksPlaced(h: Hist, t: seq<Line>, v: View)
    requires Tracks(h, t, v)
    ensures v.top <= v.edge <= |t|
  {
  }

  /** What the observer shows a reader: everything since the last message, behind a
      gap line exactly when some of that is beyond the caps. */
  function Told(v: View): seq<Line>
    requires v.since <= |v.all|
  {
    (if v.From() < Dropped(v.all) then [GAP] + Trim(v.all) else v.all[v.From()..]) + v.tail
  }

  lemma SuffixOfSuffix(s: seq<Line>, n: nat, m: nat)
    requires n + m <= |s|
    ensures s[n..][m..] == s[n + m..]
  {
  }

  lemma ShownIsTold(h: Hist, t: seq<Line>, v: View)
    requires Tracks(h, t, v)
    ensures h.mark <= |h.committed| && v.since <= |v.all| && Shown(h) == Told(v)
  {
    hide Trim, Last, Dropped;
    var from := if h.mark > 0 then h.mark else 0;
    if v.From() < Dropped(v.all) {
      assert from == 0 && Trim(v.all)[0..] == Trim(v.all);
      Grouped([GAP], Trim(v.all), v.tail);
    } else {
      assert from == v.From() - Dropped(v.all);
      SuffixOfSuffix(v.all, Dropped(v.all), from);
      assert [] + v.all[v.From()..] == v.all[v.From()..];
    }
  }

  /** For every sequence of screens of a transcript of distinct lines, whatever they
      skip or repeat, and of messages before, between and after them: an empty
      history becomes what the observer keeps within the caps, and shows it. */
  lemma HistoryIsTranscript(t: seq<Line>, events: seq<Event>)
    requires Distinct(t) && forall e <- events :: Inside(t, e)
    ensures var h, v := After(EMPTY, t, events), ViewAfter(t, UNSEEN, events);
      && h.committed == Trim(v.all) && h.tail == v.tail
      && h.mark <= |h.committed| && v.since <= |v.all| && Shown(h) == Told(v)
  {
    hide Distinct, After, ViewAfter, Shown, Told, Trim;
    EmptyTracks(t);
    RunTracks(EMPTY, t, UNSEEN, events);
    ShownIsTold(After(EMPTY, t, events), t, ViewAfter(t, UNSEEN, events));
  }

  lemma EmptyTracks(t: seq<Line>)
    ensures Tracks(EMPTY, t, UNSEEN)
  {
  }

  // ---- screens without a break ----

  /** Every screen after the first one with stable lines continues the one before. */
  ghost predicate Unbroken(t: seq<Line>, v: View, events: seq<Event>)
    requires v.top <= v.edge <= |t| && forall e <- events :: Inside(t, e)
    decreases |events|
  {
    if events == [] then true
    else
      && (match events[0]
          case Message => true
          case Window(top, bottom, recent) =>
            || v.top == v.edge
            || (bottom - top > LIVE_LINES && Continues(t, v, top, bottom - LIVE_LINES, recent)))
      && Unbroken(t, Seen(t, v, events[0]), events[1..])
  }

  /** The observer has seen the transcript from line start on. */
  ghost predicate SeenFrom(t: seq<Line>, v: View, start: nat) {
    if v.top == v.edge then v.all == [] && start == v.edge == 0
    else start <= v.edge && v.edge + LIVE_LINES <= |t| && v.all == t[start..v.edge] && v.tail == t[v.edge..v.edge + LIVE_LINES]
  }

  lemma ContinuesOn(t: seq<Line>, v: View, top: nat, edge: nat, recent: bool)
    requires v.top <= v.edge <= |t|
    ensures Continues(t, v, top, edge, recent) ==> v.edge <= edge
  {
    hide Holds, Recognised, Anchors;
  }

  lemma SeenFromMore(t: seq<Line>, v: View, e: Event, start: nat)
    requires v.top <= v.edge <= |t| && Inside(t, e) && Unbroken(t, v, [e]) && SeenFrom(t, v, start)
    ensures var v' := Seen(t, v, e);
      SeenFrom(t, v', if v.top == v.edge && v'.top < v'.edge then v'.top else start)
  {
    hide Continues;
    if e.Window? && e.bottom - e.top > LIVE_LINES {
      var edge := e.bottom - LIVE_LINES;
      if v.top == v.edge {
        Grouped([], t[e.top..edge], []);
      } else {
        assert Continues(t, v, e.top, edge, e.recent);
        SeenFurther(t, v, e, start);
      }
    }
  }

  lemma SeenFurther(t: seq<Line>, v: View, e: Event, start: nat)
    requires v.top < v.edge <= |t| && Inside(t, e) && SeenFrom(t, v, start)
    requires e.Window? && e.bottom - e.top > LIVE_LINES && Continues(t, v, e.top, e.bottom - LIVE_LINES, e.recent)
    ensures SeenFrom(t, Seen(t, v, e), start)
  {
    ContinuesOn(t, v, e.top, e.bottom - LIVE_LINES, e.recent);
    hide Continues;
    Joined(t, start, v.edge, e.bottom - LIVE_LINES);
  }

  /** The top of the first screen with stable lines. */
  function Start(events: seq<Event>): nat {
    if events == [] then 0
    else if events[0].Window? && events[0].bottom - events[0].top > LIVE_LINES then events[0].top
    else Start(events[1..])
  }

  lemma {:induction false} UnbrokenSeen(t: seq<Line>, v: View, events: seq<Event>, start: nat)
    requires v.top <= v.edge <= |t| && forall e <- events :: Inside(t, e)
    requires Unbroken(t, v, events) && SeenFrom(t, v, start)
    ensures SeenFrom(t, ViewAfter(t, v, events), if v.top == v.edge then Start(events) else start)
    decreases |events|
  {
    hide Continues, News, SeenFrom;
    if events == [] {
      NothingSeen(t, v, start);
    } else {
      var e, v' := events[0], Seen(t, v, events[0]);
      assert Unbroken(t, v', []);
      assert [e][1..] == [] && Unbroken(t, v, [e]);
      SeenFromMore(t, v, e, start);
      UnbrokenSeen(t, v', events[1..], if v.top == v.edge && v'.top < v'.edge then v'.top else start);
    }
  }

  lemma NothingSeen(t: seq<Line>, v: View, start: nat)
    requires SeenFrom(t, v, start)
    ensures v.top == v.edge ==> start == 0
  {
  }

  /** Without a break the observer has seen the transcript itself, so the history
      holds the longest suffix of it that fits and shows it from the last message
      to the bottom of the screen. */
  lemma UnbrokenIsTranscript(t: seq<Line>, events: seq<Event>)
    requires Distinct(t) && (forall e <- events :: Inside(t, e)) && Unbroken(t, UNSEEN, events)
    ensures var h, v, start := After(EMPTY, t, events), ViewAfter(t, UNSEEN, events), Start(events);
      v.top < v.edge ==>
        && start <= v.edge && v.edge + LIVE_LINES <= |t| && h.mark <= |h.committed|
        && h.committed == Trim(t[start..v.edge])
        && v.since <= v.edge - start
        && var from, low := start + v.From(), start + Dropped(t[start..v.edge]);
        Shown(h) == if from < low then [GAP] + t[low..v.edge + LIVE_LINES] else t[from..v.edge + LIVE_LINES]
  {
    hide Distinct, After, ViewAfter, Unbroken, Shown, Trim, Told, SeenFrom, Dropped, Start;
    var v, start := ViewAfter(t, UNSEEN, events), Start(events);
    HistoryIsTranscript(t, events);
    NothingSeenYet(t);
    UnbrokenSeen(t, UNSEEN, events, 0);
    if v.top < v.edge {
      ToldUnbroken(t, v, start);
    }
  }

  lemma NothingSeenYet(t: seq<Line>)
    ensures SeenFrom(t, UNSEEN, 0)
  {
  }

  lemma ToldUnbroken(t: seq<Line>, v: View, start: nat)
    requires SeenFrom(t, v, start) && v.top < v.edge && v.since <= |v.all|
    ensures start <= v.edge && v.edge + LIVE_LINES <= |t| && v.all == t[start..v.edge]
    ensures var from, low := start + v.From(), start + Dropped(t[start..v.edge]);
      Told(v) == if from < low then [GAP] + t[low..v.edge + LIVE_LINES] else t[from..v.edge + LIVE_LINES]
  {
    hide Trim, Dropped;
    var bottom := v.edge + LIVE_LINES;
    if v.From() < Dropped(v.all) {
      Beyond(t, start, v.edge, Dropped(v.all));
      Joined(t, start + Dropped(v.all), v.edge, bottom);
      Grouped([GAP], Trim(v.all), v.tail);
    } else {
      Beyond(t, start, v.edge, v.From());
      Joined(t, start + v.From(), v.edge, bottom);
    }
  }

  lemma Beyond(t: seq<Line>, a: nat, b: nat, n: nat)
    requires a <= b <= |t| && n <= b - a
    ensures t[a..b][n..] == t[a + n..b]
  {
  }

  lemma Grouped(a: seq<Line>, b: seq<Line>, c: seq<Line>)
    ensures a + b + c == a + (b + c)
  {
  }

  /** A gap is reported exactly for a screen that does not continue the last one. An
      ordinary screen does exactly if it starts inside it, ends no earlier and shares
      an anchor line that is not blank. */
  lemma GapExactly(h: Hist, t: seq<Line>, v: View, top: nat, edge: nat, recent: bool)
    requires Distinct(t) && Tracks(h, t, v) && v.top < v.edge && top < edge && edge + LIVE_LINES <= |t|
    ensures Merged(h.committed, h.prev, t[top..edge], recent).gap <==> !Continues(t, v, top, edge, recent)
    ensures !recent ==>
              (Continues(t, v, top, edge, recent) <==> v.top <= top < v.edge <= edge && Anchors(t, top, v.edge) > 0)
  {
    hide Merged, News, Trim, Anchors;
    MergeTracks(h, t, v, top, edge, recent);
  }

  /** The next screen is reported as a gap exactly if the observer sees one. */
  ghost predicate GapRight(t: seq<Line>, events: seq<Event>, top: nat, edge: nat, recent: bool)
    requires (forall e <- events :: Inside(t, e)) && top < edge && edge + LIVE_LINES <= |t|
  {
    var h, v := After(EMPTY, t, events), ViewAfter(t, UNSEEN, events);
    v.top < v.edge <= |t| ==>
      (Merged(h.committed, h.prev, t[top..edge], recent).gap <==> !Continues(t, v, top, edge, recent))
  }

  /** That cannot be had for less: the gaps are right in every run over a transcript
      if and only if its lines are distinct. */
  lemma DistinctExactly(t: seq<Line>)
    ensures Distinct(t) <==>
              forall events: seq<Event>, top: nat, edge: nat, recent: bool |
                (forall e <- events :: Inside(t, e)) && top < edge && edge + LIVE_LINES <= |t| ::
                GapRight(t, events, top, edge, recent)
  {
    hide Distinct, GapRight;
    if Distinct(t) {
      forall events: seq<Event>, top: nat, edge: nat, recent: bool |
        (forall e <- events :: Inside(t, e)) && top < edge && edge + LIVE_LINES <= |t|
        ensures GapRight(t, events, top, edge, recent)
      {
        GapsOfRun(t, events, top, edge, recent);
      }
    } else {
      var i: nat, j: nat :| i < j < |t| - LIVE_LINES && t[i] == t[j] && !Blank(t[i]) by {
        Confusable(t);
      }
      GapMissed(t, i, j);
    }
  }

  lemma Confusable(t: seq<Line>)
    requires !Distinct(t)
    ensures exists i: nat, j: nat :: i < j < |t| - LIVE_LINES && t[i] == t[j] && !Blank(t[i])
  {
    hide Blank;
    var i, j :| 0 <= i < j < |t| - LIVE_LINES && t[i] == t[j] && !Blank(t[i]);
  }

  lemma GapsOfRun(t: seq<Line>, events: seq<Event>, top: nat, edge: nat, recent: bool)
    requires Distinct(t) && (forall e <- events :: Inside(t, e)) && top < edge && edge + LIVE_LINES <= |t|
    ensures GapRight(t, events, top, edge, recent)
  {
    hide Distinct, After, ViewAfter, Tracks, Merged, Continues;
    EmptyTracks(t);
    RunTracks(EMPTY, t, UNSEEN, events);
    var h, v := After(EMPTY, t, events), ViewAfter(t, UNSEEN, events);
    if v.top < v.edge <= |t| {
      GapExactly(h, t, v, top, edge, recent);
    }
  }

  /** A screen that ends with a line and a later one that starts with the same are
      taken for neighbours, whatever lies between them. */
  lemma GapMissed(t: seq<Line>, i: nat, j: nat)
    requires i < j < |t| - LIVE_LINES && t[i] == t[j] && !Blank(t[i])
    ensures var e := Window(i, i + 1 + LIVE_LINES, false);
      Inside(t, e) && !GapRight(t, [e], j, j + 1, false)
  {
    hide Blank, Capped, Trim, After, ViewAfter, Merged, Anchors, Recognised, Holds, News;
    var e := Window(i, i + 1 + LIVE_LINES, false);
    OneEvent(EMPTY, t, UNSEEN, e);
    var h := FirstLine(t, i);
    assert h == After(EMPTY, t, [e]) && h.prev == [t[i]] && t[j..j + 1] == [t[i]];
    SameLineAligns(t[i]);
    MergedAligned(h.committed, [t[i]], [t[i]], false);
  }

  ghost function FirstLine(t: seq<Line>, i: nat): (h: Hist)
    requires i + LIVE_LINES < |t|
    ensures h == Taken(EMPTY, t, Window(i, i + 1 + LIVE_LINES, false)) && h.prev == [t[i]]
  {
    hide Capped, Merged;
    var lines := t[i..i + 1 + LIVE_LINES];
    assert Stable(lines) == lines[..1] == [t[i]];
    CappedPrev(Hist(Merged([], [], [t[i]], false).committed, [t[i]], Live(lines), -1, false));
    Taken(EMPTY, t, Window(i, i + 1 + LIVE_LINES, false))
  }

  lemma SameLineAligns(x: Line)
    requires !Blank(x)
    ensures FirstShift([x], [x], 0) == 0
  {
    hide Blank;
    assert [x][0..] == [x] && Texts([x], 0) == 0 && Hits([x], [x], 0) == 0;
    assert AlignsAt([x], [x], 0);
  }

  lemma OneEvent(h: Hist, t: seq<Line>, v: View, e: Event)
    requires Inside(t, e) && v.top <= v.edge <= |t|
    ensures After(h, t, [e]) == Taken(h, t, e) && ViewAfter(t, v, [e]) == Seen(t, v, e)
  {
    hide Taken, Seen;
    assert [e][1..] == [];
    assert After(Taken(h, t, e), t, []) == Taken(h, t, e);
    NothingMore(t, Seen(t, v, e));
  }

  lemma NothingMore(t: seq<Line>, v: View)
    ensures v.top <= v.edge <= |t| ==> ViewAfter(t, v, []) == v
  {
  }

  lemma CappedPrev(h: Hist)
    ensures Capped(h).prev == h.prev
  {
    hide Trim;
  }
}
