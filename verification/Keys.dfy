/** Agent keys and their storage form.

    A key names one agent: the pane it runs in, the terminal of the current run
    and, when Herdr reports one, the digest of its session. Keys index the
    mapping file, so their text form must be read back without loss. Key parts
    are byte strings, as in the program. */
module Keys {

  type Byte = c: char | c as int < 256 witness 'a'
  type Text = seq<Byte>

  datatype Option<+T> = None | Some(value: T)

  datatype Key = Key(pane: Text, terminal: Text, digest: Text) {

    /** Same pane and the same known session; terminals are ignored. */
    predicate SameSession(other: Key) {
      pane != [] && pane == other.pane && digest != [] && digest == other.digest
    }

    /** Same pane, two different known sessions. */
    predicate ConflictsWith(other: Key) {
      pane != [] && pane == other.pane && digest != [] && other.digest != [] && digest != other.digest
    }

    /** Sessions decide when both are known; otherwise the terminal does. */
    predicate SameIdentity(other: Key) {
      if pane == [] || pane != other.pane then false
      else if digest != [] && other.digest != [] then digest == other.digest
      else terminal != [] && terminal == other.terminal
    }

    predicate Usable() {
      pane != [] && terminal != []
    }
  }

  // ---- unpadded base64url (RFC 4648, section 5) ----

  /** The six-bit value n as a base64url symbol. */
  function Symbol(n: nat): (c: Byte)
    requires n < 64
    ensures c != ':' && c != '/' && c != '\n' && c != '\r'
  {
    if n < 26 then 'A' + (n as char)
    else if n < 52 then 'a' + ((n - 26) as char)
    else if n < 62 then '0' + ((n - 52) as char)
    else if n == 62 then '-'
    else '_'
  }

  function SymbolValue(c: Byte): (v: Option<nat>)
    ensures v.Some? ==> v.value < 64
  {
    if 'A' <= c <= 'Z' then Some(c as int - 'A' as int)
    else if 'a' <= c <= 'z' then Some(c as int - 'a' as int + 26)
    else if '0' <= c <= '9' then Some(c as int - '0' as int + 52)
    else if c == '-' then Some(62)
    else if c == '_' then Some(63)
    else None
  }

  lemma SymbolRoundTrip(n: nat)
    requires n < 64
    ensures SymbolValue(Symbol(n)) == Some(n)
  {
  }

  // The four symbols of a group of three bytes, and the bytes of four symbols.

  function First(a: Byte): Byte {
    Symbol(a as int / 4)
  }

  function Second(a: Byte, b: Byte): Byte {
    Symbol(a as int % 4 * 16 + b as int / 16)
  }

  function Third(b: Byte, c: Byte): Byte {
    Symbol(b as int % 16 * 4 + c as int / 64)
  }

  function Fourth(c: Byte): Byte {
    Symbol(c as int % 64)
  }

  function ByteOne(v0: nat, v1: nat): Byte
    requires v0 < 64 && v1 < 64
  {
    (v0 * 4 + v1 / 16) as char
  }

  function ByteTwo(v1: nat, v2: nat): Byte
    requires v1 < 64 && v2 < 64
  {
    (v1 % 16 * 16 + v2 / 4) as char
  }

  function ByteThree(v2: nat, v3: nat): Byte
    requires v2 < 64 && v3 < 64
  {
    (v2 % 4 * 64 + v3) as char
  }

  const ZERO: Byte := 0 as char

  function Encode(s: Text): Text {
    if |s| == 0 then []
    else if |s| == 1 then [First(s[0]), Second(s[0], ZERO)]
    else if |s| == 2 then [First(s[0]), Second(s[0], s[1]), Third(s[1], ZERO)]
    else [First(s[0]), Second(s[0], s[1]), Third(s[1], s[2]), Fourth(s[2])] + Encode(s[3..])
  }

  /** The decoder of the Go library skips line breaks anywhere in its input. */
  function DropBreaks(s: Text): Text {
    if s == [] then []
    else if s[0] == '\n' || s[0] == '\r' then DropBreaks(s[1..])
    else [s[0]] + DropBreaks(s[1..])
  }

  /** Decoding is lax: unused low bits of the last symbol may be anything. */
  function DecodeSymbols(s: Text): Option<Text> {
    if |s| == 0 then Some([])
    else if |s| == 1 then None
    else
      var v0, v1 := SymbolValue(s[0]), SymbolValue(s[1]);
      if v0.None? || v1.None? then None
      else if |s| == 2 then Some([ByteOne(v0.value, v1.value)])
      else
        var v2 := SymbolValue(s[2]);
        if v2.None? then None
        else if |s| == 3 then Some([ByteOne(v0.value, v1.value), ByteTwo(v1.value, v2.value)])
        else
          var v3 := SymbolValue(s[3]);
          var rest := DecodeSymbols(s[4..]);
          if v3.None? || rest.None? then None
          else
            Some([ByteOne(v0.value, v1.value), ByteTwo(v1.value, v2.value), ByteThree(v2.value, v3.value)]
                 + rest.value)
  }

  function Decode(s: Text): Option<Text> {
    DecodeSymbols(DropBreaks(s))
  }

  predicate Plain(s: Text) {
    forall i :: 0 <= i < |s| ==> s[i] != ':' && s[i] != '/' && s[i] != '\n' && s[i] != '\r'
  }

  lemma {:induction false} EncodePlain(s: Text)
    ensures Plain(Encode(s))
    ensures Encode(s) == [] <==> s == []
  {
    if |s| >= 3 {
      EncodePlain(s[3..]);
    }
  }

  lemma {:induction false} DropBreaksPlain(s: Text)
    requires Plain(s)
    ensures DropBreaks(s) == s
  {
    if s != [] {
      assert s == [s[0]] + s[1..];
      DropBreaksPlain(s[1..]);
    }
  }

  lemma Pack(a: nat, b: nat, c: nat)
    requires a < 256 && b < 256 && c < 256
    ensures a / 4 * 4 + (a % 4 * 16 + b / 16) / 16 == a
    ensures (a % 4 * 16 + b / 16) % 16 * 16 + (b % 16 * 4 + c / 64) / 4 == b
    ensures (b % 16 * 4 + c / 64) % 4 * 64 + c % 64 == c
  {
  }

  /** Three bytes survive the trip through four six-bit symbols. */
  lemma UnpackGroup(a: Byte, b: Byte, c: Byte)
    ensures SymbolValue(First(a)).Some? && SymbolValue(Second(a, b)).Some?
    ensures SymbolValue(Third(b, c)).Some? && SymbolValue(Fourth(c)).Some?
    ensures ByteOne(SymbolValue(First(a)).value, SymbolValue(Second(a, b)).value) == a
    ensures ByteTwo(SymbolValue(Second(a, b)).value, SymbolValue(Third(b, c)).value) == b
    ensures ByteThree(SymbolValue(Third(b, c)).value, SymbolValue(Fourth(c)).value) == c
  {
    var x, y, z := a as int, b as int, c as int;
    SymbolRoundTrip(x / 4);
    SymbolRoundTrip(x % 4 * 16 + y / 16);
    SymbolRoundTrip(y % 16 * 4 + z / 64);
    SymbolRoundTrip(z % 64);
    Pack(x, y, z);
  }

  lemma DecodeGroup(w: Byte, x: Byte, y: Byte, z: Byte, rest: Text)
    requires SymbolValue(w).Some? && SymbolValue(x).Some? && SymbolValue(y).Some? && SymbolValue(z).Some?
    requires DecodeSymbols(rest).Some?
    ensures DecodeSymbols([w, x, y, z] + rest) ==
            Some([ByteOne(SymbolValue(w).value, SymbolValue(x).value), ByteTwo(SymbolValue(x).value, SymbolValue(y).value),
                  ByteThree(SymbolValue(y).value, SymbolValue(z).value)] + DecodeSymbols(rest).value)
  {
    hide SymbolValue, ByteOne, ByteTwo, ByteThree;
    var s := [w, x, y, z] + rest;
    assert s[0] == w && s[1] == x && s[2] == y && s[3] == z && s[4..] == rest && |s| > 3;
  }

  lemma {:induction false} DecodeSymbolsEncode(s: Text)
    ensures DecodeSymbols(Encode(s)) == Some(s)
  {
    hide First, Second, Third, Fourth, ByteOne, ByteTwo, ByteThree, SymbolValue;
    if |s| == 1 {
      UnpackGroup(s[0], ZERO, ZERO);
      assert s == [s[0]];
    } else if |s| == 2 {
      UnpackGroup(s[0], s[1], ZERO);
      assert s == [s[0], s[1]];
    } else if |s| > 2 {
      UnpackGroup(s[0], s[1], s[2]);
      DecodeSymbolsEncode(s[3..]);
      assert s == [s[0], s[1], s[2]] + s[3..];
      hide DecodeSymbols;
      DecodeGroup(First(s[0]), Second(s[0], s[1]), Third(s[1], s[2]), Fourth(s[2]), Encode(s[3..]));
    }
  }

  /** Decoding undoes encoding on every byte string. */
  lemma DecodeEncode(s: Text)
    ensures Decode(Encode(s)) == Some(s)
  {
    EncodePlain(s);
    DropBreaksPlain(Encode(s));
    DecodeSymbolsEncode(s);
  }

  /** Test vectors of RFC 4648, section 10, without padding. */
  lemma Vectors()
    ensures Encode(['f']) == ['Z', 'g'] && Encode(['f', 'o']) == ['Z', 'm', '8']
    ensures Encode(['f', 'o', 'o']) == ['Z', 'm', '9', 'v']
    ensures Encode(['f', 'o', 'o', 'b', 'a', 'r']) == ['Z', 'm', '9', 'v', 'Y', 'm', 'F', 'y']
  {
    var foo: Text, bar: Text := ['f', 'o', 'o'], ['b', 'a', 'r'];
    assert foo + bar == ['f', 'o', 'o', 'b', 'a', 'r'] && (foo + bar)[3..] == bar;
  }

  // ---- the two text forms of a key ----

  const VERSION_PREFIX: Text := ['v', '2', ':']

  /** 32 bytes in lower-case hexadecimal, the only digest text that is read back. */
  predicate IsDigest(s: Text) {
    |s| == 64 && forall c <- s :: '0' <= c <= '9' || 'a' <= c <= 'f'
  }

  function String(k: Key): Text {
    if k.digest != [] then
      VERSION_PREFIX + Encode(k.pane) + [':'] + Encode(k.terminal) + [':'] + k.digest
    else
      k.pane + ['/'] + k.terminal
  }

  /** The text before and after the first separator. */
  function Cut(s: Text, sep: Byte): (r: Option<(Text, Text)>)
    ensures r.None? <==> sep !in s
    ensures r.Some? ==> s == r.value.0 + [sep] + r.value.1 && sep !in r.value.0
  {
    if s == [] then None
    else if s[0] == sep then Some(([], s[1..]))
    else
      var r := Cut(s[1..], sep);
      if r.None? then None else Some(([s[0]] + r.value.0, r.value.1))
  }

  function Split(s: Text, sep: Byte): seq<Text>
    decreases |s|
  {
    var r := Cut(s, sep);
    if r.None? then [s] else [r.value.0] + Split(r.value.1, sep)
  }

  function ParsePart(s: Text): (r: Option<Text>)
    ensures r.Some? ==> r.value != [] && Encode(r.value) == s
  {
    var d := Decode(s);
    if d.None? || d.value == [] || Encode(d.value) != s then None else d
  }

  function ParseParts(parts: seq<Text>): Option<Key> {
    if |parts| != 3 then None
    else
      var pane, terminal := ParsePart(parts[0]), ParsePart(parts[1]);
      if pane.None? || terminal.None? || !IsDigest(parts[2]) then None
      else Some(Key(pane.value, terminal.value, parts[2]))
  }

  function ParseKey(s: Text): Option<Key> {
    if VERSION_PREFIX <= s then ParseParts(Split(s[3..], ':'))
    else
      var r := Cut(s, '/');
      if r.None? || r.value.0 == [] || r.value.1 == [] then None
      else Some(Key(r.value.0, r.value.1, []))
  }

  /** The keys whose text form can be read back. */
  predicate WellFormed(k: Key) {
    && k.Usable()
    && if k.digest != [] then IsDigest(k.digest)
       else '/' !in k.pane && !(VERSION_PREFIX <= k.pane)
  }

  lemma {:induction false} CutAt(a: Text, sep: Byte, b: Text)
    requires sep !in a
    ensures Cut(a + [sep] + b, sep) == Some((a, b))
  {
    var s := a + [sep] + b;
    if a == [] {
      assert s[1..] == b;
    } else {
      assert s[1..] == a[1..] + [sep] + b;
      CutAt(a[1..], sep, b);
      assert a == [a[0]] + a[1..];
    }
  }

  lemma SplitOne(a: Text, rest: Text)
    requires ':' !in a
    ensures Split(a + [':'] + rest, ':') == [a] + Split(rest, ':')
  {
    CutAt(a, ':', rest);
  }

  lemma SplitThree(a: Text, b: Text, c: Text)
    requires ':' !in a && ':' !in b
    ensures Split(a + [':'] + b + [':'] + c, ':') == [a, b] + Split(c, ':')
  {
    hide Split;
    assert a + [':'] + b + [':'] + c == a + [':'] + (b + [':'] + c);
    SplitOne(a, b + [':'] + c);
    SplitOne(b, c);
    assert [a] + ([b] + Split(c, ':')) == [a, b] + Split(c, ':');
  }

  lemma SplitSessionText(k: Key)
    requires k.digest != []
    ensures VERSION_PREFIX <= String(k)
    ensures Split(String(k)[3..], ':') == [Encode(k.pane), Encode(k.terminal)] + Split(k.digest, ':')
  {
    hide Encode, Split, Cut;
    EncodePlain(k.pane);
    EncodePlain(k.terminal);
    assert String(k)[3..] == Encode(k.pane) + [':'] + Encode(k.terminal) + [':'] + k.digest;
    SplitThree(Encode(k.pane), Encode(k.terminal), k.digest);
  }

  lemma ParsePartEncode(s: Text)
    ensures ParsePart(Encode(s)) == if s == [] then None else Some(s)
  {
    DecodeEncode(s);
  }

  /** A session key is read back as itself or not at all. */
  lemma ParseSessionKey(k: Key)
    requires k.digest != []
    ensures ParseKey(String(k)) == if IsDigest(k.digest) && k.Usable() then Some(k) else None
  {
    SplitSessionText(k);
    ParsePartEncode(k.pane);
    ParsePartEncode(k.terminal);
    var tail := Split(k.digest, ':');
    if ':' !in k.digest {
      assert tail == [k.digest];
    } else {
      assert |tail| > 1;
    }
  }

  lemma PlainTextHasNoPrefix(k: Key)
    requires k.digest == [] && '/' !in k.pane && !(VERSION_PREFIX <= k.pane)
    ensures !(VERSION_PREFIX <= String(k))
  {
    var s := String(k);
    if |k.pane| >= 3 {
      assert s[..3] == k.pane[..3];
    } else {
      assert s[|k.pane|] == '/' != VERSION_PREFIX[|k.pane|];
    }
  }

  lemma ParsePlainKey(k: Key)
    requires k.digest == [] && k.Usable() && '/' !in k.pane && !(VERSION_PREFIX <= k.pane)
    ensures ParseKey(String(k)) == Some(k)
  {
    PlainTextHasNoPrefix(k);
    CutAt(k.pane, '/', k.terminal);
  }

  lemma SplitThreeBack(s: Text)
    requires |Split(s, ':')| == 3
    ensures var p := Split(s, ':'); s == p[0] + [':'] + p[1] + [':'] + p[2]
  {
    var first := Cut(s, ':').value;
    var second := Cut(first.1, ':').value;
    assert Split(second.1, ':') == [second.1];
    assert Split(s, ':') == [first.0] + ([second.0] + [second.1]);
    assert s == first.0 + [':'] + (second.0 + [':'] + second.1);
  }

  lemma SessionTextParse(parts: seq<Text>)
    requires ParseParts(parts).Some?
    ensures WellFormed(ParseParts(parts).value)
    ensures String(ParseParts(parts).value)
            == VERSION_PREFIX + (parts[0] + [':'] + parts[1] + [':'] + parts[2])
  {
    var k := ParseParts(parts).value;
    assert Encode(k.pane) == parts[0] && Encode(k.terminal) == parts[1];
    assert VERSION_PREFIX + parts[0] + [':'] + parts[1] + [':'] + parts[2]
        == VERSION_PREFIX + (parts[0] + [':'] + parts[1] + [':'] + parts[2]);
  }

  /** What an accepted text holds: a well-formed key, which prints back to it. */
  lemma StringParse(s: Text)
    requires ParseKey(s).Some?
    ensures WellFormed(ParseKey(s).value)
    ensures String(ParseKey(s).value) == s
  {
    if VERSION_PREFIX <= s {
      SplitThreeBack(s[3..]);
      SessionTextParse(Split(s[3..], ':'));
      assert s == VERSION_PREFIX + s[3..];
    } else {
      var r := Cut(s, '/').value;
      assert |r.0| >= 3 ==> s[..3] == r.0[..3];
    }
  }

  /** A key is read back from its text exactly when it is well-formed. */
  lemma ParseString(k: Key)
    ensures ParseKey(String(k)) == Some(k) <==> WellFormed(k)
  {
    if WellFormed(k) {
      if k.digest != [] {
        ParseSessionKey(k);
      } else {
        ParsePlainKey(k);
      }
    } else if ParseKey(String(k)) == Some(k) {
      StringParse(String(k));
    }
  }

  /** Different well-formed keys never share a storage slot. */
  lemma StringInjective(a: Key, b: Key)
    requires WellFormed(a) && WellFormed(b) && String(a) == String(b)
    ensures a == b
  {
    ParseString(a);
    ParseString(b);
  }

  lemma SessionTextHasNoSlash(k: Key)
    requires WellFormed(k) && k.digest != []
    ensures '/' !in String(k)
  {
    EncodePlain(k.pane);
    EncodePlain(k.terminal);
  }

  /** A stored key that identifies the live key it was looked up under is that
      very key, so an exact match never renames an entry. */
  lemma IdentifiedIsSame(k: Key)
    requires k.Usable() && ParseKey(String(k)).Some? && ParseKey(String(k)).value.SameIdentity(k)
    ensures ParseKey(String(k)) == Some(k)
  {
    StringParse(String(k));
    if k.digest != [] {
      ParseSessionKey(k);
    } else {
      assert String(k)[|k.pane|] == '/';
      if ParseKey(String(k)).value.digest != [] {
        SessionTextHasNoSlash(ParseKey(String(k)).value);
      }
    }
  }
}
