/**
 * The KWP2000 session (kwp2000.cpp) on top of the TP 2.0 transport:
 * dispatch of responses by service, the map of open measuring blocks
 * and their round-robin polling, the sample list that merges the
 * engine-speed values of several blocks, the fixed decoding table of
 * block values, the length-prefixed records of identification replies
 * and the module list, and the parsing of label files.
 *
 * The transport runs on another thread in the source; every call made
 * to it is queued, so here it is appended to the log `calls`. The
 * transport's channel address, which the session reads directly, is a
 * parameter of the operations that read it. The session's state is the
 * record `Session`; the functions on `Session` say what each operation
 * does to it, and the class `Client` carries out the same operations on
 * fields, step by step.
 */
module Kwp2000 {
  import opened Util

  // ---------------------------------------------------------------- records (kwp2000.h:37-68)

  /** One value of one block: the block number and the position 0..3 in it. */
  datatype BlockRef = BlockRef(blockNum: int, pos: int)

  /** The QVariant kinds a block value takes. */
  datatype Variant = Invalid | Double(d: real) | UInt(u: nat) | Str(s: string)

  /** A sample's list of block values; it is created with one entry and only grows. */
  type Refs = s: seq<BlockRef> | |s| > 0 witness [BlockRef(0, 0)]

  /** One column of the sample: the block values it stands for and its latest value. */
  datatype SampleValue = SampleValue(refs: Refs, val: Variant)

  datatype BlockValue = BlockValue(units: string, desc: string, val: Variant, indexToSampleValue: int)

  /** A value-initialised blockValue, as QVector<blockValue>(4) creates it. */
  const NewValue: BlockValue := BlockValue("", "", Invalid, 0)

  /** The four values of an open block. */
  type Slots = s: seq<BlockValue> | |s| == 4
    witness [BlockValue("", "", Invalid, 0), BlockValue("", "", Invalid, 0),
             BlockValue("", "", Invalid, 0), BlockValue("", "", Invalid, 0)]

  /** Four strings, one per position. */
  type Four = s: seq<string> | |s| == 4 witness ["", "", "", ""]

  datatype BlockLabels = BlockLabels(blockName: string, desc: Four, subDesc: Four, longDesc: Four, binDesc: Four)

  const NoLabels: BlockLabels := BlockLabels("", ["", "", "", ""], ["", "", "", ""], ["", "", "", ""], ["", "", "", ""])

  datatype ModuleInfo = ModuleInfo(number: int, addr: int, name: string, isPresent: bool, status: int)

  /** A call queued on the transport. */
  datatype TpCall = Send(packet: seq<byte>, timeout: int) | Open(dest: int, timeout: int) | Close

  // ---------------------------------------------------------------- decodeBlockData (kwp2000.cpp:875-992)

  datatype Decoded = Decoded(val: Variant, units: string)

  function Abs(x: int): nat {
    if x < 0 then -x else x
  }

  /** The 16-bit value a << 8 | b. */
  function Word(a: byte, b: byte): nat {
    a * 256 + b
  }

  /**
   * The value and the unit of one measurement, by its formula id. The
   * double formulas are taken over the reals: IEEE rounding is not part
   * of the model.
   */
  function DecodeBlockData(id: byte, a: byte, b: byte): (r: Decoded)
    ensures r.val.UInt? <==> r.units == "Binary" || r.units == "Raw"
    ensures r.val.UInt? ==> r.val.u == Word(a, b) && r.val.u < 0x1_0000
    ensures r.val.Str? <==> id == 0x11
    ensures r.val != Invalid
  {
    var ar, br := a as real, b as real;
    match id
    case 0x01 => Decoded(Double(ar * br / 5.0), "rpm")
    case 0x04 => Decoded(Double(Abs(b - 127) as real * 0.01 * ar), if b > 127 then "\U{B0} ATDC" else "\U{B0} BTDC")
    case 0x07 => Decoded(Double(0.01 * ar * br), "km/h")
    case 0x08 => Decoded(UInt(Word(a, b)), "Binary")
    case 0x10 => Decoded(UInt(Word(a, b)), "Binary")
    case 0x11 => Decoded(Str([a as char, b as char]), "ASCII")
    case 0x12 => Decoded(Double(ar * br / 25.0), "mbar")
    case 0x14 => Decoded(Double(ar * br / 128.0 - 1.0), "%")
    case 0x15 => Decoded(Double(ar * br / 1000.0), "V")
    case 0x16 => Decoded(Double(0.001 * ar * br), "ms")
    case 0x17 => Decoded(Double(br * ar / 256.0), "%")
    case 0x1A => Decoded(Double((b - a) as real), "\U{B0} C")
    case 0x21 => Decoded(Double(if a == 0 then 100.0 * br else 100.0 * br / ar), "%")
    case 0x22 => Decoded(Double((b - 128) as real * 0.01 * ar), "kW")
    case 0x23 => Decoded(Double(ar * br / 100.0), "l/h")
    case 0x25 => Decoded(UInt(Word(a, b)), "Binary")
    case 0x27 => Decoded(Double(ar * br / 256.0), "mg/stk")
    case 0x31 => Decoded(Double(ar * br / 40.0), "mg/stk")
    case 0x33 => Decoded(Double(((b - 128) as real / 255.0) * ar), "mg/stk \U{394}")
    case 0x36 => Decoded(Double((a * 256 + b) as real), "Count")
    case 0x37 => Decoded(Double(ar * br / 200.0), "s")
    case 0x51 => Decoded(Double((ar * 112000.0 + br * 436.0) / 1000.0), "\U{B0} CF")
    case 0x5E => Decoded(Double(ar * (br / 50.0 - 1.0)), "Nm")
    case _ => Decoded(UInt(Word(a, b)), "Raw")
  }

  // ---------------------------------------------------------------- the open blocks in key order

  predicate IsMin(s: set<int>, m: int) {
    m in s && forall x :: x in s ==> m <= x
  }

  /** Some element of a non-empty set of integers is below all the others. */
  lemma {:induction false} MinExists(s: set<int>)
    requires s != {}
    ensures exists m :: IsMin(s, m)
    decreases |s|
  {
    if forall y :: y !in s {
      assert false;
    }
    var y :| y in s;
    var rest := s - {y};
    if rest == {} {
      forall x | x in s
        ensures y <= x
      {
        assert x in rest || x == y;
      }
      assert IsMin(s, y);
    } else {
      MinExists(rest);
      var m :| IsMin(rest, m);
      var least := if y < m then y else m;
      forall x | x in s
        ensures least <= x
      {
        if x != y {
          assert x in rest;
        }
      }
      assert IsMin(s, least);
    }
  }

  function Min(s: set<int>): (m: int)
    requires s != {}
    ensures IsMin(s, m)
  {
    MinExists(s);
    var m :| IsMin(s, m); m
  }

  /** QMap::keys(): the keys in ascending order. */
  function Ascending(s: set<int>): seq<int>
    decreases |s|
  {
    if s == {} then [] else [Min(s)] + Ascending(s - {Min(s)})
  }

  /** Ascending lists each key. */
  lemma {:induction false} AscendingKeys(s: set<int>)
    ensures |Ascending(s)| == |s|
    ensures forall x :: x in Ascending(s) <==> x in s
    decreases |s|
  {
    if s != {} {
      AscendingKeys(s - {Min(s)});
    }
  }

  /** Ascending lists the keys in increasing order, so each of them once. */
  lemma {:induction false} AscendingSorted(s: set<int>)
    ensures forall i, j :: 0 <= i < j < |Ascending(s)| ==> Ascending(s)[i] < Ascending(s)[j]
    decreases |s|
  {
    if s != {} {
      var m := Min(s);
      var r := Ascending(s);
      AscendingKeys(s - {m});
      AscendingSorted(s - {m});
      assert r == [m] + Ascending(s - {m});
      forall i, j | 0 <= i < j < |r|
        ensures r[i] < r[j]
      {
        if i == 0 {
          assert r[j] in s - {m};
        } else {
          assert r[i] == Ascending(s - {m})[i - 1];
        }
      }
    }
  }

  // ---------------------------------------------------------------- changeSampleFormat (kwp2000.cpp:264-302)

  function LowerChar(c: char): char {
    if 'A' <= c <= 'Z' then (c as int + 32) as char else c
  }

  /** QString::toLower, for the ASCII letters. */
  function Lower(s: string): (r: string)
    ensures |r| == |s|
  {
    seq(|s|, i requires 0 <= i < |s| => LowerChar(s[i]))
  }

  /** The first description of the block, lower-cased, is "engine speed". */
  predicate EngineSpeed(labels: map<int, BlockLabels>, b: int) {
    b in labels && Lower(labels[b].desc[0]) == "engine speed"
  }

  /** The two label maps agree on which blocks measure engine speed. */
  ghost predicate SameSpeeds(a: map<int, BlockLabels>, b: map<int, BlockLabels>) {
    forall k :: EngineSpeed(a, k) == EngineSpeed(b, k)
  }

  /** A sample that engine-speed values of other blocks join: its first value is one. */
  predicate SharedHead(labels: map<int, BlockLabels>, v: SampleValue) {
    v.refs[0].pos == 0 && EngineSpeed(labels, v.refs[0].blockNum)
  }

  /** The sample list and the open blocks while the list is rebuilt. */
  datatype Layout = Layout(sample: seq<SampleValue>, blocks: map<int, Slots>)

  /** currentBlocks[blockNum][pos].indexToSampleValue = n. */
  function SetIndex(blocks: map<int, Slots>, r: BlockRef, n: int): map<int, Slots> {
    if r.blockNum in blocks && 0 <= r.pos < 4 then
      blocks[r.blockNum := blocks[r.blockNum][r.pos := blocks[r.blockNum][r.pos].(indexToSampleValue := n)]]
    else blocks
  }

  /**
   * The search of lines 279-288 from sample k on: every sample whose first
   * value is an engine speed takes r and r's index; `found` says whether
   * one did.
   */
  function Scan(l: Layout, labels: map<int, BlockLabels>, r: BlockRef, k: nat, found: bool): (Layout, bool)
    decreases |l.sample| - k
  {
    if k >= |l.sample| then (l, found)
    else if SharedHead(labels, l.sample[k]) then
      var v := l.sample[k];
      Scan(Layout(l.sample[k := v.(refs := v.refs + [r])], SetIndex(l.blocks, r, k)), labels, r, k + 1, true)
    else
      Scan(l, labels, r, k + 1, found)
  }

  /** One value placed: joined to the engine-speed sample, or given a sample of its own. */
  function Place(l: Layout, labels: map<int, BlockLabels>, r: BlockRef): Layout {
    var (l1, found) := if r.pos == 0 && EngineSpeed(labels, r.blockNum) then Scan(l, labels, r, 0, false) else (l, false);
    if found then l1
    else Layout(l1.sample + [SampleValue([r], Invalid)], SetIndex(l1.blocks, r, |l1.sample|))
  }

  /** Positions pos..3 of block b placed. */
  function PlaceBlock(l: Layout, labels: map<int, BlockLabels>, b: int, pos: nat): Layout
    requires pos <= 4
    decreases 4 - pos
  {
    if pos == 4 then l else PlaceBlock(Place(l, labels, BlockRef(b, pos)), labels, b, pos + 1)
  }

  /** The blocks of `keys` placed in order. */
  function PlaceBlocks(l: Layout, labels: map<int, BlockLabels>, keys: seq<int>): Layout
    decreases |keys|
  {
    if keys == [] then l else PlaceBlocks(PlaceBlock(l, labels, keys[0], 0), labels, keys[1..])
  }

  /** blockLabels[b] creates an empty entry for every key it is asked for. */
  function WithDefaults(labels: map<int, BlockLabels>, keys: set<int>): map<int, BlockLabels> {
    map b | b in labels.Keys + keys :: if b in labels then labels[b] else NoLabels
  }

  // ---------------------------------------------------------------- interpretRawData (kwp2000.cpp:802-821)

  /** k bytes 0: what reads past the end of a QByteArray give here. */
  function ZeroBytes(k: nat): (z: seq<byte>)
    ensures |z| == k && forall j :: 0 <= j < k ==> z[j] == 0
  {
    if k == 0 then [] else ZeroBytes(k - 1) + [0]
  }

  /** The record that starts at raw[i]: the raw[i] - 1 bytes after its length byte. */
  function Record(raw: seq<byte>, i: nat): seq<byte>
    requires i < |raw|
  {
    var end := if raw[i] == 0 then i + 1 else i + raw[i];
    if end <= |raw| then raw[i + 1..end] else raw[i + 1..] + ZeroBytes(end - |raw|)
  }

  /** A record holds the raw[i] - 1 bytes after its length byte, zeros past the end. */
  lemma RecordBytes(raw: seq<byte>, i: nat)
    requires i < |raw|
    ensures |Record(raw, i)| == if raw[i] == 0 then 0 else raw[i] - 1
    ensures forall j :: 0 <= j < |Record(raw, i)| ==> Record(raw, i)[j] == ByteAt(raw, i + 1 + j)
  {
  }

  /**
   * The records from raw[i] on, up to a length byte 0xFF or the end;
   * None when a length byte 0 is reached, where the source loops forever.
   */
  function Records(raw: seq<byte>, i: nat): Option<seq<seq<byte>>>
    decreases |raw| - i
  {
    if i >= |raw| || raw[i] == 0xFF then Some([])
    else if raw[i] == 0 then None
    else match Records(raw, i + raw[i])
      case None => None
      case Some(rest) => Some([Record(raw, i)] + rest)
  }

  /** Records already taken in front of the rest. */
  function Glue<T>(done: seq<T>, rest: Option<seq<T>>): Option<seq<T>> {
    match rest
    case None => None
    case Some(r) => Some(done + r)
  }

  // ---------------------------------------------------------------- identification strings (kwp2000.cpp:625-684)

  /** Bytes read as Latin-1 characters. */
  function Chars(data: seq<byte>): (s: string)
    ensures |s| == |data|
  {
    seq(|data|, i requires 0 <= i < |data| => data[i] as char)
  }

  /** The string with its trailing spaces chopped. */
  function TrimSpaces(s: string): string
  {
    if |s| > 0 && s[|s| - 1] == ' ' then TrimSpaces(s[..|s| - 1]) else s
  }

  /** Trimming keeps a prefix that does not end in a space and drops only spaces. */
  lemma {:induction false} TrimSpacesDrops(s: string)
    ensures TrimSpaces(s) <= s
    ensures TrimSpaces(s) == [] || TrimSpaces(s)[|TrimSpaces(s)| - 1] != ' '
    ensures forall i :: |TrimSpaces(s)| <= i < |s| ==> s[i] == ' '
  {
    if |s| > 0 && s[|s| - 1] == ' ' {
      TrimSpacesDrops(s[..|s| - 1]);
    }
  }

  /** shortIdHandler: one trimmed string per record; None where it loops forever. */
  function ShortIds(data: seq<byte>, i: nat): Option<seq<string>>
    decreases |data| - i
  {
    if i >= |data| || data[i] == 0xFF then Some([])
    else if data[i] == 0 then None
    else match ShortIds(data, i + data[i])
      case None => None
      case Some(rest) => Some([TrimSpaces(Chars(Record(data, i)))] + rest)
  }

  /** longIdHandler: the first 16 bytes, and the trimmed bytes from 26 on. */
  function LongIds(data: seq<byte>): (ids: seq<string>)
    ensures |ids| == 2 && |ids[0]| == 16
  {
    [seq(16, i requires 0 <= i => ByteAt(data, i) as char),
     TrimSpaces(if |data| > 26 then Chars(data[26..]) else "")]
  }

  // ---------------------------------------------------------------- queryModulesHandler (kwp2000.cpp:686-729)

  /** The number of entries initModuleNames (kwp2000.cpp:823-873) puts in moduleNames. */
  const ModuleCount := 48

  /** Entry i of the table initModuleNames fills (kwp2000.cpp:823-873): a module number and its name. */
  function ModuleName(i: nat): (int, string) {
    match i
    case 0 => (0x01, "Engine #1")
    case 1 => (0x02, "Transmission")
    case 2 => (0x03, "ABS")
    case 3 => (0x05, "Security Access")
    case 4 => (0x06, "Passenger Seat")
    case 5 => (0x07, "Front Info/Control")
    case 6 => (0x08, "AC & Heating")
    case 7 => (0x09, "Central Electronics #1")
    case 8 => (0x10, "Parking Aid #2")
    case 9 => (0x11, "Engine #2")
    case 10 => (0x13, "Distance Regulation")
    case 11 => (0x14, "Suspension")
    case 12 => (0x15, "Airbags")
    case 13 => (0x16, "Steering")
    case 14 => (0x17, "Instrument Cluster")
    case 15 => (0x18, "Aux Heater")
    case 16 => (0x19, "CAN Gateway")
    case 17 => (0x20, "High Beam Assist")
    case 18 => (0x22, "All Wheel Drive")
    case 19 => (0x25, "Immobiliser")
    case 20 => (0x26, "Convertible Top")
    case 21 => (0x29, "Left Headlight")
    case 22 => (0x31, "Diagnostic Interface")
    case 23 => (0x34, "Level Control")
    case 24 => (0x35, "Central Locking")
    case 25 => (0x36, "Driver Seat")
    case 26 => (0x37, "Radio/Sat Nav")
    case 27 => (0x39, "Right Headlight")
    case 28 => (0x42, "Driver Door")
    case 29 => (0x44, "Steering Assist")
    case 30 => (0x45, "Interior Monitoring")
    case 31 => (0x46, "Comfort System")
    case 32 => (0x47, "Sound System")
    case 33 => (0x52, "Passenger Door")
    case 34 => (0x53, "Parking Brake")
    case 35 => (0x55, "Headlights")
    case 36 => (0x56, "Radio")
    case 37 => (0x57, "TV Tuner")
    case 38 => (0x61, "Battery")
    case 39 => (0x62, "Rear Left Door")
    case 40 => (0x65, "Tire Pressure")
    case 41 => (0x67, "Voice Control")
    case 42 => (0x68, "Wipers")
    case 43 => (0x69, "Trailer Recognition")
    case 44 => (0x72, "Rear Right Door")
    case 45 => (0x75, "Telematics")
    case 46 => (0x76, "Parking Aid")
    case 47 => (0x77, "Telephone")
    case _ => (-1, "Unknown Module")
  }

  /** moduleNames.value(number, "Unknown Module"): the table searched from entry i on. */
  function NameFrom(i: nat, number: int): string
    decreases ModuleCount - i
  {
    if i >= ModuleCount then "Unknown Module"
    else if ModuleName(i).0 == number then ModuleName(i).1
    else NameFrom(i + 1, number)
  }

  function NameOf(number: int): string {
    NameFrom(0, number)
  }

  /** The module described by the four bytes at rec[i]. */
  function Entry(rec: seq<byte>, i: nat): (m: ModuleInfo)
    requires i + 4 <= |rec|
  {
    ModuleInfo(rec[i], rec[i + 1], NameOf(rec[i]), rec[i + 3] % 2 == 1, rec[i + 3] % 32 / 2)
  }

  /** The entry is listed: its status byte is not 0 and its address is not 0x13. */
  predicate Listed(rec: seq<byte>, i: nat)
    requires i + 4 <= |rec|
  {
    rec[i + 3] != 0 && rec[i + 1] != 0x13
  }

  /**
   * The module table from the entry at rec[i] on, and whether the list
   * ended on a 4-byte boundary; a later entry for the same module number
   * replaces an earlier one.
   */
  function ModuleTable(rec: seq<byte>, i: nat, table: map<int, ModuleInfo>): (map<int, ModuleInfo>, bool)
    decreases |rec| - i
  {
    if i >= |rec| then (table, true)
    else if i + 4 > |rec| then (table, false)
    else if Listed(rec, i) then ModuleTable(rec, i + 4, table[rec[i] := Entry(rec, i)])
    else ModuleTable(rec, i + 4, table)
  }

  // ---------------------------------------------------------------- label files (kwp2000.cpp:337-478)

  /** The text before the first space, or all of it. */
  function FirstToken(s: string): (t: string)
    ensures t <= s && ' ' !in t
    ensures |t| < |s| ==> s[|t|] == ' '
  {
    if s == [] || s[0] == ' ' then [] else [s[0]] + FirstToken(s[1..])
  }

  /** QString::mid(i, 3) for i = 0, 3, 6, ... */
  function Chunks(t: string): seq<string>
    decreases |t|
  {
    if t == [] then [] else if |t| <= 3 then [t] else [t[..3]] + Chunks(t[3..])
  }

  /** The part number a label file is named after: the token in groups of three joined by '-'. */
  function PartNumber(modulePart: string): string {
    Join(Chunks(FirstToken(modulePart)), "-")
  }

  /** QString::split(c), keeping empty parts. */
  function Split(s: string, c: char): (parts: seq<string>)
    ensures |parts| >= 1
  {
    if s == [] then [""]
    else if s[0] == c then [""] + Split(s[1..], c)
    else var rest := Split(s[1..], c); [[s[0]] + rest[0]] + rest[1..]
  }

  /** QString::replace("\\n", "\n"): each backslash-n pair, left to right, becomes a newline. */
  function Unescape(s: string): string {
    if |s| >= 2 && s[0] == '\\' && s[1] == 'n' then "\n" + Unescape(s[2..])
    else if s == [] then []
    else [s[0]] + Unescape(s[1..])
  }

  predicate IsSpace(c: char) {
    c == ' ' || c == '\t' || c == '\n' || c == '\r' || c == '\U{B}' || c == '\U{C}'
  }

  function TrimLeft(s: string): string {
    if s != [] && IsSpace(s[0]) then TrimLeft(s[1..]) else s
  }

  function TrimRight(s: string): string {
    if s != [] && IsSpace(s[|s| - 1]) then TrimRight(s[..|s| - 1]) else s
  }

  /** A decimal number with an optional sign. */
  function Decimal(t: string): Option<int> {
    var neg := t != [] && t[0] == '-';
    var digits := if t != [] && (t[0] == '-' || t[0] == '+') then t[1..] else t;
    if digits == [] || !AllDigitsIn(digits, 10) then None
    else var v: int := ValueOf(digits, 10); Some(if neg then -v else v)
  }

  /**
   * QString::toInt(&ok): surrounding white space is skipped; None where ok
   * would be false, which includes a value outside the int range.
   */
  function ToInt(s: string): (r: Option<int>)
    ensures r.Some? ==> -0x8000_0000 <= r.value <= INT_MAX
  {
    match Decimal(TrimRight(TrimLeft(s)))
    case Some(v) => if -0x8000_0000 <= v <= INT_MAX then Some(v) else None
    case None => None
  }

  /** toInt's result: 0 when the conversion fails. */
  function IntOr0(r: Option<int>): int {
    if r.Some? then r.value else 0
  }

  /** The loop state of loadLabelFile: the block and position of the last description line. */
  datatype LabelCursor = LabelCursor(blockNum: int, pos: int, labels: map<int, BlockLabels>)

  /** A description line "block,pos,desc[,subDesc[,longDesc]]" (lines 417-451). */
  function DescriptionLine(c: LabelCursor, line: string): LabelCursor {
    var parts := Split(line, ',');
    if |parts| < 3 then c
    else
      var b := ToInt(parts[0]);
      var bn := IntOr0(b);
      if b.None? || bn < 0 || bn > 255 then c.(blockNum := bn)
      else
        var p := ToInt(parts[1]);
        var pn := IntOr0(p);
        if p.None? || pn < 0 || pn > 4 then c.(blockNum := bn, pos := pn)
        else
          var l := if bn in c.labels then c.labels[bn] else NoLabels;
          var u := if pn == 0 then l.(blockName := parts[2])
                   else l.(desc := l.desc[pn - 1 := parts[2]],
                           subDesc := if |parts| > 3 then l.subDesc[pn - 1 := parts[3]] else l.subDesc,
                           longDesc := if |parts| > 4 then l.longDesc[pn - 1 := Unescape(parts[4])] else l.longDesc);
          LabelCursor(bn, pn, c.labels[bn := u])
  }

  /**
   * A binary description line ";...=..." (lines 455-463), appended to
   * binDesc[pos - 1] of the last block; for pos 0 that is binDesc[-1],
   * which is the storage of longDesc[3] in blockLabels_t's layout.
   */
  function BinaryLine(c: LabelCursor, line: string): LabelCursor
    requires |line| >= 2
  {
    if c.blockNum < 0 || c.blockNum > 255 || c.pos < 0 || c.pos > 4 || c.blockNum !in c.labels then c
    else
      var l := c.labels[c.blockNum];
      var extra := line[2..] + "\n";
      var u := if c.pos == 0 then l.(longDesc := l.longDesc[3 := l.longDesc[3] + extra])
               else l.(binDesc := l.binDesc[c.pos - 1 := l.binDesc[c.pos - 1] + extra]);
      c.(labels := c.labels[c.blockNum := u])
  }

  function LabelLine(c: LabelCursor, line: string): LabelCursor {
    if line == [] then c
    else if '0' <= line[0] <= '9' then DescriptionLine(c, line)
    else if line[0] == ';' && '=' in line then BinaryLine(c, line)
    else c
  }

  /** The lines of a label file read in order. */
  function LabelLines(c: LabelCursor, lines: seq<string>): LabelCursor
    decreases |lines|
  {
    if lines == [] then c else LabelLines(LabelLine(c, lines[0]), lines[1..])
  }

  // ---------------------------------------------------------------- the session

  /** The fields of kwp2000 the core reads and writes. */
  datatype Session = Session(
    currentBlocks: map<int, Slots>,
    sample: seq<SampleValue>,
    blockLabels: map<int, BlockLabels>,
    nextBlock: nat,
    readingBlocks: bool,
    modulePartNum: seq<string>,
    ecuPartNum: seq<string>,
    moduleList: map<int, ModuleInfo>,
    doModuleRefresh: bool,
    destModule: int,
    slowRecvTimeout: int,
    normRecvTimeout: int,
    fastRecvTimeout: int,
    /** The lines of the label file found for each part number. */
    labelFiles: map<string, seq<string>>,
    /** The calls queued on the transport so far. */
    calls: seq<TpCall>,
    /** A handler is looping forever on a length byte 0. */
    hung: bool)

  /** The state kwp2000::kwp2000 (kwp2000.cpp:29-70) leaves. */
  function Initial(labelFiles: map<string, seq<string>>): Session {
    Session(map[], [], map[], 0, false, [], [], map[], true, -1, 40, 24, 16, labelFiles, [], false)
  }

  function Call(s: Session, c: TpCall): Session {
    s.(calls := s.calls + [c])
  }

  /** Every open block's values name a sample. */
  predicate IndexesIn(s: Session, b: int) {
    b in s.currentBlocks &&
    forall p :: 0 <= p < 4 ==> 0 <= s.currentBlocks[b][p].indexToSampleValue < |s.sample|
  }

  predicate Indexed(s: Session) {
    forall b :: b in s.currentBlocks ==> IndexesIn(s, b)
  }

  /**
   * What changeSampleFormat leaves behind: every value of an open block
   * names a sample that lists it, and the values a sample lists share
   * their position.
   */
  predicate Consistent(s: Session) {
    (forall b, p :: b in s.currentBlocks && 0 <= p < 4 ==>
       var n := s.currentBlocks[b][p].indexToSampleValue;
       0 <= n < |s.sample| && BlockRef(b, p) in s.sample[n].refs) &&
    (forall n, r :: 0 <= n < |s.sample| && r in s.sample[n].refs ==> r.pos == s.sample[n].refs[0].pos)
  }

  /** readBlocks (kwp2000.cpp:490-511): the next open block is asked for, round robin. */
  function ReadNext(s: Session): Session {
    var keys := Ascending(s.currentBlocks.Keys);
    if keys == [] then s.(nextBlock := 0, readingBlocks := false)
    else
      var k := if s.nextBlock >= |keys| then 0 else s.nextBlock;
      Call(s.(nextBlock := k + 1), Send([0x21, keys[k] % 256], s.fastRecvTimeout))
  }

  /** changeSampleFormat (kwp2000.cpp:264-302). */
  function Reformat(s: Session): Session {
    var l := PlaceBlocks(Layout([], s.currentBlocks), s.blockLabels, Ascending(s.currentBlocks.Keys));
    s.(sample := l.sample, currentBlocks := l.blocks,
       blockLabels := WithDefaults(s.blockLabels, s.currentBlocks.Keys))
  }

  const FreshSlots: Slots := [NewValue, NewValue, NewValue, NewValue]

  /** openBlock (kwp2000.cpp:189-205). */
  function WithBlock(s: Session, b: int): Session {
    StartReading(Reformat(if b in s.currentBlocks then s else s.(currentBlocks := s.currentBlocks[b := FreshSlots])))
  }

  /** The tail of openBlock: polling is started unless it is running. */
  function StartReading(s: Session): Session {
    if s.readingBlocks then s else ReadNext(s.(readingBlocks := true))
  }

  /** closeBlock (kwp2000.cpp:207-212): the key removed is the block number cast to quint8. */
  function WithoutBlock(s: Session, b: int): Session {
    Reformat(s.(currentBlocks := s.currentBlocks - {b % 256}))
  }

  /** closeAllBlocks (kwp2000.cpp:214-224). */
  function WithoutBlocks(s: Session): Session {
    Reformat(s.(currentBlocks := map[]))
  }

  /** updateSample (kwp2000.cpp:741-747) from position i on: each value is copied to its sample. */
  function Refresh(sample: seq<SampleValue>, slots: Slots, i: nat): (r: seq<SampleValue>)
    requires i <= 4
    requires forall p :: 0 <= p < 4 ==> 0 <= slots[p].indexToSampleValue < |sample|
    ensures |r| == |sample|
    decreases 4 - i
  {
    if i == 4 then sample
    else
      var n := slots[i].indexToSampleValue;
      Refresh(sample[n := sample[n].(val := slots[i].val)], slots, i + 1)
  }

  function Refreshed(s: Session, b: int): Session
    requires IndexesIn(s, b)
  {
    s.(sample := Refresh(s.sample, s.currentBlocks[b], 0))
  }

  /** The four values of a block decoded from bytes 3i, 3i+1 and 3i+2 of its reply. */
  function Decode4(slots: Slots, data: seq<byte>): (r: Slots)
    ensures forall p :: 0 <= p < 4 ==> r[p].indexToSampleValue == slots[p].indexToSampleValue
  {
    seq(4, i requires 0 <= i < 4 => DecodedSlot(slots[i], data, i))
  }

  /** Slot `i` of a block with the value decoded from bytes 3i, 3i+1 and 3i+2 of the reply. */
  function DecodedSlot(slot: BlockValue, data: seq<byte>, i: nat): (r: BlockValue)
    ensures r.indexToSampleValue == slot.indexToSampleValue
  {
    var d := DecodeBlockData(ByteAt(data, 3 * i), ByteAt(data, 3 * i + 1), ByteAt(data, 3 * i + 2));
    slot.(units := d.units, val := d.val)
  }

  /** blockDataHandler (kwp2000.cpp:574-603), for the block number `param`. */
  function Stored(s: Session, param: byte, data: seq<byte>): Session
    requires param in s.currentBlocks ==> IndexesIn(s, param)
  {
    if param !in s.currentBlocks then ReadNext(s)
    else ReadNext(Refreshed(s.(currentBlocks := s.currentBlocks[param := Decode4(s.currentBlocks[param], data)]), param))
  }

  /** loadLabelFile (kwp2000.cpp:337-478), given the label file of each part number. */
  function Labelled(s: Session): Session {
    if s.modulePartNum == [] then s
    else
      var part := PartNumber(s.modulePartNum[0]);
      if part !in s.labelFiles then s
      else s.(blockLabels := LabelLines(LabelCursor(-1, -1, s.blockLabels), s.labelFiles[part]).labels)
  }

  /** longIdHandler (kwp2000.cpp:652-684). */
  function LongIdRead(s: Session, data: seq<byte>): Session {
    Call(Labelled(s.(modulePartNum := LongIds(data))), Send([0x1A, 0x91], s.slowRecvTimeout))
  }

  /** shortIdHandler (kwp2000.cpp:625-650). */
  function ShortIdRead(s: Session, data: seq<byte>): Session {
    match ShortIds(data, 0)
    case None => s.(hung := true)
    case Some(ids) => s.(ecuPartNum := ids)
  }

  /** queryModulesHandler (kwp2000.cpp:686-729). */
  function ModulesListed(s: Session, data: seq<byte>): Session {
    match Records(data, 0)
    case None => s.(hung := true)
    case Some(list) => Call(TableRead(s, list), Close)
  }

  /**
   * The module table taken from the first of exactly two records; a list
   * that ends on a 4-byte boundary clears doModuleRefresh. Nothing else
   * changes.
   */
  function TableRead(s: Session, list: seq<seq<byte>>): (r: Session)
    ensures r == s.(moduleList := r.moduleList, doModuleRefresh := r.doModuleRefresh)
  {
    if |list| != 2 then s
    else
      var (table, aligned) := ModuleTable(list[0], 0, map[]);
      s.(moduleList := table, doModuleRefresh := if aligned then false else s.doModuleRefresh)
  }

  /** recvKWP (kwp2000.cpp:513-567); None stands for a missing (null) reply. */
  function Dispatch(s: Session, data: Option<seq<byte>>): Session
    requires Indexed(s)
  {
    if data.None? || |data.value| < 2 then Call(s, Close)
    else
      var code, param, rest := data.value[0], data.value[1], data.value[2..];
      if code == 0x7F then s
      else if code == 0x50 then Call(s, Send([0x1A, 0x9B], s.slowRecvTimeout))
      else if code == 0x5A && param == 0x91 then ShortIdRead(s, rest)
      else if code == 0x5A && param == 0x9B then LongIdRead(s, rest)
      else if code == 0x5A && param == 0x9F then ModulesListed(s, rest)
      else if code == 0x61 then Stored(s, param, rest)
      else s
  }

  /** startDiag (kwp2000.cpp:179-187): the parameter is appended as one byte. */
  function DiagStart(s: Session, param: int): Session {
    Call(s, Send([0x10, param % 256], s.slowRecvTimeout))
  }

  /** channelOpenSlot (kwp2000.cpp:226-255); dest is the transport's channel address. */
  function ChannelStatus(s: Session, status: bool, dest: int): Session {
    if !status then WithoutBlocks(s.(destModule := -1, modulePartNum := []))
    else if dest == 31 && s.doModuleRefresh then Call(s, Send([0x1A, 0x9F], s.slowRecvTimeout))
    else DiagStart(s, 0x89)
  }

  /** openChannel (kwp2000.cpp:114-139); dest is the transport's channel address. */
  function Connect(s: Session, i: int, dest: int): Session {
    if dest >= 0 || i == 0 then s
    else
      var addr := if i in s.moduleList then s.moduleList[i].addr else i;
      Call(s.(blockLabels := map[], destModule := i), Open(addr, s.normRecvTimeout))
  }

  /** openGW_refresh (kwp2000.cpp:480-488): the gateway is module 31. */
  function GatewayRefresh(s: Session, ok: bool): Session {
    if ok then Call(s.(doModuleRefresh := true), Open(31, s.normRecvTimeout)) else s
  }

  // ---------------------------------------------------------------- loops of the pure parts

  /** interpretRawData (kwp2000.cpp:802-821); None where the source loops forever on a length byte 0. */
  method InterpretRawData(raw: seq<byte>) returns (r: Option<seq<seq<byte>>>)
    ensures r == Records(raw, 0)
  {
    var retList: seq<seq<byte>> := [];
    var i := 0;
    GlueEnds(retList, Records(raw, 0));
    while i < |raw|
      invariant Glue(retList, Records(raw, i)) == Records(raw, 0)
      decreases |raw| - i
    {
      if raw[i] == 0xFF {
        break;
      }
      if raw[i] == 0 {
        return None;
      }
      var len := raw[i];
      var tmp := ReadRecord(raw, i);
      RecordsStep(raw, i, retList);
      i := i + len;
      retList := retList + [tmp];
    }
    GlueEnds(retList, Some([]));
    r := Some(retList);
  }

  /** The loop of blockDataHandler (kwp2000.cpp:582-589): value i decoded from bytes 3i .. 3i+2. */
  method DecodeSlots(slots: Slots, data: seq<byte>) returns (r: Slots)
    ensures r == Decode4(slots, data)
  {
    ghost var decoded := Decode4(slots, data);
    r := slots;
    var i := 0;
    while i < 4
      invariant 0 <= i <= 4 && |r| == 4
      invariant forall p :: 0 <= p < i ==> r[p] == decoded[p]
      invariant forall p :: i <= p < 4 ==> r[p] == slots[p]
    {
      r := r[i := DecodedSlot(r[i], data, i)];
      i := i + 1;
    }
  }

  /** The loop of shortIdHandler (kwp2000.cpp:629-646); None where it loops forever on a length byte 0. */
  method ShortIdList(data: seq<byte>) returns (r: Option<seq<string>>)
    ensures r == ShortIds(data, 0)
  {
    var tmpList: seq<string> := [];
    var i: nat := 0;
    GlueEnds(tmpList, ShortIds(data, 0));
    while i < |data|
      invariant Glue(tmpList, ShortIds(data, i)) == ShortIds(data, 0)
      decreases |data| - i
    {
      if data[i] == 0xFF {
        assert ShortIds(data, i) == Some([]);
        break;
      }
      if data[i] == 0 {
        assert ShortIds(data, i) == None;
        return None;
      }
      var len := data[i];
      var bytes := ReadRecord(data, i);
      var tmp := ChopSpaces(Chars(bytes));
      assert tmp == TrimSpaces(Chars(Record(data, i)));
      ShortIdsStep(data, i, tmpList, tmp);
      assert Glue(tmpList + [tmp], ShortIds(data, i + len)) == ShortIds(data, 0);
      i := i + len;
      tmpList := tmpList + [tmp];
    }
    GlueEnds(tmpList, Some([]));
    r := Some(tmpList);
  }

  /** The two loops of longIdHandler (kwp2000.cpp:656-672). */
  method LongIdList(data: seq<byte>) returns (ids: seq<string>)
    ensures ids == LongIds(data)
  {
    var tmp: string := [];
    var i := 0;
    while i < 16
      invariant 0 <= i <= 16 && |tmp| == i
      invariant forall k :: 0 <= k < i ==> tmp[k] == ByteAt(data, k) as char
    {
      tmp := tmp + [ByteAt(data, i) as char];
      i := i + 1;
    }
    var first := tmp;
    assert first == LongIds(data)[0];
    tmp := [];
    i := 26;
    while i < |data|
      invariant 26 <= i
      invariant |data| > 26 ==> i <= |data| && tmp == Chars(data[26..i])
      invariant |data| <= 26 ==> tmp == []
    {
      tmp := tmp + [data[i] as char];
      i := i + 1;
    }
    assert tmp == (if |data| > 26 then Chars(data[26..]) else "");
    tmp := ChopSpaces(tmp);
    ids := [first, tmp];
  }

  /** The inner loop of interpretRawData and shortIdHandler: bytes i+1 .. i+raw[i]-1 copied. */
  method ReadRecord(raw: seq<byte>, i: nat) returns (tmp: seq<byte>)
    requires i < |raw| && raw[i] != 0
    ensures tmp == Record(raw, i)
  {
    tmp := [];
    var len := raw[i];
    var j := 1;
    while j < len
      invariant 1 <= j <= len && |tmp| == j - 1
      invariant forall k :: 0 <= k < j - 1 ==> tmp[k] == ByteAt(raw, i + 1 + k)
    {
      tmp := tmp + [ByteAt(raw, i + j)];
      j := j + 1;
    }
    ghost var rec := Record(raw, i);
    RecordBytes(raw, i);
    assert |tmp| == |rec|;
    assert forall k :: 0 <= k < |tmp| ==> tmp[k] == rec[k];
  }

  /** while (tmp.right(1) == QChar(' ')) tmp.chop(1); */
  method ChopSpaces(s: string) returns (t: string)
    ensures t == TrimSpaces(s)
  {
    t := s;
    while |t| > 0 && t[|t| - 1] == ' '
      invariant TrimSpaces(t) == TrimSpaces(s)
    {
      t := t[..|t| - 1];
    }
  }

  /** The loop of loadLabelFile that cuts the part number into groups of three (kwp2000.cpp:353-356). */
  method SplitPartNumber(partNum: string) returns (partSplit: seq<string>)
    ensures partSplit == Chunks(partNum)
  {
    partSplit := [];
    var i := 0;
    ghost var rest := partNum;
    while i < |partNum|
      invariant 0 <= i <= |partNum| + 2
      invariant rest == if i <= |partNum| then partNum[i..] else []
      invariant partSplit + Chunks(rest) == Chunks(partNum)
      decreases |partNum| - i
    {
      var end := if i + 3 <= |partNum| then i + 3 else |partNum|;
      assert rest[..end - i] == partNum[i..end];
      if |rest| <= 3 {
        assert rest[..end - i] == rest && rest[end - i..] == [];
      }
      assert Chunks(rest) == [partNum[i..end]] + Chunks(rest[end - i..]);
      partSplit := partSplit + [partNum[i..end]];
      rest := rest[end - i..];
      i := i + 3;
    }
  }

  /**
   * The loop of queryModulesHandler (kwp2000.cpp:699-723) over the 4-byte
   * entries; `aligned` is false where it gives up on a short last entry.
   */
  method ReadModuleTable(rec: seq<byte>) returns (table: map<int, ModuleInfo>, aligned: bool)
    ensures (table, aligned) == ModuleTable(rec, 0, map[])
  {
    table := map[];
    var i := 0;
    while i < |rec|
      invariant 0 <= i <= |rec|
      invariant ModuleTable(rec, i, table) == ModuleTable(rec, 0, map[])
      decreases |rec| - i
    {
      if i + 4 > |rec| {
        return table, false;
      }
      var lsb := rec[i + 3];
      if lsb != 0 {
        var tmp := ModuleInfo(rec[i], rec[i + 1], NameOf(rec[i]), lsb % 2 == 1, lsb % 32 / 2);
        if tmp.addr != 0x13 {
          table := table[tmp.number := tmp];
        }
      }
      i := i + 4;
    }
    aligned := true;
  }

  // ---------------------------------------------------------------- the loops of changeSampleFormat

  /**
   * The search of changeSampleFormat (kwp2000.cpp:279-288). `cur` is the
   * label map being filled in, which agrees with `labels` on engine speed.
   */
  method ScanShared(l: Layout, cur: map<int, BlockLabels>, ghost labels: map<int, BlockLabels>, r: BlockRef)
    returns (res: Layout, matchFound: bool)
    requires SameSpeeds(cur, labels)
    ensures (res, matchFound) == Scan(l, labels, r, 0, false)
  {
    res, matchFound := l, false;
    var sampleNum := 0;
    while sampleNum < |res.sample|
      invariant 0 <= sampleNum <= |res.sample|
      invariant Scan(res, labels, r, sampleNum, matchFound) == Scan(l, labels, r, 0, false)
    {
      var existing := res.sample[sampleNum].refs[0];
      if existing.pos == 0 && EngineSpeed(cur, existing.blockNum) {
        matchFound := true;
        var v := res.sample[sampleNum];
        res := Layout(res.sample[sampleNum := v.(refs := v.refs + [r])], SetIndex(res.blocks, r, sampleNum));
      }
      sampleNum := sampleNum + 1;
    }
  }

  /** The inner loop of changeSampleFormat (kwp2000.cpp:272-297): the four values of block b placed. */
  method PlaceBlockValues(l: Layout, cur: map<int, BlockLabels>, ghost labels: map<int, BlockLabels>, b: int)
    returns (res: Layout)
    requires SameSpeeds(cur, labels)
    ensures res == PlaceBlock(l, labels, b, 0)
  {
    res := l;
    var pos := 0;
    while pos < 4
      invariant 0 <= pos <= 4
      invariant PlaceBlock(res, labels, b, pos) == PlaceBlock(l, labels, b, 0)
    {
      var tmpRef := BlockRef(b, pos);
      var matchFound := false;
      if pos == 0 && EngineSpeed(cur, b) {
        res, matchFound := ScanShared(res, cur, labels, tmpRef);
      }
      if !matchFound {
        res := Layout(res.sample + [SampleValue([tmpRef], Invalid)], SetIndex(res.blocks, tmpRef, |res.sample|));
      }
      pos := pos + 1;
    }
  }

  /**
   * The outer loop of changeSampleFormat (kwp2000.cpp:268-298): the open
   * blocks in ascending order, each given a label entry when it has none
   * (the operator[] of the engine-speed test).
   */
  method RebuildSample(blocks: map<int, Slots>, labels: map<int, BlockLabels>)
    returns (l: Layout, cur: map<int, BlockLabels>)
    ensures l == PlaceBlocks(Layout([], blocks), labels, Ascending(blocks.Keys))
    ensures cur == WithDefaults(labels, blocks.Keys)
  {
    ReformatLabels(labels, blocks.Keys);
    l, cur := Layout([], blocks), labels;
    var openBlocks := Ascending(blocks.Keys);
    var i := 0;
    while i < |openBlocks|
      invariant 0 <= i <= |openBlocks|
      invariant PlaceBlocks(l, labels, openBlocks[i..]) == PlaceBlocks(Layout([], blocks), labels, openBlocks)
      invariant DefaultsAlong(cur, openBlocks[i..]) == WithDefaults(labels, blocks.Keys)
      invariant SameSpeeds(cur, labels)
    {
      var blockNum := openBlocks[i];
      RebuildStep(l, cur, labels, openBlocks, i);
      if blockNum !in cur {
        cur := cur[blockNum := NoLabels];
      }
      l := PlaceBlockValues(l, cur, labels, blockNum);
      i := i + 1;
    }
  }

  // ---------------------------------------------------------------- the session object

  class Client {
    var currentBlocks: map<int, Slots>
    var sample: seq<SampleValue>
    var blockLabels: map<int, BlockLabels>
    var nextBlock: nat
    var readingBlocks: bool
    var modulePartNum: seq<string>
    var ecuPartNum: seq<string>
    var moduleList: map<int, ModuleInfo>
    var doModuleRefresh: bool
    var destModule: int
    var slowRecvTimeout: int
    var normRecvTimeout: int
    var fastRecvTimeout: int
    /** The label directory: the lines of the file found for each part number. */
    const labelFiles: map<string, seq<string>>
    /** The calls queued on the transport so far. */
    var calls: seq<TpCall>
    /** A handler is looping forever on a length byte 0. */
    var hung: bool

    function State(): Session
      reads this
    {
      Session(currentBlocks, sample, blockLabels, nextBlock, readingBlocks, modulePartNum, ecuPartNum,
              moduleList, doModuleRefresh, destModule, slowRecvTimeout, normRecvTimeout, fastRecvTimeout,
              labelFiles, calls, hung)
    }

    /** kwp2000::kwp2000 (kwp2000.cpp:29-70), without the threads and the timer. */
    constructor (labelDir: map<string, seq<string>>)
      ensures State() == Initial(labelDir)
    {
      currentBlocks, sample, blockLabels := map[], [], map[];
      nextBlock, readingBlocks := 0, false;
      modulePartNum, ecuPartNum, moduleList := [], [], map[];
      doModuleRefresh, destModule := true, -1;
      slowRecvTimeout, normRecvTimeout, fastRecvTimeout := 40, 24, 16;
      labelFiles := labelDir;
      calls, hung := [], false;
    }

    /** QMetaObject::invokeMethod on the transport, queued. */
    method Invoke(c: TpCall)
      modifies this`calls
      ensures calls == old(calls) + [c]
    {
      calls := calls + [c];
    }

    /** readBlocks (kwp2000.cpp:490-511). */
    method ReadBlocks()
      modifies this`nextBlock, this`readingBlocks, this`calls
      ensures State() == ReadNext(old(State()))
    {
      var openBlocks := Ascending(currentBlocks.Keys);
      if openBlocks == [] {
        nextBlock := 0;
        readingBlocks := false;
        return;
      }
      if nextBlock >= |openBlocks| {
        nextBlock := 0;
      }
      var packet: seq<byte> := [0x21, openBlocks[nextBlock] % 256];
      nextBlock := nextBlock + 1;
      Invoke(Send(packet, fastRecvTimeout));
    }

    /** changeSampleFormat (kwp2000.cpp:264-302). */
    method ChangeSampleFormat()
      modifies this`sample, this`currentBlocks, this`blockLabels
      ensures State() == Reformat(old(State()))
    {
      var l, labels := RebuildSample(currentBlocks, blockLabels);
      sample, currentBlocks, blockLabels := l.sample, l.blocks, labels;
    }

    /** openBlock (kwp2000.cpp:189-205). */
    method OpenBlock(blockNum: int)
      modifies this`currentBlocks, this`sample, this`blockLabels, this`readingBlocks, this`nextBlock, this`calls
      ensures State() == WithBlock(old(State()), blockNum)
    {
      if blockNum !in currentBlocks {
        currentBlocks := currentBlocks[blockNum := FreshSlots];
      }
      ChangeSampleFormat();
      if !readingBlocks {
        readingBlocks := true;
        ReadBlocks();
      }
    }

    /** closeBlock (kwp2000.cpp:207-212). */
    method CloseBlock(blockNum: int)
      modifies this`currentBlocks, this`sample, this`blockLabels
      ensures State() == WithoutBlock(old(State()), blockNum)
    {
      currentBlocks := currentBlocks - {blockNum % 256};
      ChangeSampleFormat();
    }

    /** closeAllBlocks (kwp2000.cpp:214-224). */
    method CloseAllBlocks()
      modifies this`currentBlocks, this`sample, this`blockLabels
      ensures State() == WithoutBlocks(old(State()))
    {
      currentBlocks := map[];
      ChangeSampleFormat();
    }

    /** updateSample (kwp2000.cpp:741-747). */
    method UpdateSample(block: int)
      requires IndexesIn(State(), block)
      modifies this`sample
      ensures State() == Refreshed(old(State()), block)
    {
      var i := 0;
      while i < 4
        invariant 0 <= i <= 4 && |sample| == |old(sample)|
        invariant Refresh(sample, currentBlocks[block], i) == Refresh(old(sample), currentBlocks[block], 0)
      {
        var sampleIndex := currentBlocks[block][i].indexToSampleValue;
        sample := sample[sampleIndex := sample[sampleIndex].(val := currentBlocks[block][i].val)];
        i := i + 1;
      }
    }

    /** blockDataHandler (kwp2000.cpp:574-603); the CSV log line is not part of the model. */
    method BlockDataHandler(data: seq<byte>, param: byte)
      requires param in currentBlocks ==> IndexesIn(State(), param)
      modifies this`currentBlocks, this`sample, this`nextBlock, this`readingBlocks, this`calls
      ensures State() == Stored(old(State()), param, data)
    {
      var blockNum := param as int;
      if blockNum !in currentBlocks {
        ReadBlocks();
        return;
      }
      var slots := DecodeSlots(currentBlocks[blockNum], data);
      currentBlocks := currentBlocks[blockNum := slots];
      UpdateSample(blockNum);
      ReadBlocks();
    }

    /** shortIdHandler (kwp2000.cpp:625-650). */
    method ShortIdHandler(data: seq<byte>)
      modifies this`ecuPartNum, this`hung
      ensures State() == ShortIdRead(old(State()), data)
    {
      var ids := ShortIdList(data);
      if ids.None? {
        hung := true;
        return;
      }
      ecuPartNum := ids.value;
    }

    /** longIdHandler (kwp2000.cpp:652-684). */
    method LongIdHandler(data: seq<byte>)
      modifies this`modulePartNum, this`blockLabels, this`calls
      ensures State() == LongIdRead(old(State()), data)
    {
      modulePartNum := LongIdList(data);
      LoadLabelFile();
      Invoke(Send([0x1A, 0x91], slowRecvTimeout));
    }

    /** loadLabelFile (kwp2000.cpp:337-478); finding the file is a lookup in labelFiles. */
    method LoadLabelFile()
      modifies this`blockLabels
      ensures State() == Labelled(old(State()))
    {
      if |modulePartNum| == 0 {
        return;
      }
      var partNum := FirstToken(modulePartNum[0]);
      var partSplit := SplitPartNumber(partNum);
      partNum := Join(partSplit, "-");
      if partNum !in labelFiles {
        return;
      }
      var lines := labelFiles[partNum];
      ghost var target := LabelLines(LabelCursor(-1, -1, blockLabels), lines);
      var blockNum, pos := -1, -1;
      var k := 0;
      while k < |lines|
        invariant 0 <= k <= |lines|
        invariant LabelLines(LabelCursor(blockNum, pos, blockLabels), lines[k..]) == target
      {
        var c := LabelLine(LabelCursor(blockNum, pos, blockLabels), lines[k]);
        assert lines[k..][1..] == lines[k + 1..];
        blockNum, pos, blockLabels := c.blockNum, c.pos, c.labels;
        k := k + 1;
      }
    }

    /** queryModulesHandler (kwp2000.cpp:686-729). */
    method QueryModulesHandler(data: seq<byte>)
      modifies this`moduleList, this`doModuleRefresh, this`calls, this`hung
      ensures State() == ModulesListed(old(State()), data)
    {
      var dataList := InterpretRawData(data);
      if dataList.None? {
        hung := true;
        return;
      }
      var list := dataList.value;
      if |list| != 2 {
        Invoke(Close);
        return;
      }
      var aligned;
      moduleList, aligned := ReadModuleTable(list[0]);
      if !aligned {
        Invoke(Close);
        return;
      }
      doModuleRefresh := false;
      Invoke(Close);
    }

    /** recvKWP (kwp2000.cpp:513-567); miscHandler and the negative response only log. */
    method RecvKWP(data: Option<seq<byte>>)
      requires Indexed(State())
      modifies this
      ensures State() == Dispatch(old(State()), data)
    {
      if data.None? {
        Invoke(Close);
        return;
      }
      var d := data.value;
      if |d| < 2 {
        Invoke(Close);
        return;
      }
      var respCode, param := d[0], d[1];
      d := d[2..];
      if respCode == 0x7F {
        return;
      }
      if respCode == 0x50 {
        // startDiagHandler: ask for the long identification
        Invoke(Send([0x1A, 0x9B], slowRecvTimeout));
      } else if respCode == 0x5A {
        if param == 0x91 {
          ShortIdHandler(d);
        } else if param == 0x9B {
          LongIdHandler(d);
        } else if param == 0x9F {
          QueryModulesHandler(d);
        }
      } else if respCode == 0x61 {
        BlockDataHandler(d, param);
      }
    }

    /** startDiag (kwp2000.cpp:179-187). */
    method StartDiag(param: int)
      modifies this`calls
      ensures State() == DiagStart(old(State()), param)
    {
      var packet: seq<byte> := [0x10, param % 256];
      Invoke(Send(packet, slowRecvTimeout));
    }

    /** channelOpenSlot (kwp2000.cpp:226-255); channelDest is the transport's. */
    method ChannelOpenSlot(status: bool, channelDest: int)
      modifies this`destModule, this`modulePartNum, this`currentBlocks, this`sample, this`blockLabels, this`calls
      ensures State() == ChannelStatus(old(State()), status, channelDest)
    {
      if !status {
        destModule := -1;
        modulePartNum := [];
        CloseAllBlocks();
      } else if channelDest == 31 && doModuleRefresh {
        Invoke(Send([0x1A, 0x9F], slowRecvTimeout));
      } else {
        StartDiag(0x89);
      }
    }

    /** openChannel (kwp2000.cpp:114-139); channelDest is the transport's. */
    method OpenChannel(i: int, channelDest: int)
      modifies this`blockLabels, this`destModule, this`calls
      ensures State() == Connect(old(State()), i, channelDest)
    {
      if channelDest >= 0 {
        return;
      }
      if i == 0 {
        return;
      }
      blockLabels := map[];
      var addr := if i in moduleList then moduleList[i].addr else i;
      destModule := i;
      Invoke(Open(addr, normRecvTimeout));
    }

    /** closeChannel (kwp2000.cpp:141-144). */
    method CloseChannel()
      modifies this`calls
      ensures State() == Call(old(State()), Close)
    {
      Invoke(Close);
    }

    /** openGW_refresh (kwp2000.cpp:480-488). */
    method OpenGatewayRefresh(ok: bool)
      modifies this`doModuleRefresh, this`calls
      ensures State() == GatewayRefresh(old(State()), ok)
    {
      if ok {
        doModuleRefresh := true;
        Invoke(Open(31, normRecvTimeout));
      }
    }
  }

  // ---------------------------------------------------------------- helper lemmas

  lemma GlueEnds<T>(done: seq<T>, rest: Option<seq<T>>)
    ensures Glue([], rest) == rest
    ensures Glue(done, Some([])) == Some(done)
  {
    if rest.Some? {
      assert [] + rest.value == rest.value;
    }
    assert done + [] == done;
  }

  lemma GlueCons<T>(done: seq<T>, x: T, rest: Option<seq<T>>)
    ensures Glue(done + [x], rest) == Glue(done, match rest case None => None case Some(r) => Some([x] + r))
  {
    if rest.Some? {
      assert (done + [x]) + rest.value == done + ([x] + rest.value);
    }
  }

  /** One record taken off the front. */
  lemma RecordsStep(raw: seq<byte>, i: nat, done: seq<seq<byte>>)
    requires i < |raw| && raw[i] != 0 && raw[i] != 0xFF
    ensures Glue(done + [Record(raw, i)], Records(raw, i + raw[i])) == Glue(done, Records(raw, i))
  {
    GlueCons(done, Record(raw, i), Records(raw, i + raw[i]));
  }

  lemma ShortIdsStep(data: seq<byte>, i: nat, done: seq<string>, id: string)
    requires i < |data| && data[i] != 0 && data[i] != 0xFF
    requires id == TrimSpaces(Chars(Record(data, i)))
    ensures Glue(done + [id], ShortIds(data, i + data[i])) == Glue(done, ShortIds(data, i))
  {
    GlueCons(done, id, ShortIds(data, i + data[i]));
  }

  /** Empty label entries are never engine speed. */
  lemma DefaultsKeepEngineSpeed(labels: map<int, BlockLabels>, keys: set<int>)
    ensures SameSpeeds(WithDefaults(labels, keys), labels)
  {
    forall b | b in WithDefaults(labels, keys) && b !in labels
      ensures !EngineSpeed(WithDefaults(labels, keys), b)
    {
      assert |Lower("")| == 0;
    }
  }

  lemma DefaultsTwice(labels: map<int, BlockLabels>, a: set<int>, b: set<int>)
    ensures WithDefaults(WithDefaults(labels, a), b) == WithDefaults(labels, a + b)
  {
  }

  /** blockLabels[b] for one key: an empty entry is added when b has none. */
  ghost function DefaultOne(labels: map<int, BlockLabels>, b: int): map<int, BlockLabels> {
    if b in labels then labels else labels[b := NoLabels]
  }

  /** The entries changeSampleFormat adds, one open block after the other. */
  ghost function DefaultsAlong(labels: map<int, BlockLabels>, keys: seq<int>): map<int, BlockLabels>
    decreases |keys|
  {
    if keys == [] then labels else DefaultsAlong(DefaultOne(labels, keys[0]), keys[1..])
  }

  lemma {:induction false} DefaultsAlongAll(labels: map<int, BlockLabels>, keys: seq<int>)
    ensures DefaultsAlong(labels, keys) == WithDefaults(labels, set x | x in keys)
    decreases |keys|
  {
    if keys == [] {
      assert WithDefaults(labels, {}) == labels;
    } else {
      DefaultsOne(labels, keys[0]);
      DefaultsAlongAll(WithDefaults(labels, {keys[0]}), keys[1..]);
      DefaultsTwice(labels, {keys[0]}, set x | x in keys[1..]);
      assert {keys[0]} + (set x | x in keys[1..]) == set x | x in keys by {
        forall x | x in keys
          ensures x == keys[0] || x in keys[1..]
        {
          var k :| 0 <= k < |keys| && keys[k] == x;
          if k > 0 {
            assert keys[1..][k - 1] == x;
          }
        }
      }
    }
  }

  lemma ReformatLabels(labels: map<int, BlockLabels>, keys: set<int>)
    ensures DefaultsAlong(labels, Ascending(keys)) == WithDefaults(labels, keys)
  {
    AscendingKeys(keys);
    DefaultsAlongAll(labels, Ascending(keys));
    var listed := set x | x in Ascending(keys);
    forall x
      ensures x in listed <==> x in keys
    {
    }
    assert listed == keys;
  }

  /** One turn of RebuildSample's loop: block keys[i] placed, its label entry defaulted. */
  lemma RebuildStep(l: Layout, cur: map<int, BlockLabels>, labels: map<int, BlockLabels>, keys: seq<int>, i: nat)
    requires i < |keys| && SameSpeeds(cur, labels)
    ensures DefaultsAlong(cur, keys[i..]) == DefaultsAlong(DefaultOne(cur, keys[i]), keys[i + 1..])
    ensures SameSpeeds(DefaultOne(cur, keys[i]), labels)
    ensures PlaceBlocks(l, labels, keys[i..]) == PlaceBlocks(PlaceBlock(l, labels, keys[i], 0), labels, keys[i + 1..])
  {
    assert keys[i..][1..] == keys[i + 1..];
    DefaultsOne(cur, keys[i]);
    DefaultsKeepEngineSpeed(cur, {keys[i]});
  }

  /** Asking for one key adds an empty entry when it is missing. */
  lemma DefaultsOne(labels: map<int, BlockLabels>, b: int)
    ensures WithDefaults(labels, {b}) == DefaultOne(labels, b)
  {
    var m := WithDefaults(labels, {b});
    var n := if b in labels then labels else labels[b := NoLabels];
    assert m.Keys == n.Keys;
    forall k | k in m
      ensures m[k] == n[k]
    {
    }
  }
}
