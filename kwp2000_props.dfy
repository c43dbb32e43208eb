/**
 * What the KWP2000 session promises, stated over the functions of module
 * Kwp2000: the sample list changeSampleFormat builds, the values a block
 * reply stores, the round-robin polling of the open blocks, the record
 * format of identification and module-list replies, the module table,
 * and the text handling of label files.
 */
module Kwp2000Properties {
  import opened Util
  import opened Kwp2000

  // ---------------------------------------------------------------- decodeBlockData

  /** The formula ids decodeBlockData knows; every other id is shown raw. */
  const KnownIds: set<int> := {0x01, 0x04, 0x07, 0x08, 0x10, 0x11, 0x12, 0x14, 0x15, 0x16, 0x17, 0x1A,
                                0x21, 0x22, 0x23, 0x25, 0x27, 0x31, 0x33, 0x36, 0x37, 0x51, 0x5E}

  /**
   * Engine speed is a * b / 5 rpm (a = 10, b = 25 gives 50); the ignition
   * angle is |b - 127| * 0.01 * a degrees, after top dead centre exactly
   * when b > 127; speed is 0.01 * a * b km/h; ids 0x08, 0x10 and 0x25 are
   * binary words and unknown ids raw words; 0x11 is two characters.
   */
  lemma DecodeBlockDataCases(id: byte, a: byte, b: byte)
    ensures id == 0x01 ==> DecodeBlockData(id, a, b) == Decoded(Double((a * b) as real / 5.0), "rpm")
    ensures id == 0x04 ==> DecodeBlockData(id, a, b).val.Double? && DecodeBlockData(id, a, b).val.d >= 0.0
    ensures id == 0x04 ==>
      DecodeBlockData(id, a, b).val == Double((if b > 127 then b - 127 else 127 - b) as real * 0.01 * a as real)
    ensures id == 0x04 ==> DecodeBlockData(id, a, b).units == (if b > 127 then "\U{B0} ATDC" else "\U{B0} BTDC")
    ensures id == 0x07 ==> DecodeBlockData(id, a, b) == Decoded(Double(0.01 * (a * b) as real), "km/h")
    ensures DecodeBlockData(id, a, b).units == "Binary" <==> id in {0x08, 0x10, 0x25}
    ensures DecodeBlockData(id, a, b).units == "Raw" <==> id !in KnownIds
    ensures id == 0x11 ==> DecodeBlockData(id, a, b) == Decoded(Str([a as char, b as char]), "ASCII")
    ensures DecodeBlockData(0x01, 10, 25).val == Double(50.0)
  {
  }

  // ---------------------------------------------------------------- the sample list

  /** The value r has a sample, and that sample lists r. */
  ghost predicate RefOk(l: Layout, r: BlockRef) {
    && r.blockNum in l.blocks && 0 <= r.pos < 4
    && 0 <= l.blocks[r.blockNum][r.pos].indexToSampleValue < |l.sample|
    && r in l.sample[l.blocks[r.blockNum][r.pos].indexToSampleValue].refs
  }

  /** The values a sample lists share their position. */
  ghost predicate SamePos(sample: seq<SampleValue>) {
    forall n, r :: 0 <= n < |sample| && r in sample[n].refs ==> r.pos == sample[n].refs[0].pos
  }

  /** The values placed so far, P, are all linked to their samples. */
  ghost predicate LayoutOk(l: Layout, placed: set<BlockRef>) {
    (forall r :: r in placed ==> RefOk(l, r)) && SamePos(l.sample)
  }

  /** Setting one value's index touches no other value and no key. */
  lemma SetIndexOnly(blocks: map<int, Slots>, r: BlockRef, n: int)
    ensures SetIndex(blocks, r, n).Keys == blocks.Keys
    ensures r.blockNum in blocks && 0 <= r.pos < 4 ==> SetIndex(blocks, r, n)[r.blockNum][r.pos].indexToSampleValue == n
    ensures forall q :: q != r && q.blockNum in blocks && 0 <= q.pos < 4 ==>
      SetIndex(blocks, r, n)[q.blockNum][q.pos] == blocks[q.blockNum][q.pos]
  {
  }

  /** A block value apart from the sample index changeSampleFormat rewrites. */
  function Bare(v: BlockValue): BlockValue {
    v.(indexToSampleValue := 0)
  }

  /** The same open blocks holding the same values, sample indexes aside. */
  ghost predicate SameValues(a: map<int, Slots>, b: map<int, Slots>) {
    a.Keys == b.Keys && forall k, p :: k in a && 0 <= p < 4 ==> Bare(a[k][p]) == Bare(b[k][p])
  }

  /** Setting a sample index keeps every value. */
  lemma SetIndexValues(blocks: map<int, Slots>, r: BlockRef, n: int)
    ensures SameValues(SetIndex(blocks, r, n), blocks)
  {
    SetIndexOnly(blocks, r, n);
  }

  /** The engine-speed search only sets sample indexes. */
  lemma {:induction false} ScanValues(l: Layout, labels: map<int, BlockLabels>, r: BlockRef, k: nat, found: bool)
    ensures SameValues(Scan(l, labels, r, k, found).0.blocks, l.blocks)
    decreases |l.sample| - k
  {
    if k < |l.sample| {
      if SharedHead(labels, l.sample[k]) {
        var v := l.sample[k];
        var l1 := Layout(l.sample[k := v.(refs := v.refs + [r])], SetIndex(l.blocks, r, k));
        SetIndexValues(l.blocks, r, k);
        ScanValues(l1, labels, r, k + 1, true);
      } else {
        ScanValues(l, labels, r, k + 1, found);
      }
    }
  }

  /** Placing one value only sets sample indexes. */
  lemma PlaceValues(l: Layout, labels: map<int, BlockLabels>, r: BlockRef)
    ensures SameValues(Place(l, labels, r).blocks, l.blocks)
  {
    ScanValues(l, labels, r, 0, false);
    var l1 := Scan(l, labels, r, 0, false).0;
    SetIndexValues(l1.blocks, r, |l1.sample|);
    SetIndexValues(l.blocks, r, |l.sample|);
  }

  lemma {:induction false} PlaceBlockKeepsValues(l: Layout, labels: map<int, BlockLabels>, b: int, pos: nat)
    requires pos <= 4
    ensures SameValues(PlaceBlock(l, labels, b, pos).blocks, l.blocks)
    decreases 4 - pos
  {
    if pos < 4 {
      PlaceValues(l, labels, BlockRef(b, pos));
      PlaceBlockKeepsValues(Place(l, labels, BlockRef(b, pos)), labels, b, pos + 1);
    }
  }

  /** Rebuilding the sample list keeps every block value apart from its sample index. */
  lemma {:induction false} PlaceBlocksKeepValues(l: Layout, labels: map<int, BlockLabels>, keys: seq<int>)
    ensures SameValues(PlaceBlocks(l, labels, keys).blocks, l.blocks)
    decreases |keys|
  {
    if keys != [] {
      PlaceBlockKeepsValues(l, labels, keys[0], 0);
      PlaceBlocksKeepValues(PlaceBlock(l, labels, keys[0], 0), labels, keys[1..]);
    }
  }

  lemma {:induction false} ScanKeys(l: Layout, labels: map<int, BlockLabels>, r: BlockRef, k: nat, found: bool)
    ensures Scan(l, labels, r, k, found).0.blocks.Keys == l.blocks.Keys
    ensures |Scan(l, labels, r, k, found).0.sample| == |l.sample|
    ensures found ==> Scan(l, labels, r, k, found).1
    ensures !Scan(l, labels, r, k, found).1 ==> Scan(l, labels, r, k, found).0 == l
    decreases |l.sample| - k
  {
    if k < |l.sample| {
      if SharedHead(labels, l.sample[k]) {
        var v := l.sample[k];
        SetIndexOnly(l.blocks, r, k);
        ScanKeys(Layout(l.sample[k := v.(refs := v.refs + [r])], SetIndex(l.blocks, r, k)), labels, r, k + 1, true);
      } else {
        ScanKeys(l, labels, r, k + 1, found);
      }
    }
  }

  lemma PlaceKeys(l: Layout, labels: map<int, BlockLabels>, r: BlockRef)
    ensures Place(l, labels, r).blocks.Keys == l.blocks.Keys
  {
    ScanKeys(l, labels, r, 0, false);
    var l1 := Scan(l, labels, r, 0, false).0;
    SetIndexOnly(l1.blocks, r, |l1.sample|);
    SetIndexOnly(l.blocks, r, |l.sample|);
  }

  lemma {:induction false} PlaceBlockKeys(l: Layout, labels: map<int, BlockLabels>, b: int, pos: nat)
    requires pos <= 4
    ensures PlaceBlock(l, labels, b, pos).blocks.Keys == l.blocks.Keys
    decreases 4 - pos
  {
    if pos < 4 {
      PlaceKeys(l, labels, BlockRef(b, pos));
      PlaceBlockKeys(Place(l, labels, BlockRef(b, pos)), labels, b, pos + 1);
    }
  }

  /** Rebuilding the sample list keeps the set of open blocks. */
  lemma {:induction false} PlaceBlocksKeys(l: Layout, labels: map<int, BlockLabels>, keys: seq<int>)
    ensures PlaceBlocks(l, labels, keys).blocks.Keys == l.blocks.Keys
    decreases |keys|
  {
    if keys != [] {
      PlaceBlockKeys(l, labels, keys[0], 0);
      PlaceBlocksKeys(PlaceBlock(l, labels, keys[0], 0), labels, keys[1..]);
    }
  }

  /** The search hands r the sample of every engine-speed head, and leaves the other values linked. */
  lemma {:induction false} ScanOk(l: Layout, labels: map<int, BlockLabels>, r: BlockRef, k: nat, found: bool, placed: set<BlockRef>)
    requires LayoutOk(l, placed) && r !in placed && r.pos == 0 && r.blockNum in l.blocks
    requires found ==> RefOk(l, r)
    ensures LayoutOk(Scan(l, labels, r, k, found).0, placed)
    ensures Scan(l, labels, r, k, found).1 ==> RefOk(Scan(l, labels, r, k, found).0, r)
    decreases |l.sample| - k
  {
    if k < |l.sample| {
      if SharedHead(labels, l.sample[k]) {
        var v := l.sample[k];
        var l1 := Layout(l.sample[k := v.(refs := v.refs + [r])], SetIndex(l.blocks, r, k));
        SetIndexOnly(l.blocks, r, k);
        forall q | q in placed
          ensures RefOk(l1, q)
        {
          assert RefOk(l, q);
        }
        forall n, q | 0 <= n < |l1.sample| && q in l1.sample[n].refs
          ensures q.pos == l1.sample[n].refs[0].pos
        {
          if n != k {
            assert l1.sample[n] == l.sample[n];
          } else if q != r {
            assert q in v.refs;
          }
        }
        assert RefOk(l1, r);
        ScanOk(l1, labels, r, k + 1, true, placed);
      } else {
        ScanOk(l, labels, r, k + 1, found, placed);
      }
    }
  }

  /** One placed value is linked to its sample, and the values placed before stay linked. */
  lemma PlaceOk(l: Layout, labels: map<int, BlockLabels>, r: BlockRef, placed: set<BlockRef>)
    requires LayoutOk(l, placed) && r !in placed && r.blockNum in l.blocks && 0 <= r.pos < 4
    ensures LayoutOk(Place(l, labels, r), placed + {r})
  {
    var shared := r.pos == 0 && EngineSpeed(labels, r.blockNum);
    if shared {
      ScanOk(l, labels, r, 0, false, placed);
    }
    ScanKeys(l, labels, r, 0, false);
    var (l1, found) := if shared then Scan(l, labels, r, 0, false) else (l, false);
    if !found {
      assert l1 == l;
      var l2 := Place(l, labels, r);
      assert l2 == Layout(l.sample + [SampleValue([r], Invalid)], SetIndex(l.blocks, r, |l.sample|));
      SetIndexOnly(l.blocks, r, |l.sample|);
      forall q | q in placed + {r}
        ensures RefOk(l2, q)
      {
        if q != r {
          assert RefOk(l, q);
          assert l2.sample[l.blocks[q.blockNum][q.pos].indexToSampleValue] == l.sample[l.blocks[q.blockNum][q.pos].indexToSampleValue];
        }
      }
      forall n, q | 0 <= n < |l2.sample| && q in l2.sample[n].refs
        ensures q.pos == l2.sample[n].refs[0].pos
      {
        if n < |l.sample| {
          assert l2.sample[n] == l.sample[n];
        }
      }
    }
  }

  lemma {:induction false} PlaceBlockOk(l: Layout, labels: map<int, BlockLabels>, b: int, pos: nat, placed: set<BlockRef>)
    requires pos <= 4 && LayoutOk(l, placed) && b in l.blocks
    requires forall q :: pos <= q < 4 ==> BlockRef(b, q) !in placed
    ensures LayoutOk(PlaceBlock(l, labels, b, pos), placed)
    ensures forall q :: pos <= q < 4 ==> RefOk(PlaceBlock(l, labels, b, pos), BlockRef(b, q))
    decreases 4 - pos
  {
    if pos < 4 {
      var r := BlockRef(b, pos);
      PlaceOk(l, labels, r, placed);
      PlaceKeys(l, labels, r);
      PlaceBlockOk(Place(l, labels, r), labels, b, pos + 1, placed + {r});
    }
  }

  /** The values of a block reference their own block. */
  ghost function BlockRefs(b: int): set<BlockRef> {
    set q | 0 <= q < 4 :: BlockRef(b, q)
  }

  /** Distinct keys in a list. */
  ghost predicate Distinct(keys: seq<int>) {
    forall i, j :: 0 <= i < j < |keys| ==> keys[i] != keys[j]
  }

  lemma {:induction false} PlaceBlocksOk(l: Layout, labels: map<int, BlockLabels>, keys: seq<int>, placed: set<BlockRef>)
    requires LayoutOk(l, placed) && Distinct(keys)
    requires forall b :: b in keys ==> b in l.blocks
    requires forall r :: r in placed ==> r.blockNum !in keys
    ensures LayoutOk(PlaceBlocks(l, labels, keys), placed)
    ensures forall b, p :: b in keys && 0 <= p < 4 ==> RefOk(PlaceBlocks(l, labels, keys), BlockRef(b, p))
    decreases |keys|
  {
    if keys != [] {
      var b := keys[0];
      var l1 := PlaceBlock(l, labels, b, 0);
      PlaceBlockOk(l, labels, b, 0, placed);
      PlaceBlockKeys(l, labels, b, 0);
      var placed1 := placed + BlockRefs(b);
      forall r | r in placed1
        ensures r.blockNum !in keys[1..]
      {
        forall j | 0 <= j < |keys| - 1
          ensures keys[1..][j] != r.blockNum
        {
          assert keys[1..][j] == keys[j + 1];
          if r in BlockRefs(b) {
            assert r.blockNum == keys[0];
          }
        }
      }
      forall r | r in placed1
        ensures RefOk(l1, r)
      {
        if r in BlockRefs(b) {
          assert r == BlockRef(b, r.pos);
        }
      }
      PlaceBlocksOk(l1, labels, keys[1..], placed1);
      var res := PlaceBlocks(l, labels, keys);
      forall b', p | b' in keys && 0 <= p < 4
        ensures RefOk(res, BlockRef(b', p))
      {
        if b' == b {
          assert BlockRef(b', p) in BlockRefs(b);
        } else {
          assert b' in keys[1..];
        }
      }
    }
  }

  /**
   * changeSampleFormat leaves every value of every open block linked to a
   * sample that lists it, and the values of one sample share a position.
   */
  lemma ReformatConsistent(s: Session)
    ensures Consistent(Reformat(s))
    ensures Reformat(s).currentBlocks.Keys == s.currentBlocks.Keys
  {
    var keys := Ascending(s.currentBlocks.Keys);
    AscendingKeys(s.currentBlocks.Keys);
    AscendingSorted(s.currentBlocks.Keys);
    var l0 := Layout([], s.currentBlocks);
    PlaceBlocksOk(l0, s.blockLabels, keys, {});
    PlaceBlocksKeys(l0, s.blockLabels, keys);
    var l := PlaceBlocks(l0, s.blockLabels, keys);
    forall b, p | b in l.blocks && 0 <= p < 4
      ensures RefOk(l, BlockRef(b, p))
    {
      assert b in keys;
    }
    var r := Reformat(s);
    assert r.sample == l.sample && r.currentBlocks == l.blocks;
    LayoutConsistent(r, l);
  }

  lemma LayoutConsistent(s: Session, l: Layout)
    requires s.sample == l.sample && s.currentBlocks == l.blocks && SamePos(l.sample)
    requires forall b, p :: b in l.blocks && 0 <= p < 4 ==> RefOk(l, BlockRef(b, p))
    ensures Consistent(s)
  {
    forall b, p | b in s.currentBlocks && 0 <= p < 4
      ensures var n := s.currentBlocks[b][p].indexToSampleValue;
        0 <= n < |s.sample| && BlockRef(b, p) in s.sample[n].refs
    {
      assert RefOk(l, BlockRef(b, p));
    }
  }

  // ---------------------------------------------------------------- the number of samples

  /** A value that joins the engine-speed sample, or starts it. */
  predicate SpeedHead(labels: map<int, BlockLabels>, r: BlockRef) {
    r.pos == 0 && EngineSpeed(labels, r.blockNum)
  }

  /** Some sample of the list is one that engine-speed values join. */
  ghost predicate HasShared(labels: map<int, BlockLabels>, sample: seq<SampleValue>) {
    exists j :: 0 <= j < |sample| && SharedHead(labels, sample[j])
  }

  /** Two sample lists of one length whose samples start with the same values. */
  ghost predicate SameHeads(a: seq<SampleValue>, b: seq<SampleValue>) {
    |a| == |b| && forall j :: 0 <= j < |a| ==> a[j].refs[0] == b[j].refs[0]
  }

  /** The number of engine-speed blocks in a list of keys. */
  ghost function SpeedCount(labels: map<int, BlockLabels>, keys: seq<int>): nat
    decreases |keys|
  {
    if keys == [] then 0 else (if EngineSpeed(labels, keys[0]) then 1 else 0) + SpeedCount(labels, keys[1..])
  }

  lemma SameHeadsShared(labels: map<int, BlockLabels>, a: seq<SampleValue>, b: seq<SampleValue>)
    requires SameHeads(a, b)
    ensures HasShared(labels, a) == HasShared(labels, b)
  {
    if HasShared(labels, a) {
      var j :| 0 <= j < |a| && SharedHead(labels, a[j]);
      assert SharedHead(labels, b[j]);
    }
    if HasShared(labels, b) {
      var j :| 0 <= j < |b| && SharedHead(labels, b[j]);
      assert SharedHead(labels, a[j]);
    }
  }

  lemma SharedAppend(labels: map<int, BlockLabels>, sample: seq<SampleValue>, v: SampleValue)
    ensures HasShared(labels, sample + [v]) == (HasShared(labels, sample) || SharedHead(labels, v))
  {
    var t := sample + [v];
    if HasShared(labels, t) && !SharedHead(labels, v) {
      var j :| 0 <= j < |t| && SharedHead(labels, t[j]);
      assert j < |sample| && t[j] == sample[j];
    }
    if HasShared(labels, sample) {
      var j :| 0 <= j < |sample| && SharedHead(labels, sample[j]);
      assert t[j] == sample[j];
    }
    if SharedHead(labels, v) {
      assert t[|sample|] == v;
    }
  }

  /**
   * The search hands r to a sample exactly when one from k on is an
   * engine-speed sample (or one already took it), and it leaves the
   * first value of every sample as it was.
   */
  lemma {:induction false} ScanShares(l: Layout, labels: map<int, BlockLabels>, r: BlockRef, k: nat, found: bool)
    ensures SameHeads(Scan(l, labels, r, k, found).0.sample, l.sample)
    ensures Scan(l, labels, r, k, found).1 <==>
      found || exists j :: k <= j < |l.sample| && SharedHead(labels, l.sample[j])
    decreases |l.sample| - k
  {
    if k < |l.sample| {
      var v := l.sample[k];
      if SharedHead(labels, v) {
        var l' := Layout(l.sample[k := v.(refs := v.refs + [r])], SetIndex(l.blocks, r, k));
        assert (v.refs + [r])[0] == v.refs[0];
        assert SameHeads(l'.sample, l.sample);
        ScanShares(l', labels, r, k + 1, true);
      } else {
        ScanShares(l, labels, r, k + 1, found);
        if exists j :: k <= j < |l.sample| && SharedHead(labels, l.sample[j]) {
          var j :| k <= j < |l.sample| && SharedHead(labels, l.sample[j]);
          assert j != k;
        }
      }
    }
  }

  /**
   * One value placed: it adds a sample unless it is an engine speed and
   * the engine-speed sample exists already.
   */
  lemma PlaceCount(l: Layout, labels: map<int, BlockLabels>, r: BlockRef)
    ensures |Place(l, labels, r).sample| ==
      |l.sample| + (if SpeedHead(labels, r) && HasShared(labels, l.sample) then 0 else 1)
    ensures HasShared(labels, Place(l, labels, r).sample) == (HasShared(labels, l.sample) || SpeedHead(labels, r))
  {
    var added := SampleValue([r], Invalid);
    if SpeedHead(labels, r) {
      ScanShares(l, labels, r, 0, false);
      var (l1, found) := Scan(l, labels, r, 0, false);
      SameHeadsShared(labels, l1.sample, l.sample);
      if !found {
        SharedAppend(labels, l1.sample, added);
        assert Place(l, labels, r).sample == l1.sample + [added];
      }
    } else {
      SharedAppend(labels, l.sample, added);
      assert Place(l, labels, r).sample == l.sample + [added];
    }
  }

  /** A block placed: four samples, one fewer when its engine speed joins the existing sample. */
  lemma {:induction false} PlaceBlockCount(l: Layout, labels: map<int, BlockLabels>, b: int, pos: nat)
    requires pos <= 4
    ensures |PlaceBlock(l, labels, b, pos).sample| ==
      |l.sample| + (4 - pos) - (if pos == 0 && EngineSpeed(labels, b) && HasShared(labels, l.sample) then 1 else 0)
    ensures HasShared(labels, PlaceBlock(l, labels, b, pos).sample) ==
      (HasShared(labels, l.sample) || (pos == 0 && EngineSpeed(labels, b)))
    decreases 4 - pos
  {
    if pos < 4 {
      PlaceCount(l, labels, BlockRef(b, pos));
      PlaceBlockCount(Place(l, labels, BlockRef(b, pos)), labels, b, pos + 1);
    }
  }

  /** The blocks of `keys` placed: four samples each, less one for every engine speed that joins. */
  lemma {:induction false} PlaceBlocksCount(l: Layout, labels: map<int, BlockLabels>, keys: seq<int>)
    ensures var e := SpeedCount(labels, keys);
      |PlaceBlocks(l, labels, keys).sample| ==
        |l.sample| + 4 * |keys| - e + (if !HasShared(labels, l.sample) && e > 0 then 1 else 0)
    ensures HasShared(labels, PlaceBlocks(l, labels, keys).sample) ==
      (HasShared(labels, l.sample) || SpeedCount(labels, keys) > 0)
    decreases |keys|
  {
    if keys != [] {
      PlaceBlockCount(l, labels, keys[0], 0);
      PlaceBlocksCount(PlaceBlock(l, labels, keys[0], 0), labels, keys[1..]);
    }
  }

  /** Over distinct keys, SpeedCount counts the engine-speed blocks among them. */
  lemma {:induction false} SpeedCountSet(labels: map<int, BlockLabels>, keys: seq<int>)
    requires Distinct(keys)
    ensures SpeedCount(labels, keys) == |set b | b in keys && EngineSpeed(labels, b)|
    decreases |keys|
  {
    if keys != [] {
      var rest := keys[1..];
      assert Distinct(rest) by {
        forall i, j | 0 <= i < j < |rest| ensures rest[i] != rest[j] {
          assert rest[i] == keys[i + 1] && rest[j] == keys[j + 1];
        }
      }
      SpeedCountSet(labels, rest);
      var all := set b | b in keys && EngineSpeed(labels, b);
      var tail := set b | b in rest && EngineSpeed(labels, b);
      assert keys[0] !in rest by {
        forall j | 0 <= j < |rest| ensures rest[j] != keys[0] {
          assert rest[j] == keys[j + 1];
        }
      }
      if EngineSpeed(labels, keys[0]) {
        assert all == tail + {keys[0]};
      } else {
        assert all == tail;
      }
    }
  }

  /** At most one sample is the engine-speed sample. */
  ghost predicate OneShared(labels: map<int, BlockLabels>, sample: seq<SampleValue>) {
    forall i, j :: 0 <= i < |sample| && 0 <= j < |sample| && SharedHead(labels, sample[i]) && SharedHead(labels, sample[j]) ==> i == j
  }

  /** The sample index an open block's value holds. */
  function IndexOf(l: Layout, r: BlockRef): int
    requires r.blockNum in l.blocks && 0 <= r.pos < 4
  {
    l.blocks[r.blockNum][r.pos].indexToSampleValue
  }

  /** The value r names the engine-speed sample. */
  ghost predicate Linked(l: Layout, labels: map<int, BlockLabels>, r: BlockRef) {
    && r.blockNum in l.blocks && 0 <= r.pos < 4
    && 0 <= IndexOf(l, r) < |l.sample| && SharedHead(labels, l.sample[IndexOf(l, r)])
  }

  /** Every engine-speed value placed so far names the engine-speed sample. */
  ghost predicate SpeedLinked(l: Layout, labels: map<int, BlockLabels>, placed: set<BlockRef>) {
    forall r :: r in placed && SpeedHead(labels, r) ==> Linked(l, labels, r)
  }

  /** The search keeps the engine-speed sample unique and links r to it when it finds it. */
  lemma {:induction false} ScanSpeed(l: Layout, labels: map<int, BlockLabels>, r: BlockRef, k: nat, found: bool, placed: set<BlockRef>)
    requires SpeedLinked(l, labels, placed) && OneShared(labels, l.sample) && r !in placed
    requires r.blockNum in l.blocks && r.pos == 0
    requires found ==> Linked(l, labels, r)
    ensures SpeedLinked(Scan(l, labels, r, k, found).0, labels, placed)
    ensures OneShared(labels, Scan(l, labels, r, k, found).0.sample)
    ensures Scan(l, labels, r, k, found).1 ==> Linked(Scan(l, labels, r, k, found).0, labels, r)
    decreases |l.sample| - k
  {
    if k < |l.sample| && SharedHead(labels, l.sample[k]) {
      var v := l.sample[k];
      var l' := Layout(l.sample[k := v.(refs := v.refs + [r])], SetIndex(l.blocks, r, k));
      assert (v.refs + [r])[0] == v.refs[0];
      assert forall j :: 0 <= j < |l.sample| ==> l'.sample[j].refs[0] == l.sample[j].refs[0];
      SetIndexOnly(l.blocks, r, k);
      forall q | q in placed && SpeedHead(labels, q)
        ensures Linked(l', labels, q)
      {
        assert Linked(l, labels, q) && q != r;
      }
      ScanSpeed(l', labels, r, k + 1, true, placed);
    } else if k < |l.sample| {
      ScanSpeed(l, labels, r, k + 1, found, placed);
    }
  }

  /** An engine-speed value linked to its sample means the list has an engine-speed sample. */
  lemma LinkedShares(l: Layout, labels: map<int, BlockLabels>, placed: set<BlockRef>)
    requires SpeedLinked(l, labels, placed)
    ensures forall q :: q in placed && SpeedHead(labels, q) ==> HasShared(labels, l.sample)
  {
    forall q | q in placed && SpeedHead(labels, q)
      ensures HasShared(labels, l.sample)
    {
      assert Linked(l, labels, q);
    }
  }

  /** One value placed: the engine-speed sample stays unique, and r names it when r is an engine speed. */
  lemma PlaceSpeed(l: Layout, labels: map<int, BlockLabels>, r: BlockRef, placed: set<BlockRef>)
    requires SpeedLinked(l, labels, placed) && OneShared(labels, l.sample)
    requires r.blockNum in l.blocks && 0 <= r.pos < 4
    ensures SpeedLinked(Place(l, labels, r), labels, placed + {r})
    ensures OneShared(labels, Place(l, labels, r).sample)
  {
    var rest := placed - {r};
    var added := SampleValue([r], Invalid);
    var l2 := Layout(l.sample + [added], SetIndex(l.blocks, r, |l.sample|));
    SetIndexOnly(l.blocks, r, |l.sample|);
    if SpeedHead(labels, r) {
      ScanSpeed(l, labels, r, 0, false, rest);
      ScanShares(l, labels, r, 0, false);
      ScanKeys(l, labels, r, 0, false);
      if !Scan(l, labels, r, 0, false).1 {
        assert Place(l, labels, r) == l2;
        // with no engine-speed sample in l, no value placed so far is an engine speed
        LinkedShares(l, labels, rest);
        assert l2.sample[|l.sample|] == added;
      }
    } else {
      assert Place(l, labels, r) == l2;
      forall q | q in rest && SpeedHead(labels, q)
        ensures Linked(l2, labels, q)
      {
        assert Linked(l, labels, q) && q != r;
        assert l2.sample[IndexOf(l, q)] == l.sample[IndexOf(l, q)];
      }
      assert !SharedHead(labels, l2.sample[|l.sample|]);
      assert forall j :: 0 <= j < |l.sample| ==> l2.sample[j] == l.sample[j];
    }
  }

  lemma {:induction false} PlaceBlockSpeed(l: Layout, labels: map<int, BlockLabels>, b: int, pos: nat, placed: set<BlockRef>)
    requires pos <= 4 && b in l.blocks
    requires SpeedLinked(l, labels, placed) && OneShared(labels, l.sample)
    ensures SpeedLinked(PlaceBlock(l, labels, b, pos), labels, placed + (if pos == 0 then {BlockRef(b, 0)} else {}))
    ensures OneShared(labels, PlaceBlock(l, labels, b, pos).sample)
    decreases 4 - pos
  {
    if pos < 4 {
      var r := BlockRef(b, pos);
      PlaceSpeed(l, labels, r, placed);
      PlaceKeys(l, labels, r);
      PlaceBlockSpeed(Place(l, labels, r), labels, b, pos + 1, placed + {r});
    }
  }

  lemma {:induction false} PlaceBlocksSpeed(l: Layout, labels: map<int, BlockLabels>, keys: seq<int>, placed: set<BlockRef>)
    requires forall b :: b in keys ==> b in l.blocks
    requires SpeedLinked(l, labels, placed) && OneShared(labels, l.sample)
    ensures SpeedLinked(PlaceBlocks(l, labels, keys), labels, placed)
    ensures forall b :: b in keys && EngineSpeed(labels, b) ==> Linked(PlaceBlocks(l, labels, keys), labels, BlockRef(b, 0))
    ensures OneShared(labels, PlaceBlocks(l, labels, keys).sample)
    decreases |keys|
  {
    if keys != [] {
      var b0 := keys[0];
      var placed1 := placed + {BlockRef(b0, 0)};
      PlaceBlockSpeed(l, labels, b0, 0, placed);
      PlaceBlockKeys(l, labels, b0, 0);
      PlaceBlocksSpeed(PlaceBlock(l, labels, b0, 0), labels, keys[1..], placed1);
      var res := PlaceBlocks(l, labels, keys);
      forall b | b in keys && EngineSpeed(labels, b)
        ensures Linked(res, labels, BlockRef(b, 0))
      {
        if b != b0 {
          assert b in keys[1..];
        } else {
          assert BlockRef(b, 0) in placed1 && SpeedHead(labels, BlockRef(b, 0));
        }
      }
    }
  }

  /** changeSampleFormat: the position-0 values of all engine-speed blocks name one and the same sample. */
  lemma ReformatShared(s: Session, b1: int, b2: int)
    requires b1 in s.currentBlocks && b2 in s.currentBlocks
    requires EngineSpeed(s.blockLabels, b1) && EngineSpeed(s.blockLabels, b2)
    ensures b1 in Reformat(s).currentBlocks && b2 in Reformat(s).currentBlocks
    ensures Reformat(s).currentBlocks[b1][0].indexToSampleValue == Reformat(s).currentBlocks[b2][0].indexToSampleValue
  {
    var keys := Ascending(s.currentBlocks.Keys);
    AscendingKeys(s.currentBlocks.Keys);
    var l0 := Layout([], s.currentBlocks);
    PlaceBlocksSpeed(l0, s.blockLabels, keys, {});
    var l := PlaceBlocks(l0, s.blockLabels, keys);
    assert b1 in keys && b2 in keys;
    assert Linked(l, s.blockLabels, BlockRef(b1, 0)) && Linked(l, s.blockLabels, BlockRef(b2, 0));
    assert Reformat(s).currentBlocks == l.blocks;
  }

  /**
   * changeSampleFormat gives every open block four samples of its own,
   * except that the position-0 values of the E engine-speed blocks share
   * one: the list holds 4 * |open| - (E - 1) samples when E > 0.
   */
  lemma ReformatCount(s: Session)
    ensures var e := |set b | b in s.currentBlocks && EngineSpeed(s.blockLabels, b)|;
      |Reformat(s).sample| == 4 * |s.currentBlocks| - (if e > 0 then e - 1 else 0)
  {
    var keys := Ascending(s.currentBlocks.Keys);
    AscendingKeys(s.currentBlocks.Keys);
    AscendingSorted(s.currentBlocks.Keys);
    PlaceBlocksCount(Layout([], s.currentBlocks), s.blockLabels, keys);
    SpeedCountSet(s.blockLabels, keys);
    assert (set b | b in keys && EngineSpeed(s.blockLabels, b)) ==
      (set b | b in s.currentBlocks && EngineSpeed(s.blockLabels, b));
    assert |s.currentBlocks| == |s.currentBlocks.Keys|;
  }

  // ---------------------------------------------------------------- block replies (blockDataHandler, updateSample)

  /** Under Consistent no two values of one block share a sample. */
  lemma ConsistentDistinct(s: Session, b: int, p: int, q: int)
    requires Consistent(s) && b in s.currentBlocks && 0 <= p < 4 && 0 <= q < 4 && p != q
    ensures s.currentBlocks[b][p].indexToSampleValue != s.currentBlocks[b][q].indexToSampleValue
  {
    var n := s.currentBlocks[b][p].indexToSampleValue;
    var m := s.currentBlocks[b][q].indexToSampleValue;
    assert BlockRef(b, p) in s.sample[n].refs;
    assert BlockRef(b, q) in s.sample[m].refs;
  }

  lemma ConsistentIndexed(s: Session)
    requires Consistent(s)
    ensures Indexed(s)
  {
    forall b | b in s.currentBlocks
      ensures IndexesIn(s, b)
    {
      forall p | 0 <= p < 4
        ensures 0 <= s.currentBlocks[b][p].indexToSampleValue < |s.sample|
      {
        assert BlockRef(b, p) in s.sample[s.currentBlocks[b][p].indexToSampleValue].refs;
      }
    }
  }

  /** updateSample changes values only: every sample keeps its list of block values. */
  lemma {:induction false} RefreshKeepsRefs(sample: seq<SampleValue>, slots: Slots, i: nat)
    requires i <= 4
    requires forall p :: 0 <= p < 4 ==> 0 <= slots[p].indexToSampleValue < |sample|
    ensures forall n :: 0 <= n < |sample| ==> Refresh(sample, slots, i)[n].refs == sample[n].refs
    decreases 4 - i
  {
    if i < 4 {
      var n := slots[i].indexToSampleValue;
      RefreshKeepsRefs(sample[n := sample[n].(val := slots[i].val)], slots, i + 1);
    }
  }

  /**
   * updateSample from position i on: a sample named by one of the values
   * i..3 takes that value, every other sample keeps its value.
   */
  lemma {:induction false} RefreshValues(sample: seq<SampleValue>, slots: Slots, i: nat)
    requires i <= 4
    requires forall p :: 0 <= p < 4 ==> 0 <= slots[p].indexToSampleValue < |sample|
    requires forall p, q :: 0 <= p < q < 4 ==> slots[p].indexToSampleValue != slots[q].indexToSampleValue
    ensures forall p :: i <= p < 4 ==> Refresh(sample, slots, i)[slots[p].indexToSampleValue].val == slots[p].val
    ensures forall n :: 0 <= n < |sample| && (forall p :: i <= p < 4 ==> slots[p].indexToSampleValue != n) ==>
      Refresh(sample, slots, i)[n] == sample[n]
    decreases 4 - i
  {
    if i < 4 {
      var n := slots[i].indexToSampleValue;
      var next := sample[n := sample[n].(val := slots[i].val)];
      RefreshValues(next, slots, i + 1);
    }
  }

  /** Polling the next block touches neither the open blocks nor the samples. */
  lemma ReadNextKeeps(s: Session)
    ensures ReadNext(s).currentBlocks == s.currentBlocks && ReadNext(s).sample == s.sample
    ensures ReadNext(s).blockLabels == s.blockLabels
    ensures s.calls <= ReadNext(s).calls
  {
    var keys := Ascending(s.currentBlocks.Keys);
    if keys != [] {
      var k := if s.nextBlock >= |keys| then 0 else s.nextBlock;
      var t := Call(s.(nextBlock := k + 1), Send([0x21, keys[k] % 256], s.fastRecvTimeout));
      assert ReadNext(s) == t;
    }
  }

  /** New values with the old indexes, copied into their samples, keep the sample list consistent. */
  lemma RefreshedConsistent(s: Session, param: int, slots: Slots)
    requires Consistent(s) && param in s.currentBlocks
    requires forall p :: 0 <= p < 4 ==> slots[p].indexToSampleValue == s.currentBlocks[param][p].indexToSampleValue
    ensures IndexesIn(s.(currentBlocks := s.currentBlocks[param := slots]), param)
    ensures Consistent(Refreshed(s.(currentBlocks := s.currentBlocks[param := slots]), param))
  {
    ConsistentIndexed(s);
    var s1 := s.(currentBlocks := s.currentBlocks[param := slots]);
    assert IndexesIn(s, param);
    RefreshKeepsRefs(s.sample, slots, 0);
    var s2 := Refreshed(s1, param);
    forall b, p | b in s2.currentBlocks && 0 <= p < 4
      ensures 0 <= s2.currentBlocks[b][p].indexToSampleValue < |s2.sample|
      ensures BlockRef(b, p) in s2.sample[s2.currentBlocks[b][p].indexToSampleValue].refs
    {
      assert s2.currentBlocks[b][p].indexToSampleValue == s.currentBlocks[b][p].indexToSampleValue;
      assert BlockRef(b, p) in s.sample[s.currentBlocks[b][p].indexToSampleValue].refs;
    }
    forall n, r | 0 <= n < |s2.sample| && r in s2.sample[n].refs
      ensures r.pos == s2.sample[n].refs[0].pos
    {
      assert s2.sample[n].refs == s.sample[n].refs;
    }
  }

  /** blockDataHandler keeps the sample list consistent with the open blocks. */
  lemma StoredConsistent(s: Session, param: byte, data: seq<byte>)
    requires Consistent(s)
    ensures param in s.currentBlocks ==> IndexesIn(s, param)
    ensures Consistent(Stored(s, param, data))
  {
    ConsistentIndexed(s);
    if param in s.currentBlocks {
      var slots := Decode4(s.currentBlocks[param], data);
      RefreshedConsistent(s, param, slots);
      ReadNextKeeps(Refreshed(s.(currentBlocks := s.currentBlocks[param := slots]), param));
    } else {
      ReadNextKeeps(s);
    }
  }

  /**
   * A reply to block `param` stores the four decoded values in the block
   * and in the samples that stand for them; the other samples keep their
   * values.
   */
  lemma StoredValues(s: Session, param: byte, data: seq<byte>)
    requires Consistent(s) && param in s.currentBlocks
    ensures IndexesIn(s, param)
    ensures Stored(s, param, data).currentBlocks == s.currentBlocks[param := Decode4(s.currentBlocks[param], data)]
    ensures forall p :: 0 <= p < 4 ==>
      Stored(s, param, data).sample[s.currentBlocks[param][p].indexToSampleValue].val == Decode4(s.currentBlocks[param], data)[p].val
    ensures forall n :: 0 <= n < |s.sample| && (forall p :: 0 <= p < 4 ==> s.currentBlocks[param][p].indexToSampleValue != n) ==>
      Stored(s, param, data).sample[n] == s.sample[n]
  {
    ConsistentIndexed(s);
    var slots := Decode4(s.currentBlocks[param], data);
    forall p, q | 0 <= p < q < 4
      ensures slots[p].indexToSampleValue != slots[q].indexToSampleValue
    {
      ConsistentDistinct(s, param, p, q);
    }
    RefreshValues(s.sample, slots, 0);
    ReadNextKeeps(Refreshed(s.(currentBlocks := s.currentBlocks[param := slots]), param));
  }

  // ---------------------------------------------------------------- opening and closing blocks

  /** Reformatting an empty set of blocks leaves no sample. */
  lemma ReformatEmpty(s: Session)
    requires s.currentBlocks == map[]
    ensures Reformat(s).currentBlocks == map[] && Reformat(s).sample == []
  {
    AscendingKeys(s.currentBlocks.Keys);
  }

  /**
   * openBlock adds the block (its values kept when it was open already),
   * rebuilds a consistent sample list and leaves the blocks being read;
   * it sends the first poll only when polling was not running yet.
   */
  lemma WithBlockOpens(s: Session, b: int)
    ensures WithBlock(s, b).currentBlocks.Keys == s.currentBlocks.Keys + {b}
    ensures Consistent(WithBlock(s, b))
    ensures WithBlock(s, b).readingBlocks
    ensures s.calls <= WithBlock(s, b).calls
    ensures forall k, p :: k in s.currentBlocks && 0 <= p < 4 ==>
      Bare(WithBlock(s, b).currentBlocks[k][p]) == Bare(s.currentBlocks[k][p])
    ensures b !in s.currentBlocks ==> forall p :: 0 <= p < 4 ==> Bare(WithBlock(s, b).currentBlocks[b][p]) == NewValue
    ensures s.readingBlocks ==> WithBlock(s, b).calls == s.calls
    ensures !s.readingBlocks ==> |WithBlock(s, b).calls| == |s.calls| + 1
  {
    WithBlockValues(s, b);
    var s0 := if b in s.currentBlocks then s else s.(currentBlocks := s.currentBlocks[b := FreshSlots]);
    ReformatConsistent(s0);
    assert b in Reformat(s0).currentBlocks;
    StartReadingKeeps(Reformat(s0));
  }

  /** openBlock keeps the values of the blocks open already, and a new block starts from fresh values. */
  lemma WithBlockValues(s: Session, b: int)
    ensures WithBlock(s, b).currentBlocks.Keys == s.currentBlocks.Keys + {b}
    ensures forall k, p :: k in s.currentBlocks && 0 <= p < 4 ==>
      Bare(WithBlock(s, b).currentBlocks[k][p]) == Bare(s.currentBlocks[k][p])
    ensures b !in s.currentBlocks ==> forall p :: 0 <= p < 4 ==> Bare(WithBlock(s, b).currentBlocks[b][p]) == NewValue
  {
    var s0 := if b in s.currentBlocks then s else s.(currentBlocks := s.currentBlocks[b := FreshSlots]);
    var r := Reformat(s0);
    PlaceBlocksKeepValues(Layout([], s0.currentBlocks), s0.blockLabels, Ascending(s0.currentBlocks.Keys));
    assert SameValues(r.currentBlocks, s0.currentBlocks);
    if !r.readingBlocks {
      ReadNextKeeps(r.(readingBlocks := true));
    }
    OpenedValues(WithBlock(s, b).currentBlocks, s.currentBlocks, b);
  }

  /** Blocks with the values of m, b added with fresh values when it was missing. */
  lemma OpenedValues(t: map<int, Slots>, m: map<int, Slots>, b: int)
    requires SameValues(t, if b in m then m else m[b := FreshSlots])
    ensures t.Keys == m.Keys + {b}
    ensures forall k, p :: k in m && 0 <= p < 4 ==> Bare(t[k][p]) == Bare(m[k][p])
    ensures b !in m ==> forall p :: 0 <= p < 4 ==> Bare(t[b][p]) == NewValue
  {
    var m0 := if b in m then m else m[b := FreshSlots];
    forall k, p | k in m && 0 <= p < 4
      ensures Bare(t[k][p]) == Bare(m[k][p])
    {
      assert m0[k] == m[k];
    }
    if b !in m {
      forall p | 0 <= p < 4
        ensures Bare(t[b][p]) == NewValue
      {
        assert m0[b] == FreshSlots;
      }
    }
  }

  /** Starting the polling of a nonempty set of blocks leaves it running and keeps the sample list. */
  lemma StartReadingKeeps(s: Session)
    requires Consistent(s) && s.currentBlocks != map[]
    ensures StartReading(s).currentBlocks == s.currentBlocks && StartReading(s).sample == s.sample
    ensures StartReading(s).readingBlocks && Consistent(StartReading(s))
    ensures s.calls <= StartReading(s).calls
    ensures s.readingBlocks ==> StartReading(s).calls == s.calls
    ensures !s.readingBlocks ==> |StartReading(s).calls| == |s.calls| + 1
  {
    if !s.readingBlocks {
      var s2 := s.(readingBlocks := true);
      ReadNextKeeps(s2);
      AscendingKeys(s2.currentBlocks.Keys);
    }
  }

  /** closeBlock drops the block numbered b % 256 and rebuilds a consistent sample list. */
  lemma WithoutBlockCloses(s: Session, b: int)
    ensures WithoutBlock(s, b).currentBlocks.Keys == s.currentBlocks.Keys - {b % 256}
    ensures Consistent(WithoutBlock(s, b))
    ensures WithoutBlock(s, b).calls == s.calls
  {
    ReformatConsistent(s.(currentBlocks := s.currentBlocks - {b % 256}));
  }

  /** closeAllBlocks leaves no block and no sample. */
  lemma WithoutBlocksEmpty(s: Session)
    ensures WithoutBlocks(s).currentBlocks == map[] && WithoutBlocks(s).sample == []
    ensures Consistent(WithoutBlocks(s))
  {
    ReformatEmpty(s.(currentBlocks := map[]));
  }

  // ---------------------------------------------------------------- polling (readBlocks)

  /** The requests for the blocks of `keys`, one after the other. */
  function Requests(keys: seq<int>, timeout: int): (r: seq<TpCall>)
    ensures |r| == |keys|
  {
    seq(|keys|, j requires 0 <= j < |keys| => Send([0x21, keys[j] % 256], timeout))
  }

  /** readBlocks called n times. */
  function Polls(s: Session, n: nat): Session
    decreases n
  {
    if n == 0 then s else Polls(ReadNext(s), n - 1)
  }

  /** A poll before the end of the open blocks asks for the block at nextBlock and moves on. */
  lemma ReadNextAt(s: Session)
    requires s.nextBlock < |Ascending(s.currentBlocks.Keys)|
    ensures ReadNext(s) == s.(nextBlock := s.nextBlock + 1,
      calls := s.calls + [Send([0x21, Ascending(s.currentBlocks.Keys)[s.nextBlock] % 256], s.fastRecvTimeout)])
  {
  }

  /**
   * From position m, n polls ask for the blocks m .. m + n - 1 in key
   * order, each once, and change nothing else.
   */
  lemma {:induction false} PollsInOrder(s: Session, n: nat)
    requires s.nextBlock + n <= |Ascending(s.currentBlocks.Keys)|
    ensures Polls(s, n) == s.(nextBlock := s.nextBlock + n,
      calls := s.calls + Requests(Ascending(s.currentBlocks.Keys)[s.nextBlock..s.nextBlock + n], s.fastRecvTimeout))
    decreases n
  {
    if n > 0 {
      var keys := Ascending(s.currentBlocks.Keys);
      var m := s.nextBlock;
      ReadNextAt(s);
      var s1 := ReadNext(s);
      PollsInOrder(s1, n - 1);
      RequestsFirst(keys, m, n, s.fastRecvTimeout);
    }
  }

  lemma RequestsFirst(keys: seq<int>, m: nat, n: nat, timeout: int)
    requires 0 < n && m + n <= |keys|
    ensures Requests(keys[m..m + n], timeout) == [Send([0x21, keys[m] % 256], timeout)] + Requests(keys[m + 1..m + n], timeout)
  {
  }

  /** One full round from the start asks for every open block once, in key order. */
  lemma PollRound(s: Session)
    requires s.nextBlock == 0
    ensures Polls(s, |s.currentBlocks|).calls == s.calls + Requests(Ascending(s.currentBlocks.Keys), s.fastRecvTimeout)
    ensures Polls(s, |s.currentBlocks|).nextBlock == |s.currentBlocks|
  {
    AscendingKeys(s.currentBlocks.Keys);
    PollsInOrder(s, |s.currentBlocks|);
    assert Ascending(s.currentBlocks.Keys)[0..|s.currentBlocks|] == Ascending(s.currentBlocks.Keys);
  }

  /** Past the last open block, polling starts over with the first. */
  lemma PollWraps(s: Session)
    requires s.currentBlocks != map[] && s.nextBlock >= |s.currentBlocks|
    ensures ReadNext(s).calls == s.calls + [Send([0x21, Ascending(s.currentBlocks.Keys)[0] % 256], s.fastRecvTimeout)]
    ensures ReadNext(s).nextBlock == 1
  {
    AscendingKeys(s.currentBlocks.Keys);
  }

  /** With no block open, polling stops and asks for nothing. */
  lemma PollStops(s: Session)
    requires s.currentBlocks == map[]
    ensures ReadNext(s).calls == s.calls && !ReadNext(s).readingBlocks && ReadNext(s).nextBlock == 0
  {
    AscendingKeys(s.currentBlocks.Keys);
  }

  // ---------------------------------------------------------------- replies (recvKWP)

  /** shortIdHandler touches neither the blocks, the samples nor the calls. */
  lemma ShortIdReadKeeps(s: Session, data: seq<byte>)
    ensures ShortIdRead(s, data).currentBlocks == s.currentBlocks && ShortIdRead(s, data).sample == s.sample
    ensures ShortIdRead(s, data).calls == s.calls
  {
    match ShortIds(data, 0)
    case None => assert ShortIdRead(s, data) == s.(hung := true);
    case Some(ids) => assert ShortIdRead(s, data) == s.(ecuPartNum := ids);
  }

  /**
   * longIdHandler touches neither the blocks nor the samples, records the
   * part number read from the reply, and adds one call: the request for
   * the short ids (0x1A 0x91).
   */
  lemma LongIdReadKeeps(s: Session, data: seq<byte>)
    ensures LongIdRead(s, data).currentBlocks == s.currentBlocks && LongIdRead(s, data).sample == s.sample
    ensures s.calls <= LongIdRead(s, data).calls
    ensures LongIdRead(s, data).calls == s.calls + [Send([0x1A, 0x91], s.slowRecvTimeout)]
    ensures LongIdRead(s, data).modulePartNum == LongIds(data)
  {
    var s1 := s.(modulePartNum := LongIds(data));
    var s2 := Labelled(s1);
    assert s2.currentBlocks == s.currentBlocks && s2.sample == s.sample && s2.calls == s.calls;
    assert LongIdRead(s, data) == Call(s2, Send([0x1A, 0x91], s.slowRecvTimeout));
  }

  /** queryModulesHandler touches neither the blocks nor the samples. */
  lemma ModulesListedKeeps(s: Session, data: seq<byte>)
    ensures ModulesListed(s, data).currentBlocks == s.currentBlocks && ModulesListed(s, data).sample == s.sample
    ensures s.calls <= ModulesListed(s, data).calls
  {
    match Records(data, 0)
    case None => assert ModulesListed(s, data) == s.(hung := true);
    case Some(list) => assert ModulesListed(s, data) == Call(TableRead(s, list), Close);
  }

  /** A block reply (0x61) is handed to blockDataHandler with its block number. */
  lemma DispatchBlockReply(s: Session, data: Option<seq<byte>>)
    requires Indexed(s) && data.Some? && |data.value| >= 2 && data.value[0] == 0x61
    ensures data.value[1] in s.currentBlocks ==> IndexesIn(s, data.value[1])
    ensures Dispatch(s, data) == Stored(s, data.value[1], data.value[2..])
  {
  }

  /** Consistency depends on the open blocks and the samples only. */
  lemma ConsistentSameBlocks(a: Session, b: Session)
    requires Consistent(a) && a.currentBlocks == b.currentBlocks && a.sample == b.sample
    ensures Consistent(b)
  {
  }

  /**
   * Whatever arrives, recvKWP keeps the sample list consistent with the
   * open blocks and only adds calls to the transport.
   */
  lemma DispatchConsistent(s: Session, data: Option<seq<byte>>)
    requires Consistent(s)
    ensures Indexed(s)
    ensures Consistent(Dispatch(s, data))
    ensures s.calls <= Dispatch(s, data).calls
  {
    ConsistentIndexed(s);
    if data.Some? && |data.value| >= 2 && data.value[0] == 0x61 {
      DispatchBlockReply(s, data);
      StoredConsistent(s, data.value[1], data.value[2..]);
      StoredCalls(s, data.value[1], data.value[2..]);
    } else {
      DispatchKeepsBlocks(s, data);
      ConsistentSameBlocks(s, Dispatch(s, data));
    }
  }

  /**
   * blockDataHandler adds at most the next poll to the calls: exactly
   * one for an open block. A reply for a block that is not open is
   * ignored, and polling goes on.
   */
  lemma StoredCalls(s: Session, param: byte, data: seq<byte>)
    requires param in s.currentBlocks ==> IndexesIn(s, param)
    ensures s.calls <= Stored(s, param, data).calls
    ensures |Stored(s, param, data).calls| <= |s.calls| + 1
    ensures param in s.currentBlocks ==> |Stored(s, param, data).calls| == |s.calls| + 1
    ensures param !in s.currentBlocks ==> Stored(s, param, data) == ReadNext(s)
  {
    if param in s.currentBlocks {
      var slots := Decode4(s.currentBlocks[param], data);
      ReadNextKeeps(Refreshed(s.(currentBlocks := s.currentBlocks[param := slots]), param));
    } else {
      ReadNextKeeps(s);
    }
  }

  /** Only a block reply (0x61) changes the open blocks or the samples, and no reply takes back a call. */
  lemma DispatchKeepsBlocks(s: Session, data: Option<seq<byte>>)
    requires Indexed(s)
    requires data.None? || |data.value| < 2 || data.value[0] != 0x61
    ensures Dispatch(s, data).currentBlocks == s.currentBlocks && Dispatch(s, data).sample == s.sample
    ensures s.calls <= Dispatch(s, data).calls
  {
    if data.None? || |data.value| < 2 {
      assert Dispatch(s, data) == Call(s, Close);
    } else {
      var code, param, rest := data.value[0], data.value[1], data.value[2..];
      if code == 0x5A && param == 0x91 {
        ShortIdReadKeeps(s, rest);
        assert Dispatch(s, data) == ShortIdRead(s, rest);
      } else if code == 0x5A && param == 0x9B {
        LongIdReadKeeps(s, rest);
        assert Dispatch(s, data) == LongIdRead(s, rest);
      } else if code == 0x5A && param == 0x9F {
        ModulesListedKeeps(s, rest);
        assert Dispatch(s, data) == ModulesListed(s, rest);
      } else if code == 0x50 {
        assert Dispatch(s, data) == Call(s, Send([0x1A, 0x9B], s.slowRecvTimeout));
      } else {
        assert Dispatch(s, data) == s;
      }
    }
  }

  /**
   * recvKWP routes a reply by its response code and parameter: a missing
   * or short reply closes the channel; 0x50 asks for the long ids; 0x5A
   * with 0x91, 0x9B or 0x9F goes to the short id, long id or module list
   * handler; 0x61 stores a block; a negative response, another 0x5A
   * parameter or another code changes nothing.
   */
  lemma DispatchRoutes(s: Session, data: Option<seq<byte>>)
    requires Indexed(s)
    ensures data.None? || |data.value| < 2 ==> Dispatch(s, data) == Call(s, Close)
    ensures data.Some? && |data.value| >= 2 ==>
      var code, param, rest := data.value[0], data.value[1], data.value[2..];
      && (code == 0x50 ==> Dispatch(s, data) == Call(s, Send([0x1A, 0x9B], s.slowRecvTimeout)))
      && (code == 0x5A && param == 0x91 ==> Dispatch(s, data) == ShortIdRead(s, rest))
      && (code == 0x5A && param == 0x9B ==> Dispatch(s, data) == LongIdRead(s, rest))
      && (code == 0x5A && param == 0x9F ==> Dispatch(s, data) == ModulesListed(s, rest))
      && (code == 0x61 ==> Dispatch(s, data) == Stored(s, param, rest))
      && (code == 0x5A && param != 0x91 && param != 0x9B && param != 0x9F ==> Dispatch(s, data) == s)
      && (code != 0x50 && code != 0x5A && code != 0x61 ==> Dispatch(s, data) == s)
  {
  }

  /** A negative response (0x7F) changes nothing. */
  lemma DispatchNegative(s: Session, data: seq<byte>)
    requires Indexed(s) && |data| >= 2 && data[0] == 0x7F
    ensures Dispatch(s, Some(data)) == s
  {
  }

  // ---------------------------------------------------------------- the channel (channelOpenSlot, openChannel)

  /** A closed channel leaves no module selected, no part number, no block and no sample, and sends nothing. */
  lemma ChannelClosed(s: Session, dest: int)
    ensures ChannelStatus(s, false, dest).currentBlocks == map[] && ChannelStatus(s, false, dest).sample == []
    ensures ChannelStatus(s, false, dest).destModule == -1 && ChannelStatus(s, false, dest).modulePartNum == []
    ensures ChannelStatus(s, false, dest).calls == s.calls
  {
    var s1 := s.(destModule := -1, modulePartNum := []);
    WithoutBlocksEmpty(s1);
    var s2 := s1.(currentBlocks := map[]);
    assert Reformat(s2) == s2.(sample := Reformat(s2).sample, currentBlocks := Reformat(s2).currentBlocks,
      blockLabels := Reformat(s2).blockLabels);
  }

  /**
   * An open channel asks the gateway (31) for the module list while a
   * refresh is due, and otherwise starts a diagnostic session (0x89);
   * either way the sample list stays consistent.
   */
  lemma ChannelOpened(s: Session, dest: int)
    requires Consistent(s)
    ensures dest == 31 && s.doModuleRefresh ==> ChannelStatus(s, true, dest).calls == s.calls + [Send([0x1A, 0x9F], s.slowRecvTimeout)]
    ensures !(dest == 31 && s.doModuleRefresh) ==> ChannelStatus(s, true, dest).calls == s.calls + [Send([0x10, 0x89], s.slowRecvTimeout)]
    ensures Consistent(ChannelStatus(s, true, dest))
  {
    if dest == 31 && s.doModuleRefresh {
      assert ChannelStatus(s, true, dest) == Call(s, Send([0x1A, 0x9F], s.slowRecvTimeout));
    } else {
      assert ChannelStatus(s, true, dest) == Call(s, Send([0x10, 0x89], s.slowRecvTimeout));
    }
    ConsistentSameBlocks(s, ChannelStatus(s, true, dest));
  }

  /** Closing the channel keeps the sample list consistent too. */
  lemma ChannelClosedConsistent(s: Session, dest: int)
    ensures Consistent(ChannelStatus(s, false, dest))
  {
    ChannelClosed(s, dest);
  }

  /**
   * openChannel does nothing while a channel is open or for module 0;
   * otherwise it selects the module, drops its labels and opens the
   * address the module list gives, or the module number itself.
   */
  lemma ConnectOpens(s: Session, i: int, dest: int)
    ensures dest >= 0 || i == 0 ==> Connect(s, i, dest) == s
    ensures dest < 0 && i != 0 ==>
      Connect(s, i, dest).destModule == i && Connect(s, i, dest).blockLabels == map[] &&
      Connect(s, i, dest).calls == s.calls + [Open(if i in s.moduleList then s.moduleList[i].addr else i, s.normRecvTimeout)]
    ensures Connect(s, i, dest).currentBlocks == s.currentBlocks && Connect(s, i, dest).sample == s.sample
  {
  }
}
