/**
 * The byte and text formats the KWP2000 handlers read: length-prefixed
 * records (interpretRawData), identification strings, the 4-byte
 * entries of the module list, part numbers and the lines of label files.
 * Each reader is paired here with a writer or an independent description
 * and a lemma relating the two.
 */
module Kwp2000Formats {
  import opened Util
  import opened Kwp2000

  // ---------------------------------------------------------------- length-prefixed records

  /** Records a length byte can describe: the byte is the length plus one, neither 0 nor 0xFF. */
  ghost predicate Encodable(recs: seq<seq<byte>>) {
    forall j :: 0 <= j < |recs| ==> |recs[j]| <= 253
  }

  /** Each record behind its length byte: the layout interpretRawData takes apart. */
  function Encode(recs: seq<seq<byte>>): (raw: seq<byte>)
    requires Encodable(recs)
  {
    if recs == [] then [] else [|recs[0]| + 1] + recs[0] + Encode(recs[1..])
  }

  /** The record at raw[i] is the same wherever raw is placed. */
  lemma RecordShift(p: seq<byte>, raw: seq<byte>, i: nat)
    requires i < |raw|
    ensures Record(p + raw, |p| + i) == Record(raw, i)
  {
    var q := p + raw;
    var k := |p| + i;
    assert q[k] == raw[i];
    var end := if raw[i] == 0 then i + 1 else i + raw[i];
    if end <= |raw| {
      assert q[k + 1..|p| + end] == raw[i + 1..end];
    } else {
      assert q[k + 1..] == raw[i + 1..];
    }
  }

  /** The records from raw[i] on do not depend on what comes before raw. */
  lemma {:induction false} RecordsShift(p: seq<byte>, raw: seq<byte>, i: nat)
    ensures Records(p + raw, |p| + i) == Records(raw, i)
    decreases |raw| - i
  {
    if i < |raw| {
      assert (p + raw)[|p| + i] == raw[i];
      if raw[i] != 0xFF && raw[i] != 0 {
        RecordShift(p, raw, i);
        RecordsShift(p, raw, i + raw[i]);
      }
    }
  }

  /** One record behind its length byte, then whatever follows. */
  lemma RecordsCons(r0: seq<byte>, after: seq<byte>)
    requires |r0| <= 253
    ensures Records([|r0| + 1] + r0 + after, 0) == Glue([r0], Records(after, 0))
  {
    var n := |r0| + 1;
    var head: seq<byte> := [n] + r0;
    var raw := head + after;
    assert raw[0] == n;
    assert raw[1..n] == r0;
    assert Record(raw, 0) == r0;
    RecordsShift(head, after, 0);
  }

  lemma GlueGlue<T>(a: seq<T>, b: seq<T>, rest: Option<seq<T>>)
    ensures Glue(a, Glue(b, rest)) == Glue(a + b, rest)
  {
    if rest.Some? {
      assert a + (b + rest.value) == (a + b) + rest.value;
    }
  }

  /** Reading encoded records in front of a tail gives the records, then what the tail gives. */
  lemma {:induction false} RecordsEncode(recs: seq<seq<byte>>, tail: seq<byte>)
    requires Encodable(recs)
    ensures Records(Encode(recs) + tail, 0) == Glue(recs, Records(tail, 0))
  {
    if recs == [] {
      GlueEnds(recs, Records(tail, 0));
      assert Encode(recs) + tail == tail;
    } else {
      var r0, rest := recs[0], recs[1..];
      assert Encodable(rest);
      var after := Encode(rest) + tail;
      assert Encode(recs) + tail == [|r0| + 1] + r0 + after;
      RecordsCons(r0, after);
      RecordsEncode(rest, tail);
      GlueGlue([r0], rest, Records(tail, 0));
      assert [r0] + rest == recs;
    }
  }

  /** interpretRawData gives back the records it is handed, with or without the 0xFF end mark. */
  lemma RecordsRoundTrip(recs: seq<seq<byte>>, junk: seq<byte>)
    requires Encodable(recs)
    ensures Records(Encode(recs), 0) == Some(recs)
    ensures Records(Encode(recs) + [0xFF] + junk, 0) == Some(recs)
  {
    GlueEnds(recs, None);
    RecordsEncode(recs, []);
    assert Encode(recs) + [] == Encode(recs);
    RecordsEncode(recs, [0xFF] + junk);
    assert Encode(recs) + [0xFF] + junk == Encode(recs) + ([0xFF] + junk);
  }

  /** A length byte 0 after the records makes interpretRawData loop forever. */
  lemma RecordsHang(recs: seq<seq<byte>>, junk: seq<byte>)
    requires Encodable(recs)
    ensures Records(Encode(recs) + [0] + junk, 0) == None
  {
    RecordsEncode(recs, [0] + junk);
    assert Encode(recs) + [0] + junk == Encode(recs) + ([0] + junk);
  }

  // ---------------------------------------------------------------- identification strings

  /** Each record read as text with its trailing spaces chopped. */
  function TrimmedIds(recs: seq<seq<byte>>): (ids: seq<string>)
    ensures |ids| == |recs|
  {
    seq(|recs|, j requires 0 <= j < |recs| => TrimSpaces(Chars(recs[j])))
  }

  lemma TrimmedIdsCons(r: seq<byte>, rest: seq<seq<byte>>)
    ensures TrimmedIds([r] + rest) == [TrimSpaces(Chars(r))] + TrimmedIds(rest)
  {
  }

  /** shortIdHandler reads the records interpretRawData finds, each trimmed. */
  lemma {:induction false} ShortIdsAreRecords(data: seq<byte>, i: nat)
    ensures ShortIds(data, i).None? <==> Records(data, i).None?
    ensures Records(data, i).Some? ==> ShortIds(data, i).value == TrimmedIds(Records(data, i).value)
    decreases |data| - i
  {
    if i < |data| && data[i] != 0xFF && data[i] != 0 {
      var j := i + data[i];
      ShortIdsAreRecords(data, j);
      if Records(data, j).Some? {
        TrimmedIdsCons(Record(data, i), Records(data, j).value);
      }
    }
  }

  // ---------------------------------------------------------------- the module list

  /** Every entry of a module table is filed under its own number, with its name and a 4-bit status. */
  ghost predicate WellFormed(table: map<int, ModuleInfo>) {
    forall k :: k in table ==>
      table[k].number == k && table[k].addr != 0x13 && table[k].name == NameOf(k) && 0 <= table[k].status < 16
  }

  /** The module list ends on an entry boundary exactly when its length from i is a multiple of 4. */
  lemma {:induction false} ModuleTableAligned(rec: seq<byte>, i: nat, table: map<int, ModuleInfo>)
    requires i <= |rec|
    ensures ModuleTable(rec, i, table).1 <==> (|rec| - i) % 4 == 0
    decreases |rec| - i
  {
    if i + 4 <= |rec| {
      var t := if Listed(rec, i) then table[rec[i] := Entry(rec, i)] else table;
      assert ModuleTable(rec, i, table) == ModuleTable(rec, i + 4, t);
      ModuleTableAligned(rec, i + 4, t);
    }
  }

  /** Reading entries keeps a table well formed. */
  lemma {:induction false} ModuleTableWellFormed(rec: seq<byte>, i: nat, table: map<int, ModuleInfo>)
    requires WellFormed(table)
    ensures WellFormed(ModuleTable(rec, i, table).0)
    decreases |rec| - i
  {
    if i + 4 <= |rec| {
      var t := if Listed(rec, i) then table[rec[i] := Entry(rec, i)] else table;
      assert ModuleTable(rec, i, table) == ModuleTable(rec, i + 4, t);
      ModuleTableWellFormed(rec, i + 4, t);
    }
  }

  /** A listed entry (status not 0, address not 0x13) at a multiple of 4 from i carries module k. */
  ghost predicate ListedAt(rec: seq<byte>, i: nat, k: int) {
    exists j :: i <= j && j + 4 <= |rec| && (j - i) % 4 == 0 && Listed(rec, j) && rec[j] == k
  }

  lemma ListedAtStep(rec: seq<byte>, i: nat, k: int)
    ensures i + 4 <= |rec| ==> (ListedAt(rec, i, k) <==> (Listed(rec, i) && rec[i] == k) || ListedAt(rec, i + 4, k))
    ensures i + 4 > |rec| ==> !ListedAt(rec, i, k)
  {
    if i + 4 <= |rec| {
      if ListedAt(rec, i + 4, k) {
        var j :| i + 4 <= j && j + 4 <= |rec| && (j - (i + 4)) % 4 == 0 && Listed(rec, j) && rec[j] == k;
        assert (j - i) % 4 == 0;
      }
      if ListedAt(rec, i, k) {
        var j :| i <= j && j + 4 <= |rec| && (j - i) % 4 == 0 && Listed(rec, j) && rec[j] == k;
        if j != i {
          assert (j - (i + 4)) % 4 == 0;
        }
      }
    }
  }

  /** A module number is in the table exactly when it was there before or a listed entry from i on carries it. */
  lemma {:induction false} ModuleTableKeys(rec: seq<byte>, i: nat, table: map<int, ModuleInfo>, k: int)
    ensures k in ModuleTable(rec, i, table).0 <==> k in table || ListedAt(rec, i, k)
    decreases |rec| - i
  {
    ListedAtStep(rec, i, k);
    if i + 4 <= |rec| {
      var t := if Listed(rec, i) then table[rec[i] := Entry(rec, i)] else table;
      assert ModuleTable(rec, i, table) == ModuleTable(rec, i + 4, t);
      ModuleTableKeys(rec, i + 4, t, k);
    } else {
      assert ModuleTable(rec, i, table).0 == table;
    }
  }

  /** m is what a listed entry at a multiple of 4 from i says about module k. */
  ghost predicate EntryFrom(rec: seq<byte>, i: nat, k: int, m: ModuleInfo) {
    exists j :: i <= j && j + 4 <= |rec| && (j - i) % 4 == 0 && Listed(rec, j) && rec[j] == k && m == Entry(rec, j)
  }

  lemma EntryFromStep(rec: seq<byte>, i: nat, k: int, m: ModuleInfo)
    requires EntryFrom(rec, i + 4, k, m)
    ensures EntryFrom(rec, i, k, m)
  {
    var j :| i + 4 <= j && j + 4 <= |rec| && (j - (i + 4)) % 4 == 0 && Listed(rec, j) && rec[j] == k && m == Entry(rec, j);
    assert (j - i) % 4 == 0;
  }

  /** Every entry of the table read from i on was there before or comes from a listed entry of the list. */
  lemma {:induction false} ModuleTableEntries(rec: seq<byte>, i: nat, table: map<int, ModuleInfo>, k: int)
    ensures var r := ModuleTable(rec, i, table).0;
      k in r ==> (k in table && r[k] == table[k]) || EntryFrom(rec, i, k, r[k])
    decreases |rec| - i
  {
    if i + 4 <= |rec| {
      var t := if Listed(rec, i) then table[rec[i] := Entry(rec, i)] else table;
      var r := ModuleTable(rec, i, table).0;
      assert r == ModuleTable(rec, i + 4, t).0;
      ModuleTableEntries(rec, i + 4, t, k);
      if k in r {
        if EntryFrom(rec, i + 4, k, r[k]) {
          EntryFromStep(rec, i, k, r[k]);
        } else if Listed(rec, i) && k == rec[i] {
          assert r[k] == Entry(rec, i);
        }
      }
    }
  }

  /**
   * The table queryModulesHandler builds from nothing: well formed, ended
   * on an entry boundary exactly when the list's length is a multiple of
   * 4, and holding for each module number the last listed entry that
   * carries it, with the presence flag and status taken from its bits.
   */
  lemma ModulesRead(rec: seq<byte>)
    ensures WellFormed(ModuleTable(rec, 0, map[]).0)
    ensures ModuleTable(rec, 0, map[]).1 <==> |rec| % 4 == 0
    ensures var table := ModuleTable(rec, 0, map[]).0;
      forall k :: k in table ==> EntryFrom(rec, 0, k, table[k])
    ensures forall k :: k in ModuleTable(rec, 0, map[]).0 <==> ListedAt(rec, 0, k)
  {
    ModuleTableWellFormed(rec, 0, map[]);
    ModuleTableAligned(rec, 0, map[]);
    var table := ModuleTable(rec, 0, map[]).0;
    forall k | k in table
      ensures EntryFrom(rec, 0, k, table[k])
    {
      ModuleTableEntries(rec, 0, map[], k);
    }
    forall k
      ensures k in table <==> ListedAt(rec, 0, k)
    {
      ModuleTableKeys(rec, 0, map[], k);
    }
  }

  /**
   * queryModulesHandler: a list of exactly two records whose first has
   * a length divisible by 4 replaces the module table, clears
   * doModuleRefresh and closes the channel; a list of any other count
   * or a misaligned first record only closes the channel, and the
   * misaligned one leaves doModuleRefresh as it was.
   */
  lemma ModulesListedSpec(s: Session, data: seq<byte>)
    ensures var n := ModulesListed(s, data); var recs := Records(data, 0);
      && (recs.None? ==> n == s.(hung := true))
      && (recs.Some? ==> n.calls == s.calls + [Close] && n.hung == s.hung)
      && (recs.Some? && |recs.value| == 2 ==>
            n.moduleList == ModuleTable(recs.value[0], 0, map[]).0
            && n.doModuleRefresh == (s.doModuleRefresh && |recs.value[0]| % 4 != 0))
      && (recs.Some? && |recs.value| != 2 ==> n == s.(calls := s.calls + [Close]))
  {
    match Records(data, 0)
    case None =>
    case Some(list) =>
      if |list| == 2 {
        ModuleTableAligned(list[0], 0, map[]);
      }
  }

  // ---------------------------------------------------------------- part numbers

  /** The groups of three, put back together, are the token. */
  lemma {:induction false} ChunksJoin(t: string)
    ensures Join(Chunks(t), "") == t
    decreases |t|
  {
    if |t| > 3 {
      ChunksJoin(t[3..]);
      assert t[..3] + "" + t[3..] == t;
    }
  }

  /** Every group has three characters but the last, which has one to three. */
  lemma {:induction false} ChunksSizes(t: string)
    ensures |Chunks(t)| == (|t| + 2) / 3
    ensures forall j :: 0 <= j < |Chunks(t)| ==> 1 <= |Chunks(t)[j]| <= 3
    ensures forall j :: 0 <= j < |Chunks(t)| - 1 ==> |Chunks(t)[j]| == 3
    decreases |t|
  {
    if |t| > 3 {
      ChunksSizes(t[3..]);
      assert Chunks(t) == [t[..3]] + Chunks(t[3..]);
    }
  }

  // ---------------------------------------------------------------- label-file text

  /** Joining the parts of a split with the separator gives back the line. */
  lemma {:induction false} SplitJoin(s: string, c: char)
    ensures Join(Split(s, c), [c]) == s
    ensures forall j :: 0 <= j < |Split(s, c)| ==> c !in Split(s, c)[j]
    decreases |s|
  {
    if s != [] {
      var rest := Split(s[1..], c);
      SplitJoin(s[1..], c);
      if s[0] == c {
        assert Split(s, c) == [""] + rest;
        assert [c] + s[1..] == s;
      } else {
        var parts := Split(s, c);
        assert parts == [[s[0]] + rest[0]] + rest[1..];
        if |rest| == 1 {
          assert [s[0]] + rest[0] == s;
        } else {
          assert parts[1..] == rest[1..];
          assert Join(rest, [c]) == rest[0] + [c] + Join(rest[1..], [c]);
          assert [s[0]] + rest[0] + [c] + Join(rest[1..], [c]) == s;
        }
        forall j | 0 <= j < |parts|
          ensures c !in parts[j]
        {
          if j > 0 {
            assert parts[j] == rest[j];
          }
        }
      }
    }
  }

  /** Unescape keeps the empty string empty, and otherwise starts with a newline or with s[0]. */
  lemma UnescapeHead(s: string)
    ensures s == [] <==> Unescape(s) == []
    ensures |s| >= 2 && s[0] == '\\' && s[1] == 'n' ==> Unescape(s)[0] == '\n'
    ensures s != [] && !(|s| >= 2 && s[0] == '\\' && s[1] == 'n') ==> Unescape(s)[0] == s[0]
  {
  }

  /** After the replacement no backslash-n pair is left. */
  lemma {:induction false} UnescapeNoPair(s: string)
    ensures forall i :: 0 <= i < |Unescape(s)| - 1 ==> !(Unescape(s)[i] == '\\' && Unescape(s)[i + 1] == 'n')
    decreases |s|
  {
    if |s| >= 2 && s[0] == '\\' && s[1] == 'n' {
      UnescapeNoPair(s[2..]);
      assert Unescape(s) == "\n" + Unescape(s[2..]);
    } else if s != [] {
      UnescapeNoPair(s[1..]);
      UnescapeHead(s[1..]);
      var u := Unescape(s);
      assert u == [s[0]] + Unescape(s[1..]);
      forall i | 0 <= i < |u| - 1
        ensures !(u[i] == '\\' && u[i + 1] == 'n')
      {
        if i > 0 {
          assert u[i] == Unescape(s[1..])[i - 1] && u[i + 1] == Unescape(s[1..])[i];
        }
      }
    }
  }

  /** A line without a backslash is left as it is. */
  lemma {:induction false} UnescapePlain(s: string)
    requires '\\' !in s
    ensures Unescape(s) == s
    decreases |s|
  {
    if s != [] {
      assert s[0] != '\\';
      assert '\\' !in s[1..] by {
        forall i | 0 <= i < |s| - 1
          ensures s[1..][i] != '\\'
        {
          assert s[1..][i] == s[i + 1];
        }
      }
      UnescapePlain(s[1..]);
    }
  }

  /** A label line adds at most one block, numbered 0 to 255, and removes none. */
  lemma LabelLineKeys(c: LabelCursor, line: string)
    ensures c.labels.Keys <= LabelLine(c, line).labels.Keys
    ensures forall k :: k in LabelLine(c, line).labels && k !in c.labels ==> 0 <= k <= 255
  {
  }

  /** A description line's block and position fields read as a block 0..255 and a position 0..4. */
  predicate Accepted(parts: seq<string>) {
    && |parts| >= 3
    && ToInt(parts[0]).Some? && 0 <= ToInt(parts[0]).value <= 255
    && ToInt(parts[1]).Some? && 0 <= ToInt(parts[1]).value <= 4
  }

  /**
   * A line that starts with a digit changes the labels only when it has at
   * least three comma fields, a block 0..255 and a position 0..4. Then
   * only that block's entry changes (created empty if missing): position 0
   * names the block; position p sets desc[p - 1] to the third field, and
   * subDesc[p - 1] and longDesc[p - 1] (with "\n" unescaped) to the fourth
   * and fifth fields when they are present. The line becomes the one a
   * binary description line refers to.
   */
  lemma DescriptionLineSpec(c: LabelCursor, line: string)
    requires line != [] && '0' <= line[0] <= '9'
    ensures var parts := Split(line, ',');
      !Accepted(parts) ==> LabelLine(c, line).labels == c.labels
    ensures var parts := Split(line, ',');
      Accepted(parts) ==>
        var bn, pn := ToInt(parts[0]).value, ToInt(parts[1]).value;
        var l := if bn in c.labels then c.labels[bn] else NoLabels;
        var r := LabelLine(c, line);
        && r.blockNum == bn && r.pos == pn
        && r.labels.Keys == c.labels.Keys + {bn}
        && (forall k :: k in c.labels && k != bn ==> r.labels[k] == c.labels[k])
        && (pn == 0 ==> r.labels[bn] == l.(blockName := parts[2]))
        && (pn > 0 ==>
             && r.labels[bn].blockName == l.blockName && r.labels[bn].binDesc == l.binDesc
             && r.labels[bn].desc == l.desc[pn - 1 := parts[2]]
             && r.labels[bn].subDesc == (if |parts| > 3 then l.subDesc[pn - 1 := parts[3]] else l.subDesc)
             && r.labels[bn].longDesc == (if |parts| > 4 then l.longDesc[pn - 1 := Unescape(parts[4])] else l.longDesc))
  {
  }

  /**
   * A ";...=..." line after an accepted description line of block b and
   * position p appends the text after its first two characters and a
   * newline to binDesc[p - 1]; after position 0, to longDesc[3], where
   * binDesc[-1] lies. Nothing else changes.
   */
  lemma BinaryLineSpec(c: LabelCursor, line: string)
    requires |line| >= 2 && line[0] == ';' && '=' in line
    requires c.blockNum in c.labels && 0 <= c.blockNum <= 255 && 0 <= c.pos <= 4
    ensures var l := c.labels[c.blockNum];
      var r := LabelLine(c, line);
      && r.blockNum == c.blockNum && r.pos == c.pos
      && r.labels == c.labels[c.blockNum := r.labels[c.blockNum]]
      && r.labels[c.blockNum].blockName == l.blockName && r.labels[c.blockNum].desc == l.desc
      && r.labels[c.blockNum].subDesc == l.subDesc
      && (c.pos == 0 ==> r.labels[c.blockNum].longDesc == l.longDesc[3 := l.longDesc[3] + (line[2..] + "\n")]
                         && r.labels[c.blockNum].binDesc == l.binDesc)
      && (c.pos > 0 ==> r.labels[c.blockNum].binDesc == l.binDesc[c.pos - 1 := l.binDesc[c.pos - 1] + (line[2..] + "\n")]
                        && r.labels[c.blockNum].longDesc == l.longDesc)
  {
  }

  /** A label file only adds labels for block numbers 0 to 255, and removes none. */
  lemma {:induction false} LabelLinesKeys(c: LabelCursor, lines: seq<string>)
    ensures c.labels.Keys <= LabelLines(c, lines).labels.Keys
    ensures forall k :: k in LabelLines(c, lines).labels && k !in c.labels ==> 0 <= k <= 255
    decreases |lines|
  {
    if lines != [] {
      LabelLineKeys(c, lines[0]);
      LabelLinesKeys(LabelLine(c, lines[0]), lines[1..]);
    }
  }
}
