/**
 * What the TP 2.0 transport promises, stated over the functions of
 * module Tp20: the command scan and the reply verdict, the sequence
 * check, the timeout command, the channel handshake, segmentation of
 * outgoing payloads and reassembly of incoming ones.
 */
module Tp20Properties {
  import opened Util
  import opened Elm327
  import opened Tp20

  // ---------------------------------------------------------------- checkForCommands

  /** The position of the first disconnect or break among the frames, |frames| when there is none. */
  function FirstBreak(frames: seq<CanFrame>): (k: nat)
    ensures k <= |frames|
    ensures k < |frames| ==> IsDisconnect(frames[k])
    ensures forall j :: 0 <= j < k ==> !IsDisconnect(frames[j])
    decreases |frames|
  {
    if frames == [] then 0
    else if IsDisconnect(frames[0]) then 0
    else 1 + FirstBreak(frames[1..])
  }

  /** The scan's result from a position on, as CommandLoopSpec states it. */
  predicate ScanAgrees(rest: seq<CanFrame>, kept: seq<CanFrame>, tests: nat) {
    var c := CommandLoop(rest, kept, tests); var k := FirstBreak(rest);
    && (c.broke <==> k < |rest|)
    && c.kept == kept + NonTests(rest[..k]) + rest[k..]
    && c.tests == tests + TestCount(rest[..k])
  }

  /** A frame that is not a disconnect: the scan over the rest, with that frame counted or kept, gives the scan from it. */
  lemma ScanStep(rest: seq<CanFrame>, kept: seq<CanFrame>, tests: nat)
    requires rest != [] && !IsDisconnect(rest[0])
    requires IsChannelTest(rest[0]) ==> ScanAgrees(rest[1..], kept, tests + 1)
    requires !IsChannelTest(rest[0]) ==> ScanAgrees(rest[1..], kept + [rest[0]], tests)
    ensures ScanAgrees(rest, kept, tests)
  {
    var k := FirstBreak(rest);
    var tail := rest[1..];
    var pre := rest[..k];
    assert k == 1 + FirstBreak(tail);
    assert pre[1..] == tail[..k - 1] && pre[0] == rest[0];
    assert rest[k..] == tail[k - 1..];
    assert NonTests(pre) == (if IsChannelTest(rest[0]) then [] else [rest[0]]) + NonTests(tail[..k - 1]);
    assert TestCount(pre) == (if IsChannelTest(rest[0]) then 1 else 0) + TestCount(tail[..k - 1]);
    if IsChannelTest(rest[0]) {
      assert NonTests(pre) == NonTests(tail[..k - 1]);
    } else {
      assert kept + [rest[0]] + NonTests(tail[..k - 1]) == kept + NonTests(pre);
    }
  }

  /**
   * checkForCommands removes every channel test before the first
   * disconnect, answering each, and stops at that disconnect, leaving it
   * and everything after it in place.
   */
  lemma {:induction false} CommandLoopSpec(rest: seq<CanFrame>, kept: seq<CanFrame>, tests: nat)
    ensures var c := CommandLoop(rest, kept, tests); var k := FirstBreak(rest);
      && (c.broke <==> k < |rest|)
      && c.kept == kept + NonTests(rest[..k]) + rest[k..]
      && c.tests == tests + TestCount(rest[..k])
    decreases |rest|
  {
    var k := FirstBreak(rest);
    if rest == [] {
      assert rest[..k] == [] && rest[k..] == [];
    } else if IsDisconnect(rest[0]) {
      assert k == 0 && rest[..k] == [] && rest[k..] == rest;
    } else {
      if IsChannelTest(rest[0]) {
        CommandLoopSpec(rest[1..], kept, tests + 1);
      } else {
        CommandLoopSpec(rest[1..], kept + [rest[0]], tests);
      }
      ScanStep(rest, kept, tests);
    }
  }

  /** The scan of a whole reply. */
  lemma CommandsSpec(frames: seq<CanFrame>)
    ensures var c := Commands(frames); var k := FirstBreak(frames);
      && (c.broke <==> exists i :: 0 <= i < |frames| && IsDisconnect(frames[i]))
      && c.kept == NonTests(frames[..k]) + frames[k..]
      && c.tests == TestCount(frames[..k])
      && (!c.broke ==> c.kept == NonTests(frames) && c.tests == TestCount(frames))
  {
    var k := FirstBreak(frames);
    CommandLoopSpec(frames, [], 0);
    assert [] + NonTests(frames[..k]) == NonTests(frames[..k]);
    if k == |frames| {
      assert frames[..k] == frames;
      assert frames[k..] == [];
    } else {
      assert IsDisconnect(frames[k]);
    }
  }

  /** NonTests keeps exactly the frames that are not channel tests. */
  lemma {:induction false} NonTestsSpec(frames: seq<CanFrame>)
    ensures forall f :: f in NonTests(frames) <==> f in frames && !IsChannelTest(f)
    ensures |NonTests(frames)| + TestCount(frames) == |frames|
    decreases |frames|
  {
    if frames != [] {
      NonTestsSpec(frames[1..]);
      assert frames == [frames[0]] + frames[1..];
    }
  }

  // ---------------------------------------------------------------- getResponseCAN

  /**
   * getResponseCAN's verdict on the next reply: a disconnect closes the
   * channel and fails; otherwise the channel tests are answered and
   * dropped, and the call succeeds exactly when a reply was expected and
   * one came with no status bits, or none was expected and the adapter
   * said "NO DATA" (or said nothing and only channel tests came).
   */
  lemma CanCallSpec(s: Link, replyExpected: bool)
    ensures var r := ReplyAt(s.replies, 0); var o := CanCall(s, replyExpected);
      var broke := exists i :: 0 <= i < |r.frames| && IsDisconnect(r.frames[i]);
      && (broke ==> !o.ok && o.s.channelDest == -1)
      && (!broke ==> o.s.lastResponse == NonTests(r.frames) && o.s.channelDest == s.channelDest
                     && o.s.written == s.written + Repeat(Text("A3"), TestCount(r.frames)))
      && (replyExpected ==> (o.ok <==> !broke && r.status == {} && NonTests(r.frames) != []))
      && (!replyExpected ==>
            (o.ok <==> !broke && (r.status == {NoDataResponse} || (r.status == {} && NonTests(r.frames) == []))))
  {
    var r := ReplyAt(s.replies, 0);
    CommandsSpec(r.frames);
    var kept := Commands(r.frames).kept;
    if kept == [] && !replyExpected {
      assert r.status + {NoDataResponse} == {NoDataResponse} <==> r.status == {} || r.status == {NoDataResponse} by {
        if r.status + {NoDataResponse} == {NoDataResponse} && r.status != {} {
          var g :| g in r.status;
          assert g in r.status + {NoDataResponse};
        }
      }
    }
  }

  // ---------------------------------------------------------------- applyRecvTimeout

  /** A byte-sized value prints as two hex digits that read back as it. */
  lemma TwoDigits(n: UInt32)
    requires n < 256
    ensures |ToHexUnsigned(n)| == 2 && FromHex(ToHexUnsigned(n)) == n
  {
    assert ToHexUnsigned(n) == ToHex(n, 2);
    PowSixteen();
    ToHexFixed(n, 2);
    FromHexToHex(n, 2);
  }

  /**
   * applyRecvTimeout clamps the timeout to 0..1020 ms and sends it as
   * "AT ST" with two hex digits counting units of 4 ms; the timeout in
   * force becomes the clamped one when the adapter answers OK, -1
   * otherwise.
   */
  lemma TimeoutCallSpec(s: Link, msecs: int)
    ensures 0 <= ClampTimeout(msecs) <= 1020
    ensures 0 <= msecs <= 1020 ==> ClampTimeout(msecs) == msecs
    ensures var cmd := TimeoutCommand(msecs);
      |cmd| == 8 && cmd[..6] == "AT ST " && FromHex(cmd[6..]) == ClampTimeout(msecs) / 4
    ensures var o := TimeoutCall(s, msecs);
      && o.ok == ReplyAt(s.replies, 0).ok
      && o.s.written == s.written + [Text(TimeoutCommand(msecs))]
      && o.s.recvTimeout == (if o.ok then ClampTimeout(msecs) else -1)
      && o.s.replies == Skip(s.replies, 1)
  {
    var h := ToHexUnsigned(ClampTimeout(msecs) / 4);
    TwoDigits(ClampTimeout(msecs) / 4);
    assert TimeoutCommand(msecs)[6..] == h;
  }

  // ---------------------------------------------------------------- checkSeq

  /** The j-th of the segments carries the low nibble of base + j. */
  predicate Numbered(c: seq<CanFrame>, base: nat) {
    forall j :: 0 <= j < |c| ==> GetAsDT(c[j]).seqNo == (base + j) % 16
  }

  /** A numbering from base is the head's nibble followed by a numbering from base + 1. */
  lemma NumberedCons(c: seq<CanFrame>, base: nat)
    requires c != []
    ensures Numbered(c, base) <==> GetAsDT(c[0]).seqNo == base % 16 && Numbered(c[1..], base + 1)
  {
    if GetAsDT(c[0]).seqNo == base % 16 && Numbered(c[1..], base + 1) {
      forall j | 0 <= j < |c| ensures GetAsDT(c[j]).seqNo == (base + j) % 16 {
        if j > 0 { assert c[j] == c[1..][j - 1]; }
      }
    }
    if Numbered(c, base) {
      forall j | 0 <= j < |c| - 1 ensures GetAsDT(c[1..][j]).seqNo == (base + 1 + j) % 16 {
        assert c[1..][j] == c[j + 1];
      }
    }
  }

  /** rxSeq is a quint8 counter: it is base modulo 256, and its low nibble is base's. */
  lemma CounterStep(rx: byte, base: nat)
    requires rx == base % 256
    ensures Inc(rx) == (base + 1) % 256
    ensures rx % 16 == base % 16
  {
    var q := base / 256;
    if rx < 255 {
      Mod256Of(base + 1, q, rx + 1);
    } else {
      Mod256Of(base + 1, q + 1, 0);
    }
    Mod16Of(base, 16 * q + rx / 16, rx % 16);
  }

  /** x = 256 q + r with 0 <= r < 256 leaves remainder r. */
  lemma Mod256Of(x: int, q: int, r: int)
    requires 0 <= r < 256 && x == 256 * q + r
    ensures x % 256 == r
  {
  }

  /** x = 16 q + r with 0 <= r < 16 leaves remainder r. */
  lemma Mod16Of(x: int, q: int, r: int)
    requires 0 <= r < 16 && x == 16 * q + r
    ensures x % 16 == r
  {
  }

  /** One compared segment: the head's check and the rest's, under the numbering from base. */
  lemma SeqStep(frames: seq<CanFrame>, rx: byte, base: nat)
    requires frames != [] && Op(frames[0]) <= 3 && rx == base % 256
    requires var t := SeqCheck(frames[1..], Inc(rx));
      && (t.ok <==> Numbered(Compared(frames[1..]), base + 1))
      && (t.ok ==> t.rxSeq == (base + 1 + |Compared(frames[1..])|) % 256)
    ensures SeqCheck(frames, rx).ok <==> Numbered(Compared(frames), base)
    ensures SeqCheck(frames, rx).ok ==> SeqCheck(frames, rx).rxSeq == (base + |Compared(frames)|) % 256
  {
    var c := Compared(frames);
    assert c == [frames[0]] + Compared(frames[1..]);
    assert c[1..] == Compared(frames[1..]);
    CounterStep(rx, base);
    NumberedCons(c, base);
  }

  /** checkSeq with rxSeq standing for the count base. */
  lemma {:induction false} SeqCheckFrom(frames: seq<CanFrame>, rx: byte, base: nat)
    requires rx == base % 256
    ensures SeqCheck(frames, rx).ok <==> Numbered(Compared(frames), base)
    ensures SeqCheck(frames, rx).ok ==> SeqCheck(frames, rx).rxSeq == (base + |Compared(frames)|) % 256
    decreases |frames|
  {
    if frames == [] {
      assert Compared(frames) == [];
    } else if Op(frames[0]) > 3 {
      SeqCheckFrom(frames[1..], rx, base);
      assert Compared(frames) == [] + Compared(frames[1..]) == Compared(frames[1..]);
      assert SeqCheck(frames, rx) == SeqCheck(frames[1..], rx);
    } else {
      CounterStep(rx, base);
      SeqCheckFrom(frames[1..], Inc(rx), base + 1);
      SeqStep(frames, rx, base);
    }
  }

  /**
   * checkSeq accepts a batch exactly when the j-th segment it compares
   * carries the low nibble of rx + j, and then rxSeq has advanced once
   * per compared segment, as a quint8.
   */
  lemma SeqCheckSpec(frames: seq<CanFrame>, rx: byte)
    ensures SeqCheck(frames, rx).ok <==> Numbered(Compared(frames), rx)
    ensures SeqCheck(frames, rx).ok ==> SeqCheck(frames, rx).rxSeq == (rx + |Compared(frames)|) % 256
  {
    SeqCheckFrom(frames, rx, rx);
  }

  // ---------------------------------------------------------------- openChannel, closeChannel, sendKeepAlive

  /** The setup reply: accepted ones fix the receive identifier at 0x300, refused ones close the channel. */
  lemma SetupReplySpec(c: Outcome)
    requires c.ok ==> c.s.lastResponse != []
    ensures var o := SetupReply(c);
      && o.s.txSeq == c.s.txSeq && o.s.rxSeq == c.s.rxSeq && o.s.bs == c.s.bs
      && o.s.written == c.s.written && o.s.replies == c.s.replies
      && (o.ok ==> c.ok && o.s.rxID == 0x300 && o.s.channelDest == c.s.channelDest
                   && |c.s.lastResponse| == 1 && SetupAccepted(GetAsCS(c.s.lastResponse[0])))
      && (!o.ok ==> o.s.channelDest == -1)
  {
  }

  /** The parameter reply: accepted ones set a block size that fits a nibble, refused ones close the channel. */
  lemma ParamReplySpec(c: Outcome)
    requires c.ok ==> c.s.lastResponse != []
    ensures var o := ParamReply(c);
      && o.s.txSeq == c.s.txSeq && o.s.rxSeq == c.s.rxSeq && o.s.rxID == c.s.rxID
      && o.s.written == c.s.written && o.s.replies == c.s.replies
      && (o.ok ==> c.ok && o.s.bs <= 15 && o.s.channelDest == c.s.channelDest
                   && o.s.bs == GetAsCP(c.s.lastResponse[0]).bs && ParamAccepted(GetAsCP(c.s.lastResponse[0])))
      && (!o.ok ==> o.s.channelDest == -1)
  {
  }

  /**
   * openChannel on an adapter that is not initialised does nothing;
   * otherwise the channel ends either closed or open to `dest`, with both
   * sequence numbers restarted, a block size that fits a nibble and the
   * receive identifier 0x300.
   */
  lemma OpenSpec(s: Link, dest: Int32, timeout: int)
    ensures var o := Open(s, dest, timeout);
      && (!s.elmInitilised ==> o == s)
      && (s.elmInitilised ==>
            o.channelDest == -1 ||
            (o.channelDest == dest && o.txSeq == 0 && o.rxSeq == 0 && o.bs <= 15 && o.rxID == 0x300))
  {
    if s.elmInitilised {
      var b := Address(s, dest, timeout);
      if b.ok {
        OpenSetupSpec(b.s, dest);
      }
    }
  }

  lemma OpenSetupSpec(s: Link, dest: Int32)
    ensures var o := OpenSetup(s, dest);
      o.channelDest == -1 || (o.channelDest == dest && o.txSeq == 0 && o.rxSeq == 0 && o.bs <= 15 && o.rxID == 0x300)
  {
    var s0 := s.(rxSeq := 0, txSeq := 0);
    var c := CanCall(Write(s0, Text(SetupRequest(dest))), true);
    SetupReplySpec(c);
    var u := SetupReply(c);
    if u.ok {
      var d := SetIds(u.s, u.s.txID, u.s.rxID);
      if d.ok {
        ParamReplySpec(CanCall(Write(d.s, Text(ParamRequest)), true));
      }
    }
  }

  /**
   * sendKeepAlive leaves a closed channel alone; on an open one the
   * channel test's reply either renews the parameters, with a block size
   * that fits a nibble and the channel still open, or closes it.
   */
  lemma KeepAliveSpec(s: Link)
    ensures var k := KeepAlive(s);
      && (s.channelDest < 0 ==> k == s)
      && (s.channelDest >= 0 ==> k.channelDest == -1 || (k.channelDest == s.channelDest && k.bs <= 15))
      && k.txSeq == s.txSeq && k.rxSeq == s.rxSeq
  {
    if s.channelDest >= 0 {
      ParamReplySpec(CanCall(Write(s, Text("A3")), true));
    }
  }

  /** closeChannel sends "A8", reads one reply and leaves the channel closed whatever the reply. */
  lemma CloseSpec(s: Link)
    ensures var c := Close(s);
      && c.channelDest == -1
      && c.written[..|s.written| + 1] == s.written + [Text("A8")]
      && (|c.replies| < |s.replies| || s.replies == [])
  {
    var w := Write(s, Text("A8"));
    var r := ReplyAt(w.replies, 0);
    CommandsSpec(r.frames);
  }

  // ---------------------------------------------------------------- sendData: segmentation

  /** Segments i, i + 1, ... run together. */
  function Segments(buf: seq<byte>, i: nat): seq<byte>
    requires 7 * i < |buf|
    decreases |buf| - 7 * i
  {
    if |buf| - 7 * i <= 7 then Segment(buf, i) else Segment(buf, i) + Segments(buf, i + 1)
  }

  /** The segments are the buffer cut into pieces of one to seven bytes, in order. */
  lemma {:induction false} SegmentsJoin(buf: seq<byte>, i: nat)
    requires 7 * i < |buf|
    ensures Segments(buf, i) == buf[7 * i..]
    ensures 1 <= |Segment(buf, i)| <= 7
    decreases |buf| - 7 * i
  {
    if |buf| - 7 * i > 7 {
      SegmentsJoin(buf, i + 1);
      assert buf[7 * i..] == buf[7 * i..7 * i + 7] + buf[7 * (i + 1)..];
    }
  }

  /**
   * A packet is at most eight bytes: its control byte reads back as the
   * segment's opcode and the low nibble of the sequence number, and the
   * rest is the segment. The opcode is 1 on the last segment, 0 on every
   * bs-th one before it and 2 on the others.
   */
  lemma PacketSpec(buf: seq<byte>, i: nat, bs: byte, seqNo: byte, id: int)
    requires 7 * i < |buf|
    requires bs != 0 || |buf| - 7 * i <= 7
    ensures var p := Packet(buf, i, bs, seqNo);
      && 2 <= |p| <= 8 && p[1..] == Segment(buf, i)
      && GetAsDT(CanFrame(id, |p|, p)) == DataTrans(SegmentOp(|buf|, i, bs), seqNo % 16)
    ensures SegmentOp(|buf|, i, bs) == 1 <==> i == SegmentCount(|buf|) - 1
    ensures SegmentOp(|buf|, i, bs) == 0 <==> i < SegmentCount(|buf|) - 1 && i % bs == bs - 1
  {
    SegmentsJoin(buf, i);
    if bs != 0 { AckDueMod(i, bs); }
    var p := Packet(buf, i, bs, seqNo);
    ControlRoundTrip(SegmentOp(|buf|, i, bs), seqNo % 16, CanFrame(id, |p|, p));
  }

  /**
   * The length header masks the low byte of the length with 0x0F rather
   * than 0xFF, so the length a receiver reads from the first segment is
   * the payload's length only when that low byte is below 16.
   */
  lemma HeaderQuirk(n: nat)
    requires n < 0x10000
    ensures Header(n)[0] == n / 256
    ensures Header(n)[1] == n % 16
    ensures (Header(n)[0] as int) * 256 + Header(n)[1] == n <==> n % 256 < 16
  {
    var q := n / 256;
    assert n == 256 * q + n % 256;
    assert n % 256 == 16 * ((n % 256) / 16) + n % 16 && n % 16 == (n % 256) % 16 by {
      assert n == 16 * (16 * q + (n % 256) / 16) + (n % 256) % 16;
    }
  }

  /** The first segment carries the header and so a length a receiver decodes with getAsDTFirst. */
  lemma FirstSegmentLength(data: seq<byte>, bs: byte, seqNo: byte, id: int)
    requires 0 < |data| < 0x10000
    requires bs != 0 || |data| + 2 <= 7
    ensures var p := Packet(Framed(data), 0, bs, seqNo);
      |p| > 2 && (GetAsDTFirst(CanFrame(id, |p|, p)).len == |data| <==> |data| % 256 < 16)
  {
    var buf := Framed(data);
    var p := Packet(buf, 0, bs, seqNo);
    SegmentsJoin(buf, 0);
    assert p[1] == buf[0] && p[2] == buf[1];
    HeaderQuirk(|data|);
  }

  // ---------------------------------------------------------------- sendData: the segment loop

  /** The channel of t is that of s, or closed (setChannelClosed). */
  predicate KeepsOrCloses(s: Link, t: Link) {
    t.channelDest == s.channelDest || t.channelDest == -1
  }

  /**
   * The reply to an ACK-requesting segment lets the send go on: read
   * without error, a single frame, opcode 0xB, and the sequence number
   * of the next segment.
   */
  predicate AckedBy(c: Outcome, next: byte) {
    c.ok && |c.s.lastResponse| == 1 && Op(c.s.lastResponse[0]) == 0xB
    && GetAsDT(c.s.lastResponse[0]).seqNo == next % 16
  }

  /**
   * checkACK: a segment that asks for an ACK lets the send go on exactly
   * when the reply to it is read without error and is one frame with
   * opcode 0xB carrying the sequence number of the next segment.
   */
  lemma SendSegmentAck(s: Link, buf: seq<byte>, i: nat)
    requires 7 * i < |buf|
    requires s.bs != 0 || |buf| - 7 * i <= 7
    requires |buf| - 7 * i > 7 && AckDue(i, s.bs)
    ensures var c := CanCall(Write(s.(txSeq := Inc(s.txSeq)), Frame(Packet(buf, i, s.bs, s.txSeq))), true);
      SendSegment(s, buf, i).ok <==> AckedBy(c, Inc(s.txSeq))
  {
  }

  /** Adding to a quint8 counter wraps the same way in one step or two. */
  lemma ByteSum(a: nat, k: nat)
    ensures ((a % 256) + k) % 256 == (a + k) % 256
  {
    var q := a / 256;
    assert a + k == 256 * q + ((a % 256) + k);
  }

  /** Incrementing a quint8 n times adds n modulo 256. */
  lemma {:induction false} AdvanceSpec(t: byte, n: nat)
    ensures Advance(t, n) == (t + n) % 256
    decreases n
  {
    if n > 0 {
      AdvanceSpec(Inc(t), n - 1);
      ByteSum(t + 1, n - 1);
    }
  }

  /** A timeout change that the adapter refuses closes the channel, and only "AT ST" has been sent. */
  lemma SendTimeoutFails(s: Link, data: seq<byte>, timeout: int)
    requires SendSafe(s, data)
    requires s.channelDest >= 0 && 0 < |data| <= 65535 && !TimeoutFor(s, timeout).ok
    ensures var t := Send(s, data, timeout);
      && s.recvTimeout != timeout
      && t.channelDest == -1 && t.written == s.written + [Text(TimeoutCommand(timeout))]
  {
    TimeoutCallSpec(s, timeout);
    assert Send(s, data, timeout) == Closed(TimeoutFor(s, timeout).s);
  }

  /**
   * sendData does nothing on a closed channel or for an empty or
   * over-long payload; a timeout change the adapter refuses closes the
   * channel after "AT ST" alone; otherwise the channel stays as it was
   * or is closed, and the command log only grows.
   */
  lemma SendSpec(s: Link, data: seq<byte>, timeout: int)
    requires SendSafe(s, data)
    ensures var t := Send(s, data, timeout);
      && (s.channelDest < 0 || |data| == 0 || |data| > 65535 ==> t == s)
      && s.written <= t.written
      && KeepsOrCloses(s, t)
    ensures s.channelDest >= 0 && 0 < |data| <= 65535 && !TimeoutFor(s, timeout).ok ==>
      var t := Send(s, data, timeout);
      && s.recvTimeout != timeout
      && t.channelDest == -1 && t.written == s.written + [Text(TimeoutCommand(timeout))]
  {
    if !(s.channelDest < 0 || |data| == 0 || |data| > 65535) {
      var o := TimeoutFor(s, timeout);
      if !o.ok {
        SendTimeoutFails(s, data, timeout);
      } else {
        var buf := Framed(data);
        var w := SendLoop(o.s, buf, 0);
        if w.ok {
          RecvGrows(w.s);
        }
      }
    }
  }

  // ---------------------------------------------------------------- recvData

  /** getResponseCAN and the ACK leave the emitted messages alone and only append to the log. */
  lemma CanCallKeeps(s: Link, replyExpected: bool)
    ensures var o := CanCall(s, replyExpected);
      o.s.emitted == s.emitted && s.written <= o.s.written && o.s.hung == s.hung && KeepsOrCloses(s, o.s)
  {
  }

  /**
   * A batch ending in opcode 1 or 3 emits the message collected so far
   * with the batch's payloads appended; one ending in 2 goes on to the
   * next turn with that message; one ending in 0 keeps it for the batch
   * after the ACK; an invalid batch stops without emitting.
   */
  lemma DeliverSpec(s: Link, ret: seq<byte>)
    requires s.lastResponse != []
    ensures var n := Deliver(s, ret); var f := s.lastResponse;
      var msg := ret + Joined(f); var op := Op(f[|f| - 1]);
      && (!BatchValid(f) ==> n == Stop(s))
      && (BatchValid(f) && (op == 1 || op == 3) ==> n.s.emitted == s.emitted + [msg])
      && (BatchValid(f) && op == 3 ==> !n.going)
      && (BatchValid(f) && op == 2 ==> n == Next(true, s, msg, false, false))
      && (BatchValid(f) && op == 0 ==> n.s.emitted == s.emitted && (n.going && !n.first ==> n.msg == msg))
      && (BatchValid(f) && op <= 1 ==>
            |s.written| < |n.s.written| && n.s.written[|s.written|] == Frame([0xB * 16 + s.rxSeq % 16]))
  {
    var f := s.lastResponse;
    var msg := ret + Joined(f);
    if BatchValid(f) {
      var op := Op(f[|f| - 1]);
      var e := if op == 1 then s.(emitted := s.emitted + [msg]) else s;
      AckTurnKeeps(e, msg, op == 0);
      if op <= 1 {
        AckTurnSpec(e, msg, op == 0);
      }
    }
  }

  /** Delivering a batch never takes back an emitted message or a logged command, and keeps or closes the channel. */
  lemma DeliverGrows(s: Link, ret: seq<byte>)
    requires s.lastResponse != []
    ensures var n := Deliver(s, ret); s.emitted <= n.s.emitted && s.written <= n.s.written && KeepsOrCloses(s, n.s)
  {
    var f := s.lastResponse;
    if BatchValid(f) {
      var msg := ret + Joined(f);
      var op := Op(f[|f| - 1]);
      var e := if op == 1 then s.(emitted := s.emitted + [msg]) else s;
      AckTurnKeeps(e, msg, op == 0);
    }
  }

  /** The ACK at the end of a batch emits nothing, only appends to the log, and keeps or closes the channel. */
  lemma AckTurnKeeps(s: Link, msg: seq<byte>, more: bool)
    ensures var n := AckTurn(s, msg, more); n.s.emitted == s.emitted && s.written <= n.s.written && KeepsOrCloses(s, n.s)
  {
    CanCallKeeps(Write(s, Frame([0xB0 + s.rxSeq % 16])), more);
  }

  /**
   * sendACK at the end of a batch: the first command it writes is the
   * ACK frame, opcode 0xB with the low nibble of rxSeq. A read ACK goes on
   * collecting the message when more segments follow and ends the turn
   * otherwise; a failed read that still brought frames starts a new
   * message with them; a failed read with no frames stops.
   */
  lemma AckTurnSpec(s: Link, msg: seq<byte>, more: bool)
    ensures var n := AckTurn(s, msg, more); var a := AckCall(s, more);
      && |s.written| < |n.s.written| && n.s.written[|s.written|] == Frame([0xB * 16 + s.rxSeq % 16])
      && (a.ok && more ==> n.going && !n.first && n.msg == msg && n.s == a.s)
      && (a.ok && !more ==> !n.going)
      && (!a.ok && a.s.lastResponse != [] ==> n.going && n.first && n.newBatch && n.s == a.s)
      && (!a.ok && a.s.lastResponse == [] ==> !n.going)
  {
    var w := Write(s, Frame([0xB0 + s.rxSeq % 16]));
    CanCallKeeps(w, more);
    assert w.written == s.written + [Frame([0xB0 + s.rxSeq % 16])];
  }

  /** One turn never takes back an emitted message or a logged command, and keeps or closes the channel. */
  lemma StepGrows(s: Link, ret: seq<byte>, first: bool, newBatch: bool)
    requires !first ==> s.lastResponse != []
    ensures var n := Step(s, ret, first, newBatch);
      s.emitted <= n.s.emitted && s.written <= n.s.written && KeepsOrCloses(s, n.s)
  {
    if !(first && !(|s.lastResponse| > 0 && |s.lastResponse[0].data| > 2)) {
      var b := Begin(s, first);
      if b.ok && newBatch {
        DeliverGrows(b.s, if first then [] else ret);
      }
    }
  }

  /** recvData's loop only appends to the emitted messages and the command log, and keeps or closes the channel. */
  lemma {:induction false} RecvLoopGrows(s: Link, ret: seq<byte>, first: bool, newBatch: bool)
    requires first ==> newBatch
    requires !first ==> s.lastResponse != []
    ensures var t := RecvLoop(s, ret, first, newBatch);
      s.emitted <= t.emitted && s.written <= t.written && KeepsOrCloses(s, t)
    decreases |s.replies|, (if newBatch then 1 else 0)
  {
    var n := Step(s, ret, first, newBatch);
    StepGrows(s, ret, first, newBatch);
    if n.going {
      RecvLoopGrows(n.s, n.msg, n.first, n.newBatch);
    }
  }

  /** recvData as a whole only appends to the emitted messages and the command log, and keeps or closes the channel. */
  lemma RecvGrows(s: Link)
    ensures s.emitted <= Recv(s).emitted && s.written <= Recv(s).written && KeepsOrCloses(s, Recv(s))
  {
    var c := CanCall(s, true);
    CanCallKeeps(s, true);
    if c.ok && CheckAck(c.s.lastResponse, c.s.txSeq) && |c.s.lastResponse| >= 2 {
      RecvLoopGrows(c.s.(lastResponse := c.s.lastResponse[1..]), [], true, true);
    }
  }

  /**
   * recvData gives up without emitting: on a first segment of at most
   * two bytes, before anything else; and when the batch, with the length
   * bytes of a first segment removed, fails the sequence check, with
   * nothing sent and no reply read.
   */
  lemma StepAborts(s: Link, ret: seq<byte>, first: bool, newBatch: bool)
    requires !first ==> s.lastResponse != []
    ensures first && !(|s.lastResponse| > 0 && |s.lastResponse[0].data| > 2) ==> Step(s, ret, first, newBatch) == Stop(s)
    ensures !first || (|s.lastResponse| > 0 && |s.lastResponse[0].data| > 2) ==>
      var f := if first then [StripLength(s.lastResponse[0])] + s.lastResponse[1..] else s.lastResponse;
      var n := Step(s, ret, first, newBatch);
      !SeqCheck(f, s.rxSeq).ok ==>
        !n.going && n.s.emitted == s.emitted && n.s.written == s.written && n.s.replies == s.replies
  {
  }

  /**
   * The first turn of a message: when the first segment carries its
   * length, the sequence numbers are right and the batch is valid and
   * ends in opcode 3, the message emitted is the payloads with the
   * first segment's two length bytes removed.
   */
  lemma FirstTurnSpec(s: Link, ret: seq<byte>)
    requires |s.lastResponse| > 0 && |s.lastResponse[0].data| > 2
    ensures var f := [StripLength(s.lastResponse[0])] + s.lastResponse[1..];
      var n := Step(s, ret, true, true);
      SeqCheck(f, s.rxSeq).ok && BatchValid(f) && Op(f[|f| - 1]) == 3 ==>
        !n.going && n.s.emitted == s.emitted + [Joined(f)]
  {
    var f := [StripLength(s.lastResponse[0])] + s.lastResponse[1..];
    var b := Begin(s, true);
    assert b.s.lastResponse == f;
    if b.ok {
      DeliverSpec(b.s, []);
      assert [] + Joined(f) == Joined(f);
    }
  }

  // ---------------------------------------------------------------- the adapter script

  /**
   * Once the script is exhausted the transport sees what the adapter
   * reports for an empty line queue: no frames with a timeout, a failed
   * decode and no prompt, no "OK", and an empty line.
   */
  lemma SilentSpec()
    ensures Silent.frames == ReadCAN([]).frames && Silent.status == ReadCAN([]).status
    ensures Silent.ok == ReadStatus([]).ok
    ensures Silent.text == ReadStr([]).text
  {
    ReadCANSilent();
    ReadStatusSpec([]);
    ReadStrSpec([]);
  }

  // ---------------------------------------------------------------- initialiseElm

  /** The mode commands in the order initialiseElm sends them. */
  const ModeCommands: seq<Command> :=
    [Text("AT PB C0 01"), Text("AT SP B"), Text("AT H1"), Text("AT D1"), Text("AT L0")]

  /** A configuration command after an earlier one: sent only when that one succeeded, and then answered "OK" or not. */
  lemma ThenSpec(o: Outcome, cmd: string)
    ensures var t := Then(o, cmd);
      && (t.ok <==> o.ok && ReplyAt(o.s.replies, 0).ok)
      && (o.ok ==> t.s.written == o.s.written + [Text(cmd)] && t.s.replies == Skip(o.s.replies, 1))
      && (!o.ok ==> t == o)
  {
  }

  /** Five configuration commands in a row: they all succeed exactly when the next five replies are "OK". */
  lemma FiveInRow(s: Link, a: string, b: string, c: string, d: string, e: string)
    ensures var o := Then(Then(Then(Then(Expect(s, a), b), c), d), e);
      && (o.ok <==> forall k :: 0 <= k < 5 ==> ReplyAt(s.replies, k).ok)
      && (o.ok ==> o.s.written == s.written + [Text(a), Text(b), Text(c), Text(d), Text(e)]
                   && o.s.replies == Skip(s.replies, 5))
  {
    var o1 := Expect(s, a);
    var o2 := Then(o1, b);
    var o3 := Then(o2, c);
    var o4 := Then(o3, d);
    ThenSpec(o1, b);
    ThenSpec(o2, c);
    ThenSpec(o3, d);
    ThenSpec(o4, e);
    Skip2(s.replies, 1);
    Skip2(s.replies, 2);
    Skip2(s.replies, 3);
    Skip2(s.replies, 4);
    if forall k :: 0 <= k < 5 ==> ReplyAt(s.replies, k).ok {
      assert ReplyAt(s.replies, 0).ok && ReplyAt(s.replies, 1).ok && ReplyAt(s.replies, 2).ok;
      assert ReplyAt(s.replies, 3).ok && ReplyAt(s.replies, 4).ok;
    }
  }

  /** Five configuration commands in a row only append to the log, the first one at least. */
  lemma FiveGrow(s: Link, a: string, b: string, c: string, d: string, e: string)
    ensures s.written < Then(Then(Then(Then(Expect(s, a), b), c), d), e).s.written
  {
    var o1 := Expect(s, a);
    var o2 := Then(o1, b);
    var o3 := Then(o2, c);
    var o4 := Then(o3, d);
    assert s.written < o1.s.written;
    assert o1.s.written <= o2.s.written;
    assert o2.s.written <= o3.s.written;
    assert o3.s.written <= o4.s.written;
    assert o4.s.written <= Then(o4, e).s.written;
  }

  /**
   * The mode commands succeed exactly when the next five replies are
   * "OK"; then all five have been sent and five replies read. Whatever
   * happens, the first one is sent.
   */
  lemma ModeSpec(s: Link)
    ensures Mode(s).ok <==> forall k :: 0 <= k < 5 ==> ReplyAt(s.replies, k).ok
    ensures Mode(s).ok ==> Mode(s).s.written == s.written + ModeCommands && Mode(s).s.replies == Skip(s.replies, 5)
    ensures s.written < Mode(s).s.written
  {
    FiveInRow(s, "AT PB C0 01", "AT SP B", "AT H1", "AT D1", "AT L0");
    FiveGrow(s, "AT PB C0 01", "AT SP B", "AT H1", "AT D1", "AT L0");
  }

  /** Taking a replies and then b more is taking a + b. */
  lemma SkipAdd(q: seq<Reply>, a: nat, b: nat)
    ensures Skip(Skip(q, a), b) == Skip(q, a + b)
    ensures ReplyAt(Skip(q, a), b) == ReplyAt(q, a + b)
  {
  }

  /** s after the commands cmds have been sent and k replies read. */
  function Sent(s: Link, cmds: seq<Command>, k: nat): Link {
    s.(written := s.written + cmds, replies := Skip(s.replies, k))
  }

  /** One more query on top of earlier commands reads the next reply. */
  lemma QueryStep(s: Link, cmds: seq<Command>, k: nat, cmd: string)
    ensures Query(Sent(s, cmds, k), cmd) == (ReplyAt(s.replies, k).text, Sent(s, cmds + [Text(cmd)], k + 1))
  {
    SkipAdd(s.replies, k, 1);
    SkipAdd(s.replies, k, 0);
    assert s.written + cmds + [Text(cmd)] == s.written + (cmds + [Text(cmd)]);
  }

  /** One more "OK"-checked command on top of earlier commands reads the next reply. */
  lemma ExpectStep(s: Link, cmds: seq<Command>, k: nat, cmd: string)
    ensures Expect(Sent(s, cmds, k), cmd) == Outcome(ReplyAt(s.replies, k).ok, Sent(s, cmds + [Text(cmd)], k + 1))
  {
    SkipAdd(s.replies, k, 1);
    SkipAdd(s.replies, k, 0);
    assert s.written + cmds + [Text(cmd)] == s.written + (cmds + [Text(cmd)]);
  }

  /**
   * The ST-device step: nothing happens when "ST I" was answered "?";
   * otherwise "ST DI", "ST MFR", "ST SN" and the pass-all filter are
   * sent, four replies are read, and the step succeeds exactly when the
   * filter is answered "OK".
   */
  lemma StDeviceSpec(s: Link, firmware: string)
    ensures firmware == "?" ==> StDevice(s, firmware) == Outcome(true, s)
    ensures firmware != "?" ==>
      StDevice(s, firmware)
        == Outcome(ReplyAt(s.replies, 3).ok, Sent(s, [Text("ST DI"), Text("ST MFR"), Text("ST SN"), Text("ST FAP 000,000")], 4))
  {
    if firmware != "?" {
      var c1 := [Text("ST DI")];
      var c2 := c1 + [Text("ST MFR")];
      var c3 := c2 + [Text("ST SN")];
      var c4 := c3 + [Text("ST FAP 000,000")];
      assert s == Sent(s, [], 0);
      QueryStep(s, [], 0, "ST DI");
      QueryStep(s, c1, 1, "ST MFR");
      QueryStep(s, c2, 2, "ST SN");
      ExpectStep(s, c3, 3, "ST FAP 000,000");
      assert c4 == [Text("ST DI"), Text("ST MFR"), Text("ST SN"), Text("ST FAP 000,000")];
    }
  }

  /**
   * The identification: "AT I", "AT @1" and "ST I" are sent and answered,
   * then the ST-device step runs on the third answer; it fails exactly
   * when that answer is not "?" and the pass-all filter is refused.
   */
  lemma IdentifySpec(s: Link)
    ensures var fw := ReplyAt(s.replies, 2).text;
      && Identify(s) == StDevice(Sent(s, [Text("AT I"), Text("AT @1"), Text("ST I")], 3), fw)
      && (Identify(s).ok <==> fw == "?" || ReplyAt(s.replies, 6).ok)
      && Identify(s).s.replies == Skip(s.replies, if fw == "?" then 3 else 7)
  {
    var fw := ReplyAt(s.replies, 2).text;
    var s3 := Sent(s, [Text("AT I"), Text("AT @1"), Text("ST I")], 3);
    var c1 := [Text("AT I")];
    var c2 := c1 + [Text("AT @1")];
    var c3 := c2 + [Text("ST I")];
    assert c3 == [Text("AT I"), Text("AT @1"), Text("ST I")];
    assert s == Sent(s, [], 0);
    QueryStep(s, [], 0, "AT I");
    QueryStep(s, c1, 1, "AT @1");
    QueryStep(s, c2, 2, "ST I");
    StDeviceSpec(s3, fw);
    SkipAdd(s.replies, 3, 3);
    SkipAdd(s.replies, 3, 4);
  }

  /** The identification queries only append to the log. */
  lemma IdentifyGrows(s: Link)
    ensures s.written < Identify(s).s.written
  {
  }

  /** initialiseElm after the identification: initialised exactly when "AT L0" went last, otherwise the port is closed. */
  lemma ConfiguredSpec(s: Link)
    ensures var t := Configured(s);
      && s.written < t.written && t.channelDest == s.channelDest
      && (t.elmInitilised <==> t.written[|t.written| - 1] == Text("AT L0"))
      && (!t.elmInitilised ==> t.written[|t.written| - 1] == ClosePort)
  {
    ModeSpec(s);
  }

  /** initialiseElm after echo is off. */
  lemma IdentifiedSpec(s: Link)
    ensures var t := Identified(s);
      && s.written < t.written && t.channelDest == s.channelDest
      && (t.elmInitilised <==> t.written[|t.written| - 1] == Text("AT L0"))
      && (!t.elmInitilised ==> t.written[|t.written| - 1] == ClosePort)
  {
    var f := Identify(s);
    IdentifyGrows(s);
    if f.ok {
      ConfiguredSpec(f.s);
    }
  }

  /**
   * initialiseElm after echo is off ends initialised exactly when the
   * pass-all filter was accepted or not needed ("ST I" answered "?") and
   * the five mode commands that follow are all answered "OK".
   */
  lemma IdentifiedReplies(s: Link)
    ensures var fw := ReplyAt(s.replies, 2).text;
      var n := if fw == "?" then 3 else 7;
      Identified(s).elmInitilised <==>
        (fw == "?" || ReplyAt(s.replies, 6).ok) && FiveOk(s.replies, n)
  {
    var fw := ReplyAt(s.replies, 2).text;
    var n := if fw == "?" then 3 else 7;
    IdentifiedMode(s);
    IdentifySpec(s);
    if Identify(s).ok {
      ModeAt(Identify(s).s, s.replies, n);
    }
  }

  lemma IdentifiedMode(s: Link)
    ensures Identified(s).elmInitilised <==> Identify(s).ok && Mode(Identify(s).s).ok
  {
  }

  /** The five replies of q from n on are all "OK". */
  predicate FiveOk(q: seq<Reply>, n: nat) {
    ReplyAt(q, n).ok && ReplyAt(q, n + 1).ok && ReplyAt(q, n + 2).ok && ReplyAt(q, n + 3).ok && ReplyAt(q, n + 4).ok
  }

  /** The mode commands, sent after n replies of q have been read, succeed exactly when the next five are "OK". */
  lemma ModeAt(t: Link, q: seq<Reply>, n: nat)
    requires t.replies == Skip(q, n)
    ensures Mode(t).ok <==> FiveOk(q, n)
  {
    ModeSpec(t);
    SkipAdd(q, n, 0);
    SkipAdd(q, n, 1);
    SkipAdd(q, n, 2);
    SkipAdd(q, n, 3);
    SkipAdd(q, n, 4);
  }

  /** initialiseElm with the port closed clears the initialised flag and leaves the channel closed, sending nothing. */
  lemma InitClosedSpec(s: Link)
    ensures var t := Init(s, false);
      && !t.elmInitilised && t.written == s.written && t.replies == s.replies && t.channelDest < 0
      && (s.channelDest < 0 ==> t.channelDest == s.channelDest)
  {
  }

  /**
   * initialiseElm with the port open turns echo off first; the adapter
   * ends initialised exactly when the last command sent is "AT L0", and
   * a failure ends with the port closed. The channel is not touched.
   */
  lemma InitSpec(s: Link)
    ensures var t := Init(s, true);
      && t.channelDest == s.channelDest && s.written + [Text("AT E0"), Text("AT E0")] <= t.written
      && (t.elmInitilised <==> t.written[|t.written| - 1] == Text("AT L0"))
      && (!t.elmInitilised ==> t.written[|t.written| - 1] == ClosePort)
  {
    var e := EchoOff(s);
    assert e.s.written == s.written + [Text("AT E0"), Text("AT E0")];
    if e.ok {
      IdentifiedSpec(e.s);
    }
  }
}
