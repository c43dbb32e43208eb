/**
 * The VW TP 2.0 transport (tp20.cpp) on top of the ELM327 line layer:
 * the channel handshake, keep-alive, segmentation of outgoing payloads
 * into 7-byte segments and reassembly of incoming ones with mod-16
 * sequence numbers and acknowledgements.
 *
 * The adapter is replaced by a script of replies: each call to one of
 * the adapter's reply readers takes the next entry, and everything the
 * transport asks the adapter to do is appended to a log of commands.
 * The transport's state is the record `Link`; the functions on `Link`
 * say what each operation of the source does to it, and the class
 * `Transport` carries out the same operations on fields, step by step.
 */
module Tp20 {
  import opened Util
  import opened Elm327

  // ---------------------------------------------------------------- records (tp20.h:11-46)

  /** Channel setup reply (opcode 0xD0). */
  datatype ChanSetup = ChanSetup(dest: byte, opcode: byte, rxID: byte, rxV: byte, rxPre: byte,
                                 txID: byte, txV: byte, txPre: byte, app: byte)

  /** Channel parameters reply (opcode 0xA1): block size and timing bytes. */
  datatype ChanParam = ChanParam(opcode: byte, bs: byte, t1: byte, t2: byte, t3: byte, t4: byte)

  /** The control byte of a data segment: opcode in the high nibble, sequence in the low one. */
  datatype DataTrans = DataTrans(opcode: byte, seqNo: byte)

  /** The first segment of a message also carries a 16-bit length. */
  datatype DataTransFirst = DataTransFirst(opcode: byte, seqNo: byte, len: int)

  /** The seven bytes a setup record is sent as. */
  function SetupBytes(s: ChanSetup): seq<byte>
    requires s.rxV < 16 && s.rxPre < 16 && s.txV < 16 && s.txPre < 16
  {
    [s.dest, s.opcode, s.rxID, s.rxV * 16 + s.rxPre, s.txID, s.txV * 16 + s.txPre, s.app]
  }

  /** The six bytes a parameter record is sent as. */
  function ParamBytes(p: ChanParam): seq<byte> {
    [p.opcode, p.bs, p.t1, p.t2, p.t3, p.t4]
  }

  /** getAsCS (tp20.cpp:431-446): the nibbles of bytes 3 and 5 are split apart. */
  function GetAsCS(f: CanFrame): (s: ChanSetup)
    requires |f.data| >= 7
    ensures s.rxV < 16 && s.rxPre < 16 && s.txV < 16 && s.txPre < 16
    ensures SetupBytes(s) == f.data[..7]
  {
    var d := f.data;
    ChanSetup(d[0], d[1], d[2], d[3] / 16, d[3] % 16, d[4], d[5] / 16, d[5] % 16, d[6])
  }

  /** getAsCP (tp20.cpp:448-460). */
  function GetAsCP(f: CanFrame): (p: ChanParam)
    requires |f.data| >= 6
    ensures ParamBytes(p) == f.data[..6]
  {
    var d := f.data;
    ChanParam(d[0], d[1], d[2], d[3], d[4], d[5])
  }

  /** getAsDT (tp20.cpp:462-470). */
  function GetAsDT(f: CanFrame): (t: DataTrans)
    ensures t.opcode < 16 && t.seqNo < 16
    ensures t.opcode * 16 + t.seqNo == ByteAt(f.data, 0)
  {
    DataTrans(ByteAt(f.data, 0) / 16, ByteAt(f.data, 0) % 16)
  }

  /** getAsDTFirst (tp20.cpp:472-481): the length is bytes 1 and 2, high byte first. */
  function GetAsDTFirst(f: CanFrame): (t: DataTransFirst)
    requires |f.data| > 2
    ensures 0 <= t.len < 0x10000 && t.len / 256 == f.data[1] && t.len % 256 == f.data[2]
    ensures t.opcode == GetAsDT(f).opcode && t.seqNo == GetAsDT(f).seqNo
  {
    DataTransFirst(f.data[0] / 16, f.data[0] % 16, (f.data[1] as int) * 256 + f.data[2])
  }

  /** The opcode nibble of a segment. */
  function Op(f: CanFrame): byte {
    GetAsDT(f).opcode
  }

  /** checkResponse (tp20.cpp:419-429): a single frame of exactly `len` bytes. */
  predicate CheckResponse(frames: seq<CanFrame>, len: nat)
    requires |frames| > 0
  {
    !(|frames| > 1 || |frames[0].data| != len)
  }

  /** checkACK (tp20.cpp:313-319): the first frame is an ACK (opcode 0xB) for the next segment. */
  predicate CheckAck(frames: seq<CanFrame>, txSeq: byte)
    requires |frames| > 0
  {
    var dt := GetAsDT(frames[0]);
    !(dt.opcode != 0xB || dt.seqNo != txSeq % 16)
  }

  /** The validity test openChannel applies to the setup reply (tp20.cpp:535-540). */
  predicate SetupAccepted(s: ChanSetup) {
    !(s.opcode != 0xD0 || s.rxPre * 256 + s.rxID != 0x300 || s.rxV > 0 || s.txV > 0)
  }

  /** The validity test applied to a parameter reply (tp20.cpp:556-560, 593-596). */
  predicate ParamAccepted(p: ChanParam) {
    !(p.opcode != 0xA1 || p.bs > 0xF)
  }

  // ---------------------------------------------------------------- decodeError (tp20.cpp:692-736)

  /** The status bits in the order decodeError reports them. */
  const ReportOrder: seq<Flag> := [TimeoutError, NoPromptError, OkResponse, StoppedResponse,
    UnknownResponse, AtResponse, NoDataResponse, ProcessingError, CanError]

  function FlagMessage(f: Flag): string {
    match f
    case TimeoutError => "Info: Timeout receiving data from ELM327"
    case NoPromptError => "Info: No prompt from ELM327"
    case OkResponse => "Info: OK response from ELM327"
    case StoppedResponse => "Info: STOPPED response from ELM327"
    case UnknownResponse => "Info: UNKNOWN response from ELM327"
    case AtResponse => "Info: AT command in response from ELM327"
    case NoDataResponse => "Info: NO DATA response from ELM327"
    case ProcessingError => "Info: Error parsing received data"
    case CanError => "Info: CAN ERROR response from ELM327"
  }

  const NoBitsMessage: string := "Info: No status bits set"

  /** The messages for the bits of `order` that are set, in that order. */
  function FlagMessages(status: Status, order: seq<Flag>): seq<string> {
    if order == [] then []
    else (if order[0] in status then [FlagMessage(order[0])] else []) + FlagMessages(status, order[1..])
  }

  /** The lines decodeError joins. */
  function ErrorLines(status: Status): seq<string> {
    (if status == {} then [NoBitsMessage] else []) + FlagMessages(status, ReportOrder)
  }

  /** decodeError: one line per set bit, or the no-bits line. */
  function DecodeError(status: Status): string {
    Join(ErrorLines(status), "\n")
  }

  // ---------------------------------------------------------------- checkForCommands (tp20.cpp:621-640)

  /** A channel test (0xA3) from the peer. */
  predicate IsChannelTest(f: CanFrame) {
    ByteAt(f.data, 0) == 0xA3
  }

  /** A disconnect (0xA8) or break (0xA4) from the peer. */
  predicate IsDisconnect(f: CanFrame) {
    ByteAt(f.data, 0) == 0xA8 || ByteAt(f.data, 0) == 0xA4
  }

  /** What checkForCommands leaves: the frames kept, the channel tests answered, and whether it stopped at a disconnect. */
  datatype Scan = Scan(kept: seq<CanFrame>, tests: nat, broke: bool)

  /** The scan from some position on, with the frames kept and tests answered so far. */
  function CommandLoop(rest: seq<CanFrame>, kept: seq<CanFrame>, tests: nat): Scan
    decreases |rest|
  {
    if rest == [] then Scan(kept, tests, false)
    else if IsChannelTest(rest[0]) then CommandLoop(rest[1..], kept, tests + 1)
    else if IsDisconnect(rest[0]) then Scan(kept + rest, tests, true)
    else CommandLoop(rest[1..], kept + [rest[0]], tests)
  }

  function Commands(frames: seq<CanFrame>): Scan {
    CommandLoop(frames, [], 0)
  }

  /** The frames that are not channel tests, in order. */
  function NonTests(frames: seq<CanFrame>): seq<CanFrame> {
    if frames == [] then []
    else (if IsChannelTest(frames[0]) then [] else [frames[0]]) + NonTests(frames[1..])
  }

  function TestCount(frames: seq<CanFrame>): nat {
    if frames == [] then 0 else (if IsChannelTest(frames[0]) then 1 else 0) + TestCount(frames[1..])
  }

  // ---------------------------------------------------------------- checkSeq (tp20.cpp:483-498)

  datatype SeqResult = SeqResult(ok: bool, rxSeq: byte)

  /** quint8 post-increment. */
  function Inc(b: byte): byte {
    (b + 1) % 256
  }

  /**
   * checkSeq: every segment with opcode 0..3 must carry the low nibble of
   * rxSeq, which advances (as a quint8) once per compared segment,
   * including a failing one; other opcodes are skipped.
   */
  function SeqCheck(frames: seq<CanFrame>, rx: byte): SeqResult
    decreases |frames|
  {
    if frames == [] then SeqResult(true, rx)
    else if Op(frames[0]) > 3 then SeqCheck(frames[1..], rx)
    else if GetAsDT(frames[0]).seqNo != rx % 16 then SeqResult(false, Inc(rx))
    else SeqCheck(frames[1..], Inc(rx))
  }

  /** The segments checkSeq compares. */
  function Compared(frames: seq<CanFrame>): seq<CanFrame> {
    if frames == [] then []
    else (if Op(frames[0]) > 3 then [] else [frames[0]]) + Compared(frames[1..])
  }

  // ---------------------------------------------------------------- the adapter script and the command log

  /**
   * What one adapter reader call returns: `ok` for getResponseStatus,
   * `text` for getResponseStr, `frames` for getResponseCAN, and the
   * status bits for all three.
   */
  datatype Reply = Reply(ok: bool, text: string, frames: seq<CanFrame>, status: Status)

  /** The reply once the script is exhausted: the adapter's reply to an empty line queue. */
  const Silent: Reply := Reply(false, "", [], {TimeoutError, ProcessingError, NoPromptError})

  function ReplyAt(q: seq<Reply>, k: nat): Reply {
    if k < |q| then q[k] else Silent
  }

  /** The script after k replies have been taken. */
  function Skip(q: seq<Reply>, k: nat): (r: seq<Reply>)
    ensures |r| == if k <= |q| then |q| - k else 0
  {
    if k <= |q| then q[k..] else []
  }

  /** A call the transport queues on the adapter. */
  datatype Command =
    | Text(s: string)          // write(QString)
    | Frame(data: seq<byte>)   // write(QByteArray)
    | SendId(id: int)          // setSendCanID
    | RecvId(id: int)          // setRecvCanID
    | ClosePort                // closePort

  function Repeat(c: Command, n: nat): seq<Command> {
    if n == 0 then [] else Repeat(c, n - 1) + [c]
  }

  // ---------------------------------------------------------------- the transport state

  /**
   * The fields of tp20 the transport's behaviour depends on, the adapter
   * script still to be read, the commands queued so far and the messages
   * emitted through the `response` signal. `hung` records that recvData
   * entered its endless re-processing of a batch.
   */
  datatype Link = Link(
    channelDest: int, txID: int, rxID: int, bs: byte, t1: byte, t3: byte,
    txSeq: byte, rxSeq: byte, elmInitilised: bool, recvTimeout: int,
    lastResponse: seq<CanFrame>, replies: seq<Reply>, written: seq<Command>,
    emitted: seq<seq<byte>>, hung: bool)

  /** The result of a step that also answers yes or no. */
  datatype Outcome = Outcome(ok: bool, s: Link)

  function Write(s: Link, c: Command): Link {
    s.(written := s.written + [c])
  }

  /** setChannelClosed (tp20.cpp:254-259). */
  function Closed(s: Link): Link {
    s.(channelDest := -1)
  }

  /**
   * tp20::getResponseStatus (tp20.cpp:605-619): the adapter's OK flag,
   * whatever status was expected (a mismatch is only logged).
   */
  function StatusCall(s: Link): (o: Outcome)
    ensures o.s == s.(replies := Skip(s.replies, 1))
  {
    Outcome(ReplyAt(s.replies, 0).ok, s.(replies := Skip(s.replies, 1)))
  }

  /** tp20::getResponseStr (tp20.cpp:677-690): the line, whatever the status. */
  function StrCall(s: Link): (string, Link) {
    (ReplyAt(s.replies, 0).text, s.(replies := Skip(s.replies, 1)))
  }

  /** checkForCommands on lastResponse: each channel test is answered with "A3" and its reply read. */
  function CheckCommands(s: Link): Outcome {
    var c := Commands(s.lastResponse);
    Outcome(!c.broke, s.(lastResponse := c.kept,
                         written := s.written + Repeat(Text("A3"), c.tests),
                         replies := Skip(s.replies, c.tests),
                         channelDest := if c.broke then -1 else s.channelDest))
  }

  /** getResponseCAN's verdict (tp20.cpp:659-667). */
  predicate Accepted(replyExpected: bool, status: Status) {
    (replyExpected && status == {}) || (!replyExpected && status == {NoDataResponse})
  }

  /** tp20::getResponseCAN (tp20.cpp:642-675). */
  function CanCall(s: Link, replyExpected: bool): (o: Outcome)
    ensures o.s.bs == s.bs && o.s.txSeq == s.txSeq && o.s.rxSeq == s.rxSeq
    ensures |o.s.replies| <= |s.replies|
    ensures o.s.lastResponse != [] ==> |o.s.replies| < |s.replies|
    ensures o.ok && replyExpected ==> o.s.lastResponse != []
    ensures o.ok ==> o.s.channelDest == s.channelDest
    ensures s.written <= o.s.written
    ensures o.s.channelDest == s.channelDest || o.s.channelDest == -1
  {
    var r := ReplyAt(s.replies, 0);
    var c := CheckCommands(s.(replies := Skip(s.replies, 1), lastResponse := r.frames));
    if !c.ok then c
    else
      var status := if c.s.lastResponse == [] then r.status + {NoDataResponse} else r.status;
      Outcome(Accepted(replyExpected, status), c.s)
  }

  /** The timeout applyRecvTimeout settles on (tp20.cpp:282-287). */
  function ClampTimeout(msecs: int): int {
    if msecs > 1020 then 1020 else if msecs < 0 then 0 else msecs
  }

  /** "AT ST" takes the timeout in units of 4 ms, as default-width hex (tp20.cpp:290-292). */
  function TimeoutCommand(msecs: int): string {
    "AT ST " + ToHexUnsigned(ClampTimeout(msecs) / 4)
  }

  /** applyRecvTimeout (tp20.cpp:280-301). */
  function TimeoutCall(s: Link, msecs: int): (o: Outcome)
    ensures o.s.bs == s.bs && o.s.txSeq == s.txSeq && o.s.channelDest == s.channelDest
  {
    var o := StatusCall(Write(s, Text(TimeoutCommand(msecs))));
    if !o.ok then Outcome(false, o.s.(recvTimeout := -1))
    else Outcome(true, o.s.(recvTimeout := ClampTimeout(msecs)))
  }

  /** sendACK (tp20.cpp:303-311): 0xB0 with the low nibble of rxSeq, then a reply is read. */
  function AckCall(s: Link, dataFollowing: bool): (o: Outcome)
    ensures |o.s.replies| <= |s.replies|
    ensures o.s.lastResponse != [] ==> |o.s.replies| < |s.replies|
    ensures o.ok && dataFollowing ==> o.s.lastResponse != []
  {
    CanCall(Write(s, Frame([0xB0 + s.rxSeq % 16])), dataFollowing)
  }

  // ---------------------------------------------------------------- openChannel, closeChannel, sendKeepAlive

  /** The channel setup request for module `dest` (tp20.cpp:522). */
  function SetupRequest(dest: Int32): string {
    ToHex(dest, 2) + " C0 00 10 00 03 01"
  }

  const ParamRequest: string := "A0 0F 8A FF 4A FF"

  /** applyRecvTimeout, only when the timeout asked for is not the one in force (tp20.cpp:506-513). */
  function TimeoutFor(s: Link, timeout: int): (o: Outcome)
    ensures o.s.bs == s.bs && o.s.txSeq == s.txSeq && o.s.channelDest == s.channelDest
  {
    if s.recvTimeout != timeout then TimeoutCall(s, timeout) else Outcome(true, s)
  }

  /** setSendCanID then setRecvCanID, each of which must be answered "OK". */
  function SetIds(s: Link, tx: int, rx: int): Outcome {
    var a := StatusCall(Write(s, SendId(tx)));
    if !a.ok then a else StatusCall(Write(a.s, RecvId(rx)))
  }

  /**
   * The reply to the channel setup request: a 7-byte response whose
   * identifiers are taken (rxID even when the setup is refused) and must
   * be valid; any failure closes the channel.
   */
  function SetupReply(c: Outcome): (o: Outcome)
    requires c.ok ==> c.s.lastResponse != []
  {
    if !c.ok || !CheckResponse(c.s.lastResponse, 7) then Outcome(false, Closed(c.s))
    else
      var setup := GetAsCS(c.s.lastResponse[0]);
      var s1 := c.s.(rxID := setup.rxPre * 256 + setup.rxID);
      if !SetupAccepted(setup) then Outcome(false, Closed(s1))
      else Outcome(true, s1.(txID := setup.txPre * 256 + setup.txID))
  }

  /**
   * The reply to a parameter request or a channel test: a 6-byte
   * response whose opcode is 0xA1 and whose block size fits a nibble sets
   * bs, t1 and t3; any failure closes the channel.
   */
  function ParamReply(c: Outcome): (o: Outcome)
    requires c.ok ==> c.s.lastResponse != []
  {
    if !c.ok || !CheckResponse(c.s.lastResponse, 6) then Outcome(false, Closed(c.s))
    else
      var p := GetAsCP(c.s.lastResponse[0]);
      if !ParamAccepted(p) then Outcome(false, Closed(c.s))
      else Outcome(true, c.s.(bs := p.bs, t1 := p.t1, t3 := p.t3))
  }

  /** A command whose reply must carry the timing parameters. */
  function ParamExchange(s: Link, cmd: string): Outcome {
    ParamReply(CanCall(Write(s, Text(cmd)), true))
  }

  /** openChannel (tp20.cpp:500-571). */
  function Open(s: Link, dest: Int32, timeout: int): Link {
    if !s.elmInitilised then s
    else
      var b := Address(s, dest, timeout);
      if !b.ok then Closed(b.s)
      else OpenSetup(b.s, dest)
  }

  /** The timeout, then the broadcast identifiers 0x200 and 0x200 + dest (tp20.cpp:506-524). */
  function Address(s: Link, dest: Int32, timeout: int): Outcome {
    var t := TimeoutFor(s, timeout);
    if !t.ok then t else SetIds(t.s, 0x200, 0x200 + dest)
  }

  /** A channel setup request and its reply (tp20.cpp:529-540). */
  function SetupExchange(s: Link, request: string): Outcome {
    SetupReply(CanCall(Write(s, Text(request)), true))
  }

  /** openChannel from the restart of the sequence numbers on (tp20.cpp:526-570). */
  function OpenSetup(s: Link, dest: Int32): Link {
    var u := SetupExchange(s.(rxSeq := 0, txSeq := 0), SetupRequest(dest));
    if !u.ok then u.s else OpenParams(u.s, dest)
  }

  /** The identifiers and the parameter exchange of openChannel (tp20.cpp:542-570). */
  function OpenParams(s: Link, dest: Int32): Link {
    var d := SetIds(s, s.txID, s.rxID);
    if !d.ok then Closed(d.s)
    else
      var p := ParamExchange(d.s, ParamRequest);
      if !p.ok then p.s else p.s.(channelDest := dest)
  }

  /** closeChannel (tp20.cpp:573-578): "A8", one reply read, then closed. */
  function Close(s: Link): Link {
    Closed(CanCall(Write(s, Text("A8")), true).s)
  }

  /** sendKeepAlive (tp20.cpp:580-603): a channel test whose reply renews the timing parameters. */
  function KeepAlive(s: Link): Link {
    if s.channelDest < 0 then s
    else ParamExchange(s, "A3").s
  }

  // ---------------------------------------------------------------- sendData (tp20.cpp:53-117)

  /**
   * The two length bytes put in front of a payload of n bytes: the high
   * byte, and the low byte masked with 0x0F rather than 0xFF.
   */
  function Header(n: nat): seq<byte>
    requires n < 0x10000
  {
    [n / 256, n % 16]
  }

  /** The bytes sendData cuts into segments. */
  function Framed(data: seq<byte>): seq<byte>
    requires |data| < 0x10000
  {
    Header(|data|) + data
  }

  /** qCeil(n / 7.0): the number of segments for n bytes. */
  function SegmentCount(n: nat): nat {
    (n + 6) / 7
  }

  /** There is a segment i exactly when some byte starts at 7i. */
  lemma SegmentCountSpec(n: nat, i: nat)
    ensures i < SegmentCount(n) <==> 7 * i < n
  {
  }

  /** Segment i is the last one exactly when at most seven bytes start at 7i. */
  lemma SegmentsLeft(n: nat, i: nat)
    requires 7 * i < n
    ensures n - 7 * i <= 7 ==> SegmentCount(n) - i == 1
    ensures n - 7 * i > 7 ==> SegmentCount(n) - i == SegmentCount(n) - (i + 1) + 1 >= 2
  {
    SegmentCountSpec(n, i);
    SegmentCountSpec(n, i + 1);
  }

  /** A quint8 counter incremented n times. */
  function Advance(t: byte, n: nat): byte
    decreases n
  {
    if n == 0 then t else Advance(Inc(t), n - 1)
  }

  /** QByteArray::mid(7i, 7): segment i, seven bytes or what is left. */
  function Segment(buf: seq<byte>, i: nat): seq<byte>
    requires 7 * i <= |buf|
  {
    if |buf| - 7 * i <= 7 then buf[7 * i..] else buf[7 * i..7 * i + 7]
  }

  /**
   * i % bs == bs - 1: segment i closes a block of bs segments. It is
   * written by repeated subtraction so that the segment loop's proofs do
   * not reason about a remainder by a variable; AckDueMod shows the two
   * agree.
   */
  predicate AckDue(i: nat, bs: byte)
    requires bs > 0
    decreases i
  {
    if i < bs then i == bs - 1 else AckDue(i - bs, bs)
  }

  /**
   * The opcode nibble of segment i: 1 for the last one (an ACK is
   * expected), 0 for every bs-th one (an ACK is expected, more follow),
   * 2 otherwise.
   */
  function SegmentOp(n: nat, i: nat, bs: byte): byte
    requires 7 * i < n
    requires bs != 0 || n - 7 * i <= 7
  {
    if n - 7 * i <= 7 then 1 else if AckDue(i, bs) then 0 else 2
  }

  /** Segment i as written: its control byte, then the segment. */
  function Packet(buf: seq<byte>, i: nat, bs: byte, seqNo: byte): seq<byte>
    requires 7 * i < |buf|
    requires bs != 0 || |buf| - 7 * i <= 7
  {
    [SegmentOp(|buf|, i, bs) * 16 + seqNo % 16] + Segment(buf, i)
  }

  /** sendData divides by bs only on a segment that is not the last. */
  predicate SendSafe(s: Link, data: seq<byte>) {
    s.channelDest < 0 || |data| == 0 || |data| > 65535 || |data| + 2 <= 7 || s.bs != 0
  }

  /** sendData. */
  function Send(s: Link, data: seq<byte>, timeout: int): Link
    requires SendSafe(s, data)
  {
    if s.channelDest < 0 || |data| == 0 || |data| > 65535 then s
    else
      var t := TimeoutFor(s, timeout);
      if !t.ok then Closed(t.s)
      else Sent(t.s, Framed(data))
  }

  /** The segments, then recvData once the last one is written. */
  function Sent(s: Link, buf: seq<byte>): Link
    requires |buf| > 0
    requires s.bs != 0 || |buf| <= 7
  {
    var w := SendLoop(s, buf, 0);
    if w.ok then Recv(w.s) else w.s
  }

  /**
   * Segment i of sendData (tp20.cpp:81-115): txSeq advances as the
   * packet is written; after an ACK-requesting segment a single ACK
   * frame for the new txSeq must come back; after any other segment but
   * the last the adapter must answer "NO DATA" (only its OK flag is
   * looked at). Packet i is the first thing written, the log only
   * grows, bs is kept and the channel stays as it was or is closed.
   */
  function SendSegment(s: Link, buf: seq<byte>, i: nat): (o: Outcome)
    requires 7 * i < |buf|
    requires s.bs != 0 || |buf| - 7 * i <= 7
    ensures s.written < o.s.written && o.s.written[|s.written|] == Frame(Packet(buf, i, s.bs, s.txSeq))
    ensures o.s.txSeq == Inc(s.txSeq) && o.s.bs == s.bs
    ensures o.s.channelDest == s.channelDest || o.s.channelDest == -1
  {
    var s1 := Write(s.(txSeq := Inc(s.txSeq)), Frame(Packet(buf, i, s.bs, s.txSeq)));
    if |buf| - 7 * i <= 7 then Outcome(true, s1)
    else if AckDue(i, s.bs) then
      var c := CanCall(s1, true);
      Outcome(c.ok && !(|c.s.lastResponse| > 1 || !CheckAck(c.s.lastResponse, c.s.txSeq)), c.s)
    else StatusCall(s1)
  }

  /**
   * The segment loop of sendData from segment i on: `ok` when the last
   * segment has been written and the reply is due, false when a segment
   * failed. It only appends to the command log, the first thing it
   * writes is packet i with the current txSeq, bs is kept, and the
   * channel stays as it was or is closed. When every segment has gone
   * out, txSeq has been incremented once per segment.
   */
  function SendLoop(s: Link, buf: seq<byte>, i: nat): (o: Outcome)
    requires 7 * i < |buf|
    requires s.bs != 0 || |buf| - 7 * i <= 7
    ensures s.written < o.s.written && o.s.written[|s.written|] == Frame(Packet(buf, i, s.bs, s.txSeq))
    ensures o.s.channelDest == s.channelDest || o.s.channelDest == -1
    ensures o.s.bs == s.bs
    ensures o.ok ==> o.s.txSeq == Advance(s.txSeq, SegmentCount(|buf|) - i)
    decreases |buf| - 7 * i
  {
    var o := SendSegment(s, buf, i);
    SegmentsLeft(|buf|, i);
    if !o.ok || |buf| - 7 * i <= 7 then o else SendLoop(o.s, buf, i + 1)
  }

  // ---------------------------------------------------------------- recvData (tp20.cpp:119-232)

  /** QByteArray::mid(1): the payload after the control byte. */
  function Payload(f: CanFrame): seq<byte> {
    if |f.data| <= 1 then [] else f.data[1..]
  }

  /** The payloads of a batch, run together. */
  function Joined(frames: seq<CanFrame>): seq<byte> {
    if frames == [] then [] else Payload(frames[0]) + Joined(frames[1..])
  }

  /** data.remove(1, 2): the first segment without its two length bytes. */
  function StripLength(f: CanFrame): CanFrame
    requires |f.data| > 2
  {
    f.(data := [f.data[0]] + f.data[3..])
  }

  /**
   * A batch recvData accepts: every segment but the last announces more
   * without asking for an ACK (opcode 2), and the last has opcode 0..3.
   * Any other batch makes recvData give up without emitting.
   */
  predicate BatchValid(frames: seq<CanFrame>) {
    |frames| > 0 && (forall i :: 0 <= i < |frames| - 1 ==> Op(frames[i]) == 2) && Op(frames[|frames| - 1]) <= 3
  }

  /** recvData: the ACK that acknowledges the last segment sent, then the segments of the reply. */
  function Recv(s: Link): Link {
    var c := CanCall(s, true);
    if !c.ok then c.s
    else if !CheckAck(c.s.lastResponse, c.s.txSeq) || |c.s.lastResponse| < 2 then c.s
    else RecvLoop(c.s.(lastResponse := c.s.lastResponse[1..]), [], true, true)
  }

  /** Where one turn of recvData's outer loop leaves it: to go on with a message, a first flag and a batch flag, or stopped. */
  datatype Next = Next(going: bool, s: Link, msg: seq<byte>, first: bool, newBatch: bool)

  function Stop(s: Link): Next {
    Next(false, s, [], false, false)
  }

  /**
   * One turn of recvData's outer loop (tp20.cpp:139-230). `ret` is the
   * message collected so far, `first` says the batch starts a message and
   * `newBatch` that the batch has not been processed yet. A batch ending
   * in opcode 2 is processed again with the advanced rxSeq: it fails the
   * sequence check, or passes it forever, which is recorded as `hung`.
   */
  function Step(s: Link, ret: seq<byte>, first: bool, newBatch: bool): (n: Next)
    requires !first ==> s.lastResponse != []
    ensures |n.s.replies| <= |s.replies|
    ensures n.going ==> (n.first ==> n.newBatch) && (!n.first ==> n.s.lastResponse != [])
    ensures n.going ==> |n.s.replies| < |s.replies| || (newBatch && !n.newBatch)
  {
    if first && !(|s.lastResponse| > 0 && |s.lastResponse[0].data| > 2) then Stop(s)
    else
      var b := Begin(s, first);
      if !b.ok then Stop(b.s)
      else if !newBatch then Stop(b.s.(hung := true))
      else Deliver(b.s, if first then [] else ret)
  }

  /**
   * The start of a turn (tp20.cpp:142-172): the first segment of a
   * message loses its two length bytes, then the sequence numbers of the
   * batch are checked.
   */
  function Begin(s: Link, first: bool): (o: Outcome)
    requires first ==> |s.lastResponse| > 0 && |s.lastResponse[0].data| > 2
    ensures o.s.replies == s.replies && |o.s.lastResponse| == |s.lastResponse|
  {
    var s0 := if first then s.(lastResponse := [StripLength(s.lastResponse[0])] + s.lastResponse[1..]) else s;
    var sc := SeqCheck(s0.lastResponse, s0.rxSeq);
    Outcome(sc.ok, s0.(rxSeq := sc.rxSeq))
  }

  /**
   * The segment loop of a turn over a batch whose sequence numbers are
   * right (tp20.cpp:174-229): the payloads join the message, which is
   * emitted at the last segment, and an ACK is sent when asked for.
   */
  function Deliver(s: Link, ret: seq<byte>): (n: Next)
    requires s.lastResponse != []
    ensures |n.s.replies| <= |s.replies|
    ensures n.going ==> (n.first ==> n.newBatch) && (!n.first ==> n.s.lastResponse != [])
    ensures n.going ==> |n.s.replies| < |s.replies| || !n.newBatch
  {
    if !BatchValid(s.lastResponse) then Stop(s)
    else
      var msg := ret + Joined(s.lastResponse);
      var last := Op(s.lastResponse[|s.lastResponse| - 1]);
      if last == 2 then Next(true, s, msg, false, false)
      else if last == 3 then Stop(s.(emitted := s.emitted + [msg]))
      else
        AckTurn(if last == 1 then s.(emitted := s.emitted + [msg]) else s, msg, last == 0)
  }

  /**
   * The ACK at the end of a batch (tp20.cpp:212-227). After the last
   * segment of a message no reply is expected; a reply that comes anyway
   * starts a new message.
   */
  function AckTurn(s: Link, msg: seq<byte>, more: bool): (n: Next)
    ensures |n.s.replies| <= |s.replies|
    ensures n.going ==> n.newBatch && (!n.first ==> n.s.lastResponse != []) && |n.s.replies| < |s.replies|
  {
    var a := AckCall(s, more);
    if a.ok then (if !more then Stop(a.s) else Next(true, a.s, msg, false, true))
    else if a.s.lastResponse != [] then Next(true, a.s, msg, true, true)
    else Stop(a.s)
  }

  /** recvData's outer loop from a turn on, until a turn stops it. */
  function RecvLoop(s: Link, ret: seq<byte>, first: bool, newBatch: bool): Link
    requires first ==> newBatch
    requires !first ==> s.lastResponse != []
    decreases |s.replies|, (if newBatch then 1 else 0)
  {
    var n := Step(s, ret, first, newBatch);
    if n.going then RecvLoop(n.s, n.msg, n.first, n.newBatch) else n.s
  }

  /**
   * The segment loop of recvData over one batch (tp20.cpp:175-229), as far
   * as the batch decides: whether it is acceptable, and the message with
   * its payloads appended.
   */
  method TakeBatch(frames: seq<CanFrame>, ret: seq<byte>) returns (valid: bool, msg: seq<byte>)
    requires frames != []
    ensures valid == BatchValid(frames)
    ensures valid ==> msg == ret + Joined(frames)
  {
    var n := |frames|;
    msg := ret;
    var i := 0;
    while i < n
      invariant 0 <= i <= n
      invariant forall j :: 0 <= j < i && j < n - 1 ==> Op(frames[j]) == 2
      invariant i == n ==> Op(frames[n - 1]) <= 3
      invariant msg + Joined(frames[i..]) == ret + Joined(frames)
    {
      var dt := GetAsDT(frames[i]);
      if dt.opcode > 3 {
        return false, msg;
      }
      // opcode & 1: the last segment of the message
      if (dt.opcode == 1 || dt.opcode == 3) && n - 1 > i {
        return false, msg;
      }
      assert frames[i..][1..] == frames[i + 1..];
      msg := msg + Payload(frames[i]);
      // !(opcode & 2): the sender waits for an ACK
      if dt.opcode <= 1 && n - 1 > i {
        return false, msg;
      }
      assert i < n - 1 ==> Op(frames[i]) == 2;
      i := i + 1;
    }
    assert msg + [] == msg;
    return true, msg;
  }

  // ---------------------------------------------------------------- initialiseElm, portClosed (tp20.cpp:261-417)

  /** elmInitialisationFailed (tp20.cpp:261-268); the adapter's port is open while it is being configured. */
  function InitFailed(s: Link): Link {
    s.(elmInitilised := false, written := s.written + [ClosePort])
  }

  /** A command whose reply is only logged, except the one to "ST I". */
  function Query(s: Link, cmd: string): (string, Link) {
    StrCall(Write(s, Text(cmd)))
  }

  /** A configuration command that must be answered "OK". */
  function Expect(s: Link, cmd: string): Outcome {
    StatusCall(Write(s, Text(cmd)))
  }

  /** The next configuration command, unless one has already failed. */
  function Then(o: Outcome, cmd: string): Outcome {
    if !o.ok then o else Expect(o.s, cmd)
  }

  /**
   * User mode B at 500 kbit/s with 11-bit identifiers, then headers and
   * DLC shown and line feeds off (tp20.cpp:365-398), stopping at the
   * first command not answered "OK".
   */
  function Mode(s: Link): Outcome {
    Then(Then(Then(Then(Expect(s, "AT PB C0 01"), "AT SP B"), "AT H1"), "AT D1"), "AT L0")
  }

  /**
   * The ST-device part of initialiseElm (tp20.cpp:342-363): when "ST I"
   * is not answered "?", three more queries and the pass-all filter.
   */
  function StDevice(s: Link, firmware: string): Outcome {
    if firmware == "?" then Outcome(true, s)
    else
      var s1 := Query(Query(Query(s, "ST DI").1, "ST MFR").1, "ST SN").1;
      Expect(s1, "ST FAP 000,000")
  }

  /** Echo off, after a first "AT E0" whose reply is only read (tp20.cpp:324-331). */
  function EchoOff(s: Link): Outcome {
    Expect(Query(s, "AT E0").1, "AT E0")
  }

  /** The identification queries and the ST-device part (tp20.cpp:333-363). */
  function Identify(s: Link): Outcome {
    var st := Query(Query(Query(s, "AT I").1, "AT @1").1, "ST I");
    StDevice(st.1, st.0)
  }

  /** initialiseElm (tp20.cpp:321-410). */
  function Init(s: Link, open: bool): Link {
    if !open then
      var s1 := s.(elmInitilised := false);
      if s1.channelDest >= 0 then Closed(s1) else s1
    else
      var e := EchoOff(s);
      if !e.ok then InitFailed(e.s) else Identified(e.s)
  }

  /** initialiseElm after echo is off (tp20.cpp:333-401). */
  function Identified(s: Link): Link {
    var f := Identify(s);
    if !f.ok then InitFailed(f.s) else Configured(f.s)
  }

  /** initialiseElm after the identification (tp20.cpp:365-401). */
  function Configured(s: Link): Link {
    var m := Mode(s);
    if !m.ok then InitFailed(m.s) else m.s.(elmInitilised := true)
  }

  /** portClosed (tp20.cpp:412-417). */
  function AfterPortClosed(s: Link): Link {
    Closed(s.(elmInitilised := false))
  }

  // ---------------------------------------------------------------- the transport object

  class Transport {
    var channelDest: int
    var txID: int
    var rxID: int
    var bs: byte
    var t1: byte
    var t3: byte
    var txSeq: byte
    var rxSeq: byte
    var elmInitilised: bool
    var recvTimeout: int
    /** The frames of the last getResponseCAN. */
    var lastResponse: seq<CanFrame>
    /** The adapter's replies still to come. */
    var replies: seq<Reply>
    /** The calls queued on the adapter so far. */
    var written: seq<Command>
    /** The messages emitted through the `response` signal. */
    var emitted: seq<seq<byte>>
    /** recvData is re-processing a batch forever. */
    var hung: bool

    function State(): Link
      reads this
    {
      Link(channelDest, txID, rxID, bs, t1, t3, txSeq, rxSeq, elmInitilised, recvTimeout,
           lastResponse, replies, written, emitted, hung)
    }

    /**
     * tp20::tp20 (tp20.cpp:25-41): no channel, sequence numbers 0, timeout
     * unknown. bs, t1 and t3 are not initialised there; they start at 0 here.
     */
    constructor (script: seq<Reply>)
      ensures State() == Link(-1, 0, 0, 0, 0, 0, 0, 0, false, -1, [], script, [], [], false)
    {
      channelDest := -1;
      txID, rxID := 0, 0;
      bs, t1, t3 := 0, 0, 0;
      txSeq, rxSeq := 0, 0;
      elmInitilised := false;
      recvTimeout := -1;
      lastResponse := [];
      replies := script;
      written := [];
      emitted := [];
      hung := false;
    }

    /** writeToElmStr, writeToElmBA, setSendCanID, setRecvCanID (tp20.cpp:234-252). */
    method Queue(c: Command)
      modifies this`written
      ensures written == old(written) + [c]
    {
      written := written + [c];
    }

    /** The adapter's next reply. */
    method NextReply() returns (r: Reply)
      modifies this`replies
      ensures r == ReplyAt(old(replies), 0) && replies == Skip(old(replies), 1)
    {
      if replies == [] {
        r := Silent;
      } else {
        r := replies[0];
        replies := replies[1..];
      }
    }

    /** setChannelClosed (tp20.cpp:254-259). */
    method SetChannelClosed()
      modifies this`channelDest
      ensures channelDest == -1
    {
      channelDest := -1;
    }

    /** tp20::getResponseStatus (tp20.cpp:605-619). */
    method GetResponseStatus(expectedResult: Status) returns (ok: bool)
      modifies this`replies
      ensures Outcome(ok, State()) == StatusCall(old(State()))
    {
      var r := NextReply();
      ok := r.ok;
    }

    /** tp20::getResponseStr (tp20.cpp:677-690). */
    method GetResponseStr() returns (text: string)
      modifies this`replies
      ensures (text, State()) == StrCall(old(State()))
    {
      var r := NextReply();
      text := r.text;
    }

    /**
     * checkForCommands (tp20.cpp:621-640): each channel test is answered
     * and removed from the list; a disconnect closes the channel.
     */
    method CheckForCommands() returns (ok: bool)
      modifies this`lastResponse, this`written, this`replies, this`channelDest
      ensures var c := Commands(old(lastResponse));
        && ok == !c.broke && lastResponse == c.kept
        && written == old(written) + Repeat(Text("A3"), c.tests) && replies == Skip(old(replies), c.tests)
        && channelDest == (if c.broke then -1 else old(channelDest))
    {
      ghost var target := Commands(lastResponse);
      ghost var tests := 0;
      ghost var w := written;
      ghost var q := replies;
      var list := lastResponse;
      var i := 0;
      assert list[i..] == list && list[..i] == [];
      while i < |list|
        invariant 0 <= i <= |list|
        invariant CommandLoop(list[i..], list[..i], tests) == target
        invariant written == w + Repeat(Text("A3"), tests) && replies == Skip(q, tests)
        invariant channelDest == old(channelDest) && lastResponse == old(lastResponse)
        decreases |list| - i
      {
        var op := ByteAt(list[i].data, 0);
        if op == 0xA3 {
          Queue(Text("A3"));
          var _ := GetResponseStr();
          Skip2(q, tests);
          RemoveAt(list, i);
          list := list[..i] + list[i + 1..];
          tests := tests + 1;
        } else if op == 0xA8 || op == 0xA4 {
          assert list[..i] + list[i..] == list;
          lastResponse := list;
          SetChannelClosed();
          return false;
        } else {
          assert list[..i + 1] == list[..i] + [list[i]];
          i := i + 1;
        }
      }
      assert list[..i] == list;
      lastResponse := list;
      return true;
    }

    /**
     * tp20::getResponseCAN (tp20.cpp:642-675): the adapter's frames replace
     * lastResponse, peer commands are handled, and the call succeeds only
     * on the status the caller expects.
     */
    method GetResponseCAN(replyExpected: bool) returns (ok: bool)
      modifies this`lastResponse, this`written, this`replies, this`channelDest
      ensures Outcome(ok, State()) == CanCall(old(State()), replyExpected)
    {
      var r := NextReply();
      lastResponse := r.frames;
      var status := r.status;
      var noBreak := CheckForCommands();
      if !noBreak {
        return false;
      }
      if lastResponse == [] {
        status := status + {NoDataResponse};
      }
      ok := Accepted(replyExpected, status);
    }

    /** applyRecvTimeout (tp20.cpp:280-301). */
    method ApplyRecvTimeout(msecs: int) returns (ok: bool)
      modifies this`written, this`replies, this`recvTimeout
      ensures Outcome(ok, State()) == TimeoutCall(old(State()), msecs)
    {
      var ms := msecs;
      if ms > 1020 {
        ms := 1020;
      }
      if ms < 0 {
        ms := 0;
      }
      var val := ms / 4;
      Queue(Text("AT ST " + ToHexUnsigned(val)));
      ok := GetResponseStatus({OkResponse});
      if !ok {
        recvTimeout := -1;
        return false;
      }
      recvTimeout := ms;
      return true;
    }

    /** checkSeq (tp20.cpp:483-498). */
    method CheckSeq() returns (ok: bool)
      modifies this`rxSeq
      ensures SeqResult(ok, rxSeq) == SeqCheck(lastResponse, old(rxSeq))
    {
      ghost var target := SeqCheck(lastResponse, rxSeq);
      var i := 0;
      while i < |lastResponse|
        invariant 0 <= i <= |lastResponse|
        invariant SeqCheck(lastResponse[i..], rxSeq) == target
      {
        assert lastResponse[i..][1..] == lastResponse[i + 1..];
        var tmp := GetAsDT(lastResponse[i]);
        if tmp.opcode > 3 {
          i := i + 1;
          continue;
        }
        var expected := rxSeq % 16;
        rxSeq := Inc(rxSeq);
        if tmp.seqNo != expected {
          return false;
        }
        i := i + 1;
      }
      return true;
    }

    /** sendACK (tp20.cpp:303-311). */
    method SendACK(dataFollowing: bool) returns (ok: bool)
      modifies this`lastResponse, this`written, this`replies, this`channelDest
      ensures Outcome(ok, State()) == AckCall(old(State()), dataFollowing)
    {
      Queue(Frame([0xB0 + rxSeq % 16]));
      ok := GetResponseCAN(dataFollowing);
    }

    /** The timeout check of openChannel and sendData. */
    method EnsureTimeout(timeout: int) returns (ok: bool)
      modifies this`written, this`replies, this`recvTimeout
      ensures Outcome(ok, State()) == TimeoutFor(old(State()), timeout)
    {
      ok := true;
      if recvTimeout != timeout {
        ok := ApplyRecvTimeout(timeout);
      }
    }

    /** Both CAN identifiers of the adapter, each answered "OK". */
    method SetCanIds(tx: int, rx: int) returns (ok: bool)
      modifies this`written, this`replies
      ensures Outcome(ok, State()) == SetIds(old(State()), tx, rx)
    {
      Queue(SendId(tx));
      ok := GetResponseStatus({OkResponse});
      if !ok {
        return;
      }
      Queue(RecvId(rx));
      ok := GetResponseStatus({OkResponse});
    }

    /** The checks on the reply to the setup request (tp20.cpp:527-540). */
    method TakeSetup(replied: bool) returns (ok: bool)
      requires replied ==> lastResponse != []
      modifies this`rxID, this`txID, this`channelDest
      ensures Outcome(ok, State()) == SetupReply(Outcome(replied, old(State())))
    {
      if !replied || !CheckResponse(lastResponse, 7) {
        SetChannelClosed();
        return false;
      }
      var setup := GetAsCS(lastResponse[0]);
      rxID := setup.rxPre * 256 + setup.rxID;
      if setup.opcode != 0xD0 || rxID != 0x300 || setup.rxV > 0 || setup.txV > 0 {
        SetChannelClosed();
        return false;
      }
      txID := setup.txPre * 256 + setup.txID;
      return true;
    }

    /** The checks on a parameter reply (tp20.cpp:555-566 and 589-602). */
    method TakeParams(replied: bool) returns (ok: bool)
      requires replied ==> lastResponse != []
      modifies this`bs, this`t1, this`t3, this`channelDest
      ensures Outcome(ok, State()) == ParamReply(Outcome(replied, old(State())))
    {
      if !replied || !CheckResponse(lastResponse, 6) {
        SetChannelClosed();
        return false;
      }
      var param := GetAsCP(lastResponse[0]);
      if param.opcode != 0xA1 || param.bs > 0xF {
        SetChannelClosed();
        return false;
      }
      bs := param.bs;
      t1 := param.t1;
      t3 := param.t3;
      return true;
    }

    /** One turn of recvData's outer loop (tp20.cpp:139-230). */
    method Turn(ret: seq<byte>, first: bool, newBatch: bool) returns (going: bool, msg: seq<byte>, nextFirst: bool, nextNew: bool)
      requires !first ==> lastResponse != []
      modifies this
      ensures var n := Step(old(State()), ret, first, newBatch);
        going == n.going && State() == n.s && (going ==> msg == n.msg && nextFirst == n.first && nextNew == n.newBatch)
    {
      going, msg, nextFirst, nextNew := false, [], false, false;
      if first && !(|lastResponse| > 0 && |lastResponse[0].data| > 2) {
        return;
      }
      var seqOk := BeginTurn(first);
      if !seqOk {
        return;
      }
      if !newBatch {
        hung := true;
        return;
      }
      going, msg, nextFirst, nextNew := DeliverBatch(if first then [] else ret);
    }

    /** The first-segment handling and checkSeq of a turn (tp20.cpp:142-172). */
    method BeginTurn(first: bool) returns (ok: bool)
      requires first ==> |lastResponse| > 0 && |lastResponse[0].data| > 2
      modifies this`lastResponse, this`rxSeq
      ensures Outcome(ok, State()) == Begin(old(State()), first)
    {
      if first {
        lastResponse := [StripLength(lastResponse[0])] + lastResponse[1..];
      }
      ok := CheckSeq();
    }

    /** The segment loop of a turn (tp20.cpp:174-229). */
    method DeliverBatch(ret: seq<byte>) returns (going: bool, msg: seq<byte>, nextFirst: bool, nextNew: bool)
      requires lastResponse != []
      modifies this`lastResponse, this`written, this`replies, this`channelDest, this`emitted
      ensures var n := Deliver(old(State()), ret);
        going == n.going && State() == n.s && (going ==> msg == n.msg && nextFirst == n.first && nextNew == n.newBatch)
    {
      going, msg, nextFirst, nextNew := false, [], false, false;
      var valid, m := TakeBatch(lastResponse, ret);
      if !valid {
        return;
      }
      msg := m;
      var last := Op(lastResponse[|lastResponse| - 1]);
      if last == 2 {
        return true, msg, false, false;
      }
      if last == 3 {
        emitted := emitted + [msg];
        return;
      }
      if last == 1 {
        emitted := emitted + [msg];
      }
      going, nextFirst, nextNew := Acknowledge(msg, last == 0);
    }

    /** The ACK at the end of a batch (tp20.cpp:212-227). */
    method Acknowledge(msg: seq<byte>, more: bool) returns (going: bool, nextFirst: bool, nextNew: bool)
      modifies this`lastResponse, this`written, this`replies, this`channelDest
      ensures var n := AckTurn(old(State()), msg, more);
        going == n.going && State() == n.s && (going ==> nextFirst == n.first && nextNew == n.newBatch)
    {
      going, nextFirst, nextNew := false, false, false;
      var acked := SendACK(more);
      if acked {
        if more {
          going, nextFirst, nextNew := true, false, true;
        }
      } else if lastResponse != [] {
        going, nextFirst, nextNew := true, true, true;
      }
    }

    /** The outer loop of recvData, from the first segment of the reply on (tp20.cpp:128-231). */
    method ReceiveMessages()
      requires lastResponse != []
      modifies this
      ensures State() == RecvLoop(old(State()), [], true, true)
    {
      ghost var target := RecvLoop(State(), [], true, true);
      var ret: seq<byte> := [];
      var first, newBatch, keepGoing := true, true, true;
      while keepGoing
        invariant keepGoing ==> (first ==> newBatch) && (!first ==> lastResponse != [])
        invariant keepGoing ==> RecvLoop(State(), ret, first, newBatch) == target
        invariant !keepGoing ==> State() == target
        decreases (if keepGoing then 1 else 0), |replies|, (if newBatch then 1 else 0)
      {
        keepGoing, ret, first, newBatch := Turn(ret, first, newBatch);
      }
    }

    /** sendData (tp20.cpp:53-117). */
    method SendData(data: seq<byte>, requestedTimeout: int)
      requires SendSafe(State(), data)
      modifies this
      ensures State() == Send(old(State()), data, requestedTimeout)
    {
      if channelDest < 0 || |data| == 0 || |data| > 65535 {
        return;
      }
      var ok := EnsureTimeout(requestedTimeout);
      if !ok {
        SetChannelClosed();
        return;
      }
      var len := |data|;
      var buf := [(len / 256) as byte, (len % 16) as byte] + data;
      assert buf == Framed(data);
      SendFramed(buf);
    }

    /**
     * The segment loop of sendData; the recvData call made at the last
     * segment is made here, once the loop has returned at that segment.
     */
    method SendFramed(buf: seq<byte>)
      requires |buf| > 0
      requires bs != 0 || |buf| <= 7
      modifies this
      ensures State() == Sent(old(State()), buf)
    {
      var last := SendSegments(buf);
      if last {
        RecvData();
      }
    }

    /** The segment loop of sendData (tp20.cpp:79-116), up to the reception of the reply. */
    method SendSegments(buf: seq<byte>) returns (last: bool)
      requires |buf| > 0
      requires bs != 0 || |buf| <= 7
      modifies this
      ensures Outcome(last, State()) == SendLoop(old(State()), buf, 0)
    {
      ghost var target := SendLoop(State(), buf, 0);
      var numPackets := (|buf| + 6) / 7;
      PacketCount(|buf|, numPackets);
      var i := 0;
      last := false;
      while i < numPackets
        invariant 0 <= i <= numPackets
        invariant i < numPackets ==> 7 * i < |buf| && (bs != 0 || |buf| - 7 * i <= 7) && SendLoop(State(), buf, i) == target
        invariant i == numPackets ==> Outcome(last, State()) == target
      {
        SendLoopStep(State(), buf, i);
        var ok := SendPacket(buf, i);
        if !ok {
          return false;
        }
        if |buf| - 7 * i <= 7 {
          last := true;
        }
        i := i + 1;
      }
    }

    /** One segment of sendData (tp20.cpp:81-115), up to the reception of the reply. */
    method SendPacket(buf: seq<byte>, i: nat) returns (ok: bool)
      requires 7 * i < |buf|
      requires bs != 0 || |buf| - 7 * i <= 7
      modifies this
      ensures Outcome(ok, State()) == SendSegment(old(State()), buf, i)
    {
      var bytesLeft := |buf| - 7 * i;
      WritePacket(buf, i);
      if bs != 0 { AckDueMod(i, bs); }
      if bytesLeft <= 7 {
        return true;
      } else if i % bs == bs - 1 {
        ok := GetResponseCAN(true);
        if !ok {
          return;
        }
        if |lastResponse| > 1 || !CheckAck(lastResponse, txSeq) {
          return false;
        }
      } else {
        ok := GetResponseStatus({NoDataResponse});
      }
    }

    /** The control byte with txSeq++, then the segment (tp20.cpp:85-87, 92-94, 105-107). */
    method WritePacket(buf: seq<byte>, i: nat)
      requires 7 * i < |buf|
      requires bs != 0 || |buf| - 7 * i <= 7
      modifies this`txSeq, this`written
      ensures txSeq == Inc(old(txSeq))
      ensures written == old(written) + [Frame(Packet(buf, i, bs, old(txSeq)))]
    {
      var packet: seq<byte>;
      if bs != 0 { AckDueMod(i, bs); }
      if |buf| - 7 * i <= 7 {
        packet := [0x10 + txSeq % 16] + buf[7 * i..];
      } else if i % bs == bs - 1 {
        packet := [0x00 + txSeq % 16] + buf[7 * i..7 * i + 7];
      } else {
        packet := [0x20 + txSeq % 16] + buf[7 * i..7 * i + 7];
      }
      txSeq := Inc(txSeq);
      Queue(Frame(packet));
    }

    /** recvData (tp20.cpp:119-232): the ACK of the last segment sent, then the reply. */
    method RecvData()
      modifies this
      ensures State() == Recv(old(State()))
    {
      var ok := GetResponseCAN(true);
      if !ok {
        return;
      }
      if !CheckAck(lastResponse, txSeq) || |lastResponse| < 2 {
        return;
      }
      lastResponse := lastResponse[1..];
      ReceiveMessages();
    }

    /** A command answered with the timing parameters (tp20.cpp:552-566, 589-602). */
    method Negotiate(cmd: string) returns (ok: bool)
      modifies this`lastResponse, this`written, this`replies, this`channelDest, this`bs, this`t1, this`t3
      ensures Outcome(ok, State()) == ParamExchange(old(State()), cmd)
    {
      Queue(Text(cmd));
      ok := GetResponseCAN(true);
      ok := TakeParams(ok);
    }

    /** The timeout and the broadcast identifiers of openChannel (tp20.cpp:506-524). */
    method AddressModule(dest: Int32, timeout: int) returns (ok: bool)
      modifies this`written, this`replies, this`recvTimeout
      ensures Outcome(ok, State()) == Address(old(State()), dest, timeout)
    {
      ok := EnsureTimeout(timeout);
      if ok {
        ok := SetCanIds(0x200, 0x200 + dest);
      }
    }

    /** openChannel (tp20.cpp:500-571). */
    method OpenChannel(dest: Int32, timeout: int)
      modifies this
      ensures State() == Open(old(State()), dest, timeout)
    {
      if !elmInitilised {
        return;
      }
      var ok := AddressModule(dest, timeout);
      if !ok {
        SetChannelClosed();
        return;
      }
      RequestSetup(dest);
    }

    /** openChannel from the restart of the sequence numbers on (tp20.cpp:526-570). */
    method RequestSetup(dest: Int32)
      modifies this
      ensures State() == OpenSetup(old(State()), dest)
    {
      ghost var s0 := State().(rxSeq := 0, txSeq := 0);
      rxSeq := 0;
      txSeq := 0;
      assert State() == s0;
      ghost var u := SetupExchange(s0, SetupRequest(dest));
      var ok := RequestChannel(SetupRequest(dest));
      assert State() == u.s;
      if ok {
        RequestParams(dest);
      }
    }

    /** A channel setup request and its reply (tp20.cpp:529-540). */
    method RequestChannel(request: string) returns (ok: bool)
      modifies this`written, this`lastResponse, this`replies, this`channelDest, this`rxID, this`txID
      ensures Outcome(ok, State()) == SetupExchange(old(State()), request)
    {
      Queue(Text(request));
      ok := GetResponseCAN(true);
      ok := TakeSetup(ok);
    }

    /** The identifiers and the parameter exchange of openChannel (tp20.cpp:542-570). */
    method RequestParams(dest: Int32)
      modifies this
      ensures State() == OpenParams(old(State()), dest)
    {
      var ok := SetCanIds(txID, rxID);
      if !ok {
        SetChannelClosed();
        return;
      }
      ok := Negotiate(ParamRequest);
      if ok {
        channelDest := dest;
      }
    }

    /** closeChannel (tp20.cpp:573-578). */
    method CloseChannel()
      modifies this
      ensures State() == Close(old(State()))
    {
      Queue(Text("A8"));
      var _ := GetResponseCAN(true);
      SetChannelClosed();
    }

    /** sendKeepAlive (tp20.cpp:580-603). */
    method SendKeepAlive()
      modifies this
      ensures State() == KeepAlive(old(State()))
    {
      if channelDest < 0 {
        return;
      }
      var _ := Negotiate("A3");
    }

    /** elmInitialisationFailed (tp20.cpp:261-268). */
    method InitialisationFailed()
      modifies this`elmInitilised, this`written
      ensures State() == InitFailed(old(State()))
    {
      elmInitilised := false;
      Queue(ClosePort);
    }

    /** A query whose reply is kept as text. */
    method Ask(cmd: string) returns (text: string)
      modifies this`written, this`replies
      ensures (text, State()) == Query(old(State()), cmd)
    {
      Queue(Text(cmd));
      text := GetResponseStr();
    }

    /** A configuration command that must be answered "OK". */
    method Require(cmd: string) returns (ok: bool)
      modifies this`written, this`replies
      ensures Outcome(ok, State()) == Expect(old(State()), cmd)
    {
      Queue(Text(cmd));
      ok := GetResponseStatus({OkResponse});
    }

    /** initialiseElm (tp20.cpp:321-410). */
    method InitialiseElm(open: bool)
      modifies this
      ensures State() == Init(old(State()), open)
    {
      if !open {
        elmInitilised := false;
        if channelDest >= 0 {
          SetChannelClosed();
        }
        return;
      }
      var ok := TurnEchoOff();
      if !ok {
        InitialisationFailed();
        return;
      }
      InitialiseIdentified();
    }

    /** initialiseElm after echo is off (tp20.cpp:333-401). */
    method InitialiseIdentified()
      modifies this
      ensures State() == Identified(old(State()))
    {
      var ok := IdentifyAdapter();
      if !ok {
        InitialisationFailed();
        return;
      }
      InitialiseMode();
    }

    /** initialiseElm after the identification (tp20.cpp:365-401). */
    method InitialiseMode()
      modifies this
      ensures State() == Configured(old(State()))
    {
      var ok := SetMode();
      if !ok {
        InitialisationFailed();
        return;
      }
      elmInitilised := true;
    }

    /** tp20.cpp:324-331. */
    method TurnEchoOff() returns (ok: bool)
      modifies this`written, this`replies
      ensures Outcome(ok, State()) == EchoOff(old(State()))
    {
      var _ := Ask("AT E0");
      ok := Require("AT E0");
    }

    /** tp20.cpp:333-363. */
    method IdentifyAdapter() returns (ok: bool)
      modifies this`written, this`replies
      ensures Outcome(ok, State()) == Identify(old(State()))
    {
      var _ := Ask("AT I");
      var _ := Ask("AT @1");
      var stFirmware := Ask("ST I");
      ok := IdentifyDevice(stFirmware);
    }

    /** The ST-device queries and pass-all filter of initialiseElm (tp20.cpp:342-363). */
    method IdentifyDevice(stFirmware: string) returns (ok: bool)
      modifies this`written, this`replies
      ensures Outcome(ok, State()) == StDevice(old(State()), stFirmware)
    {
      ok := true;
      if stFirmware != "?" {
        var _ := Ask("ST DI");
        var _ := Ask("ST MFR");
        var _ := Ask("ST SN");
        ok := Require("ST FAP 000,000");
      }
    }

    /** The protocol settings of initialiseElm (tp20.cpp:365-398). */
    method SetMode() returns (ok: bool)
      modifies this`written, this`replies
      ensures Outcome(ok, State()) == Mode(old(State()))
    {
      ok := Require("AT PB C0 01");
      if !ok {
        return;
      }
      ok := Require("AT SP B");
      if !ok {
        return;
      }
      ok := Require("AT H1");
      if !ok {
        return;
      }
      ok := Require("AT D1");
      if !ok {
        return;
      }
      ok := Require("AT L0");
    }

    /** portClosed (tp20.cpp:412-417). */
    method PortClosed()
      modifies this
      ensures State() == AfterPortClosed(old(State()))
    {
      elmInitilised := false;
      SetChannelClosed();
    }
  }

  // ---------------------------------------------------------------- lemmas

  // ---------------------------------------------------------------- lemmas: records

  /** getAsCS reads back the setup record whose seven bytes a module sent. */
  lemma SetupRoundTrip(s: ChanSetup, f: CanFrame)
    requires s.rxV < 16 && s.rxPre < 16 && s.txV < 16 && s.txPre < 16
    requires |f.data| >= 7 && f.data[..7] == SetupBytes(s)
    ensures GetAsCS(f) == s
  {
    assert f.data[3] == s.rxV * 16 + s.rxPre && f.data[5] == s.txV * 16 + s.txPre;
  }

  /** getAsCP reads back the parameter record whose six bytes a module sent. */
  lemma ParamRoundTrip(p: ChanParam, f: CanFrame)
    requires |f.data| >= 6 && f.data[..6] == ParamBytes(p)
    ensures GetAsCP(f) == p
  {
    assert f.data[0] == p.opcode && f.data[1] == p.bs && f.data[2] == p.t1;
    assert f.data[3] == p.t2 && f.data[4] == p.t3 && f.data[5] == p.t4;
  }

  /** getAsDT splits a control byte into the opcode and sequence nibbles it was built from. */
  lemma ControlRoundTrip(op: byte, sq: byte, f: CanFrame)
    requires op < 16 && sq < 16
    requires |f.data| > 0 && f.data[0] == op * 16 + sq
    ensures GetAsDT(f) == DataTrans(op, sq)
  {
  }

  // ---------------------------------------------------------------- lemmas: decodeError

  /** The two characters after "Info: " that tell the status messages apart. */
  function Tag(f: Flag): (char, char) {
    match f
    case TimeoutError => ('T', 'i')
    case NoPromptError => ('N', 'o')
    case OkResponse => ('O', 'K')
    case StoppedResponse => ('S', 'T')
    case UnknownResponse => ('U', 'N')
    case AtResponse => ('A', 'T')
    case NoDataResponse => ('N', 'O')
    case ProcessingError => ('E', 'r')
    case CanError => ('C', 'A')
  }

  /** Each message carries its bit's tag right after "Info: " and is longer than the no-bits line. */
  lemma MessageTag(f: Flag)
    ensures |FlagMessage(f)| > |NoBitsMessage|
    ensures FlagMessage(f)[6] == Tag(f).0 && FlagMessage(f)[7] == Tag(f).1
  {
    match f
    case TimeoutError =>
    case NoPromptError =>
    case OkResponse =>
    case StoppedResponse =>
    case UnknownResponse =>
    case AtResponse =>
    case NoDataResponse =>
    case ProcessingError =>
    case CanError =>
  }

  /** Distinct status bits have distinct messages, none of them the no-bits line. */
  lemma FlagMessageInjective(f: Flag, g: Flag)
    ensures FlagMessage(f) == FlagMessage(g) ==> f == g
    ensures FlagMessage(f) != NoBitsMessage
  {
    MessageTag(f);
    MessageTag(g);
  }

  /** The messages for the bits of `order` that are set: exactly those bits, once each. */
  lemma {:induction false} FlagMessagesSpec(status: Status, order: seq<Flag>, f: Flag)
    requires f in order
    ensures FlagMessage(f) in FlagMessages(status, order) <==> f in status
    decreases |order|
  {
    var head := if order[0] in status then [FlagMessage(order[0])] else [];
    var tail := FlagMessages(status, order[1..]);
    assert FlagMessages(status, order) == head + tail;
    if f != order[0] {
      assert f in order[1..];
      FlagMessagesSpec(status, order[1..], f);
      FlagMessageInjective(f, order[0]);
    } else if f !in status && FlagMessage(f) in tail {
      FlagMessagesMember(status, order[1..], FlagMessage(f));
      var g :| g in order[1..] && g in status && FlagMessage(g) == FlagMessage(f);
      FlagMessageInjective(f, g);
    }
  }

  /** Every message listed belongs to a set bit of the order. */
  lemma {:induction false} FlagMessagesMember(status: Status, order: seq<Flag>, m: string)
    requires m in FlagMessages(status, order)
    ensures exists g :: g in order && g in status && FlagMessage(g) == m
    decreases |order|
  {
    if order != [] && m !in FlagMessages(status, order[1..]) {
      assert order[0] in order;
    } else if order != [] {
      FlagMessagesMember(status, order[1..], m);
      var g :| g in order[1..] && g in status && FlagMessage(g) == m;
      assert g in order;
    }
  }

  /**
   * decodeError's lines: the no-bits line exactly when no bit is set,
   * and the message of a bit exactly when that bit is set.
   */
  lemma DecodeErrorSpec(status: Status, f: Flag)
    ensures (NoBitsMessage in ErrorLines(status)) <==> status == {}
    ensures FlagMessage(f) in ErrorLines(status) <==> f in status
  {
    assert f in ReportOrder by {
      match f
      case TimeoutError => assert ReportOrder[0] == f;
      case NoPromptError => assert ReportOrder[1] == f;
      case OkResponse => assert ReportOrder[2] == f;
      case StoppedResponse => assert ReportOrder[3] == f;
      case UnknownResponse => assert ReportOrder[4] == f;
      case AtResponse => assert ReportOrder[5] == f;
      case NoDataResponse => assert ReportOrder[6] == f;
      case ProcessingError => assert ReportOrder[7] == f;
      case CanError => assert ReportOrder[8] == f;
    }
    FlagMessagesSpec(status, ReportOrder, f);
    if NoBitsMessage in FlagMessages(status, ReportOrder) {
      FlagMessagesMember(status, ReportOrder, NoBitsMessage);
      var g :| g in ReportOrder && g in status && FlagMessage(g) == NoBitsMessage;
      FlagMessageInjective(g, g);
    }
    if status != {} {
      var g :| g in status;
    }
  }

  /** Segment i exists exactly when i is below the number of 7-byte segments. */
  lemma PacketCount(n: nat, count: nat)
    requires count == (n + 6) / 7
    ensures forall i: nat :: i < count <==> 7 * i < n
    ensures forall i: nat :: i + 1 == count ==> n - 7 * i <= 7
  {
  }

  /** One segment of the loop: it ends the loop on failure or on the last segment, or hands on to the next. */
  lemma SendLoopStep(s: Link, buf: seq<byte>, i: nat)
    requires 7 * i < |buf|
    requires s.bs != 0 || |buf| - 7 * i <= 7
    ensures !SendSegment(s, buf, i).ok || |buf| - 7 * i <= 7 ==> SendLoop(s, buf, i) == SendSegment(s, buf, i)
    ensures SendSegment(s, buf, i).ok && |buf| - 7 * i > 7 ==>
      SendSegment(s, buf, i).s.bs != 0 && SendLoop(s, buf, i) == SendLoop(SendSegment(s, buf, i).s, buf, i + 1)
  {
  }

  /** AckDue is the remainder test of sendData. */
  lemma {:induction false} AckDueMod(i: nat, bs: byte)
    requires bs > 0
    ensures AckDue(i, bs) <==> i % bs == bs - 1
    decreases i
  {
    if i < bs {
      DivModUnique(i, bs, 0, i);
    } else {
      AckDueMod(i - bs, bs);
      var q, r := (i - bs) / bs, (i - bs) % bs;
      assert i - bs == q * bs + r;
      assert (q + 1) * bs == q * bs + bs;
      DivModUnique(i, bs, q + 1, r);
    }
  }

  /** Taking one more reply. */
  lemma Skip2(q: seq<Reply>, k: nat)
    ensures Skip(Skip(q, k), 1) == Skip(q, k + 1)
    ensures ReplyAt(Skip(q, k), 0) == ReplyAt(q, k)
  {
  }

  /** list.removeAt(i) keeps the frames before i and shifts the ones after it down. */
  lemma RemoveAt(list: seq<CanFrame>, i: nat)
    requires i < |list|
    ensures var r := list[..i] + list[i + 1..]; r[i..] == list[i..][1..] && r[..i] == list[..i]
  {
  }
}
