/**
 * The ELM327 line layer (elm327.cpp): serial chunks are assembled into
 * lines and queued; the consumers take lines from the queue and classify
 * an adapter reply into a status bitset and a list of CAN frames; outgoing
 * frames are rendered as hexadecimal text.
 *
 * The queue is filled by `ConstructLine` and emptied by `GetLine`. A read
 * from an empty queue returns "", which is what the source's timed wait
 * yields when nothing arrives in time.
 */
module Elm327 {
  import opened Util

  // ---------------------------------------------------------------- status bits (elm327.h:35-45)

  /** One bit of the status bitset the reply readers return. */
  datatype Flag =
    | TimeoutError | NoPromptError | OkResponse | StoppedResponse | UnknownResponse
    | AtResponse | NoDataResponse | ProcessingError | CanError

  /** The value of each bit in the `responses` enumeration. */
  function Bit(f: Flag): (b: int)
    ensures b > 0
  {
    match f
    case TimeoutError => 0x01
    case NoPromptError => 0x02
    case OkResponse => 0x04
    case StoppedResponse => 0x08
    case UnknownResponse => 0x10
    case AtResponse => 0x20
    case NoDataResponse => 0x40
    case ProcessingError => 0x80
    case CanError => 0x100
  }

  /** A status word, as the set of its bits that are set. */
  type Status = set<Flag>

  /** The canFrame record (canframe.h): identifier, declared length and payload. */
  datatype CanFrame = CanFrame(canID: int, length: int, data: seq<byte>)

  // ---------------------------------------------------------------- frame text

  /** QString::remove(' '). */
  function StripSpaces(s: string): (r: string)
    ensures |r| <= |s|
    ensures forall i :: 0 <= i < |r| ==> r[i] != ' '
  {
    if s == [] then [] else (if s[0] == ' ' then [] else [s[0]]) + StripSpaces(s[1..])
  }

  /** The bytes a string of hexadecimal pairs spells, or None when a pair is not hexadecimal. */
  function ParseBytes(s: string): (r: Option<seq<byte>>)
    requires |s| % 2 == 0
    decreases |s|
  {
    if s == [] then Some([])
    else if !IsHexDigit(s[0]) || !IsHexDigit(s[1]) then None
    else
      match ParseBytes(s[2..])
      case None => None
      case Some(rest) => Some([(DigitValue(s[0]) * 16 + DigitValue(s[1])) as byte] + rest)
  }

  /**
   * hexToCF (elm327.cpp:257-300): with the spaces removed, three hex
   * digits of identifier, one hex digit of length, then hexadecimal pairs
   * whose count must equal that length. Each field is read as plain hex
   * digits (ParseHex); the sign and "0x" forms Qt also accepts are not.
   */
  function HexToCF(line: string): Option<CanFrame> {
    DecodeFields(StripSpaces(line))
  }

  /** The fields of a CAN line once its spaces are removed; mid() clamps to the text. */
  function DecodeFields(t: string): Option<CanFrame> {
    var idField := if |t| < 3 then t else t[..3];
    var lenField := if |t| <= 3 then "" else t[3..4];
    var dataField := if |t| <= 4 then "" else t[4..];
    match ParseHex(idField)
    case None => None
    case Some(id) =>
      match ParseHex(lenField)
      case None => None
      case Some(len) =>
        if |dataField| % 2 != 0 then None
        else
          match ParseBytes(dataField)
          case None => None
          case Some(data) => if |data| != len then None else Some(CanFrame(id, len, data))
  }

  /** The outcome of the remaining pairs, with `done` bytes already decoded in front. */
  function Prepend(done: seq<byte>, rest: Option<seq<byte>>): Option<seq<byte>> {
    match rest
    case None => None
    case Some(r) => Some(done + r)
  }

  lemma PrependEmpty(rest: Option<seq<byte>>)
    ensures Prepend([], rest) == rest
  {
    if rest.Some? {
      assert [] + rest.value == rest.value;
    }
  }

  lemma PrependAssoc(done: seq<byte>, b: byte, rest: Option<seq<byte>>)
    ensures Prepend(done, Prepend([b], rest)) == Prepend(done + [b], rest)
  {
    if rest.Some? {
      assert done + ([b] + rest.value) == done + [b] + rest.value;
    }
  }

  /** The pair loop of hexToCF (elm327.cpp:285-292): one byte per two hex digits, failing on the first bad pair. */
  method DecodePairs(s: string) returns (r: Option<seq<byte>>)
    requires |s| % 2 == 0
    ensures r == ParseBytes(s)
  {
    var data: seq<byte> := [];
    var i := 0;
    assert s[2 * i..] == s;
    PrependEmpty(ParseBytes(s));
    while i < |s| / 2
      invariant 0 <= i <= |s| / 2
      invariant ParseBytes(s) == Prepend(data, ParseBytes(s[2 * i..]))
    {
      var pair := ParseHex(s[2 * i..2 * i + 2]);
      PairParse(s[2 * i..]);
      assert s[2 * i..][..2] == s[2 * i..2 * i + 2];
      assert s[2 * i..][2..] == s[2 * (i + 1)..];
      if pair.None? {
        return None;
      }
      var b := pair.value as byte;
      assert ParseBytes(s[2 * i..]) == Prepend([b], ParseBytes(s[2 * (i + 1)..]));
      PrependAssoc(data, b, ParseBytes(s[2 * (i + 1)..]));
      data := data + [b];
      i := i + 1;
    }
    assert s[2 * i..] == [];
    assert data + [] == data;
    r := Some(data);
  }

  /** hexToCF (elm327.cpp:257-300): remove the spaces, then read the identifier, length and data fields. */
  method DecodeLine(input: string) returns (frame: Option<CanFrame>)
    ensures frame == HexToCF(input)
  {
    var t := StripSpaces(input);
    var id := ParseHex(if |t| < 3 then t else t[..3]);
    if id.None? {
      return None;
    }
    var len := ParseHex(if |t| <= 3 then "" else t[3..4]);
    if len.None? {
      return None;
    }
    var dataStr := if |t| <= 4 then "" else t[4..];
    if |dataStr| % 2 != 0 {
      return None;
    }
    var data := DecodePairs(dataStr);
    if data.None? || |data.value| != len.value {
      return None;
    }
    frame := Some(CanFrame(id.value, len.value, data.value));
  }

  /** Each byte as two upper-case hex digits followed by a space: the loop of write(QByteArray). */
  function SpacedHex(data: seq<byte>): string {
    if data == [] then "" else ToHex(data[0]) + " " + SpacedHex(data[1..])
  }

  /**
   * The text write(QByteArray) sends (elm327.cpp:99-113): nothing for more
   * than eight bytes, otherwise the spaced pairs with the last character
   * chopped.
   */
  function FrameText(data: seq<byte>): Option<string> {
    if |data| > 8 then None else Some(JoinedHex(data))
  }

  /** The pairs with single spaces between them and none after the last. */
  function JoinedHex(data: seq<byte>): string {
    if data == [] then ""
    else if |data| == 1 then ToHex(data[0])
    else ToHex(data[0]) + " " + JoinedHex(data[1..])
  }

  /** The same bytes without separators. */
  function HexBytes(data: seq<byte>): string {
    if data == [] then "" else ToHex(data[0]) + HexBytes(data[1..])
  }

  /** A received frame as the adapter prints it with headers and lengths on (AT H1, AT D1). */
  function AdapterLine(f: CanFrame): string
    requires 0 <= f.canID < 0x1000 && 0 <= f.length < 16
  {
    ToHex(f.canID, 3) + " " + ToHex(f.length, 1) + " " + SpacedHex(f.data)
  }

  // ---------------------------------------------------------------- reading replies

  /** The k-th line the reader takes from queue q: "" once the queue is exhausted. */
  function LineAt(q: seq<string>, k: nat): string {
    if k < |q| then q[k] else ""
  }

  /** The queue after k lines have been taken. */
  function Drop(q: seq<string>, k: nat): seq<string> {
    if k <= |q| then q[k..] else []
  }

  /** left(2) == "AT": the adapter echoed the command. */
  predicate IsEcho(line: string) {
    |line| >= 2 && line[..2] == "AT"
  }

  /** A decoder of adapter lines into CAN frames; the adapter's is HexToCF. */
  type Decoder = string -> Option<CanFrame>

  /** The bit one line of the frame loop sets (elm327.cpp:163-172). */
  function LineFlags(dec: Decoder, line: string): Status {
    if line == "STOPPED" then {StoppedResponse}
    else if dec(line).None? then {ProcessingError}
    else {}
  }

  /** The frame one line of the frame loop appends (elm327.cpp:167-173). */
  function LineFrames(dec: Decoder, line: string): seq<CanFrame> {
    if line != "STOPPED" && dec(line).Some? then [dec(line).value] else []
  }

  /** The frames of the n lines from index `from` on that decode, in arrival order. */
  function Decoded(dec: Decoder, q: seq<string>, from: nat, n: nat): seq<CanFrame>
    decreases n
  {
    if n == 0 then [] else LineFrames(dec, LineAt(q, from)) + Decoded(dec, q, from + 1, n - 1)
  }

  /** The bits the n lines from index `from` on set. */
  function LinesFlags(dec: Decoder, q: seq<string>, from: nat, n: nat): Status
    decreases n
  {
    if n == 0 then {} else LineFlags(dec, LineAt(q, from)) + LinesFlags(dec, q, from + 1, n - 1)
  }

  /** Lines taken and bits set before the frame loop of getResponseCAN (elm327.cpp:118-150). */
  datatype Head = Head(taken: nat, status: Status)

  /**
   * The echo check getResponseCAN and getResponseStatus start with
   * (elm327.cpp:123-126, 187-190): an echoed command sets AtResponse and
   * costs one more line.
   */
  function EchoSkip(q: seq<string>): Head {
    if IsEcho(LineAt(q, 0)) then Head(2, {AtResponse}) else Head(1, {})
  }

  function CanHead(q: seq<string>): (h: Head)
    ensures h.taken >= 1
  {
    var e := EchoSkip(q);
    match HeadFlag(LineAt(q, e.taken - 1))
    case None => e
    case Some(f) => Head(if f == TimeoutError then e.taken else e.taken + 1, e.status + {f})
  }

  /**
   * The bit a whole-line reply sets (elm327.cpp:128-150): an empty line is
   * a timeout, and the one-word replies each have their bit; a timeout
   * reads no further line, the others move to the next one.
   */
  function HeadFlag(line: string): Option<Flag> {
    if line == "" then Some(TimeoutError)
    else if line == "OK" then Some(OkResponse)
    else if line == "STOPPED" then Some(StoppedResponse)
    else if line == "?" then Some(UnknownResponse)
    else if line == "NO DATA" then Some(NoDataResponse)
    else if line == "CAN ERROR" then Some(CanError)
    else None
  }

  /** Lines processed before the prompt is looked for again: 1 once a status bit is set, else 20. */
  function PromptTries(st: Status): nat {
    if st != {} then 1 else 20
  }

  datatype CanRead = CanRead(frames: seq<CanFrame>, status: Status, taken: nat)

  /**
   * The frame loop (elm327.cpp:157-176): `k` lines have been read, the
   * current one is line k-1, `i` iterations are done.
   */
  function CanLoop(q: seq<string>, dec: Decoder, k: nat, i: nat, tries: nat, st: Status, frames: seq<CanFrame>): CanRead
    requires k >= 1 && i <= tries
    decreases tries - i
  {
    var line := LineAt(q, k - 1);
    if line == ">" then CanRead(frames, st, k)
    else if i >= tries then CanRead(frames, st + {NoPromptError}, k)
    else if line == "STOPPED" then CanLoop(q, dec, k + 1, i + 1, tries, st + {StoppedResponse}, frames)
    else
      match dec(line)
      case None => CanLoop(q, dec, k + 1, i + 1, tries, st + {ProcessingError}, frames)
      case Some(f) => CanLoop(q, dec, k + 1, i + 1, tries, st, frames + [f])
  }

  /** What getResponseCAN returns for the queue q, and how many lines it takes. */
  function ReadCAN(q: seq<string>): CanRead {
    var h := CanHead(q);
    CanLoop(q, HexToCF, h.taken, 0, PromptTries(h.status), h.status, [])
  }

  /**
   * The prompt loop shared by getResponseStatus and getResponseStr: from
   * line k on, at most three lines are read looking for ">". Returns the
   * lines read in total and whether the prompt came.
   */
  function PromptLoop(q: seq<string>, k: nat, i: nat): (nat, bool)
    requires i <= 2
    decreases 2 - i
  {
    if LineAt(q, k) == ">" then (k + 1, true)
    else if i >= 2 then (k + 1, false)
    else PromptLoop(q, k + 1, i + 1)
  }

  datatype StatusRead = StatusRead(ok: bool, status: Status, taken: nat)

  /** What getResponseStatus returns for the queue q (elm327.cpp:181-209). */
  function ReadStatus(q: seq<string>): StatusRead {
    var e := EchoSkip(q);
    var line := LineAt(q, e.taken - 1);
    var st := e.status + ReplyFlags(line);
    var p := PromptLoop(q, e.taken, 0);
    StatusRead(line == "OK", if p.1 then st else st + {NoPromptError}, p.0)
  }

  /** The bit getResponseStatus sets for its reply line (elm327.cpp:192-198). */
  function ReplyFlags(line: string): Status {
    if line == "OK" then {OkResponse} else if line == "?" then {UnknownResponse} else {}
  }

  datatype StrRead = StrRead(text: string, status: Status, taken: nat)

  /** What getResponseStr returns for the queue q (elm327.cpp:241-255): the first line, no echo handling. */
  function ReadStr(q: seq<string>): StrRead {
    var (taken, prompt) := PromptLoop(q, 1, 0);
    StrRead(LineAt(q, 0), if prompt then {} else {NoPromptError}, taken)
  }

  // ---------------------------------------------------------------- assembling lines

  predicate EndsLine(data: string) {
    |data| > 0 && (data[|data| - 1] == '\r' || data[|data| - 1] == '>')
  }

  /** The line made of a completed buffer: one trailing '\n' and then one trailing '\r' chopped. */
  function LineOf(data: string): string {
    var a := if |data| > 0 && data[|data| - 1] == '\n' then data[..|data| - 1] else data;
    if |a| > 0 && a[|a| - 1] == '\r' then a[..|a| - 1] else a
  }

  // ---------------------------------------------------------------- the adapter

  class Adapter {
    /** Whether the serial port is open; opening and closing it are not part of this model. */
    var portOpen: bool
    /** Everything written to the serial port, one string per write. */
    var sent: seq<string>
    /** constructLine's static buffer of bytes not yet forming a line. */
    var received: string
    /** Complete lines waiting to be read. */
    var bufferedLines: seq<string>
    var sendCanID: int
    var recvCanID: int

    /** elm327::elm327 (elm327.cpp:4-18). */
    constructor ()
      ensures !portOpen && sent == [] && received == [] && bufferedLines == []
      ensures sendCanID == 0 && recvCanID == 0
    {
      portOpen := false;
      sent := [];
      received := [];
      bufferedLines := [];
      sendCanID := 0;
      recvCanID := 0;
    }

    /** The outcome of openPort/closePort (elm327.cpp:25-81). */
    method SetPortOpen(open: bool)
      modifies this`portOpen
      ensures portOpen == open
    {
      portOpen := open;
    }

    /** write(QString) (elm327.cpp:83-97): the text and a carriage return, when the port is open. */
    method WriteText(txt: string)
      modifies this`sent
      ensures sent == old(sent) + (if portOpen then [txt + "\r"] else [])
    {
      if portOpen {
        sent := sent + [txt + "\r"];
      }
    }

    /** write(QByteArray) (elm327.cpp:99-113). */
    method WriteBytes(data: seq<byte>)
      modifies this`sent
      ensures sent == old(sent) + (if portOpen && FrameText(data).Some? then [FrameText(data).value + "\r"] else [])
    {
      if |data| > 8 {
        assert FrameText(data).None? && sent + [] == sent;
        return;
      }
      var txt := "";
      var i := 0;
      while i < |data|
        invariant 0 <= i <= |data|
        invariant txt + SpacedHex(data[i..]) == SpacedHex(data)
        invariant sent == old(sent)
      {
        assert data[i..][1..] == data[i + 1..];
        ghost var pair := ToHex(data[i]);
        assert SpacedHex(data[i..]) == pair + " " + SpacedHex(data[i + 1..]);
        Regroup(txt, pair, " ", SpacedHex(data[i + 1..]));
        txt := txt + ToHex(data[i]) + " ";
        i := i + 1;
      }
      assert data[i..] == [];
      assert txt == SpacedHex(data);
      ChopSpacedHex(data);
      if |txt| > 0 {
        txt := txt[..|txt| - 1];
      }
      assert FrameText(data) == Some(txt);
      WriteText(txt);
    }

    /** setSendCanID (elm327.cpp:227-232). */
    method SetSendCanID(id: Int32)
      modifies this`sendCanID, this`sent
      ensures sendCanID == id
      ensures sent == old(sent) + (if portOpen then ["AT SH " + ToHex(id, 3) + "\r"] else [])
    {
      sendCanID := id;
      WriteText("AT SH " + ToHex(id, 3));
    }

    /** setRecvCanID (elm327.cpp:234-239). */
    method SetRecvCanID(id: Int32)
      modifies this`recvCanID, this`sent
      ensures recvCanID == id
      ensures sent == old(sent) + (if portOpen then ["AT CRA " + ToHex(id, 3) + "\r"] else [])
    {
      recvCanID := id;
      WriteText("AT CRA " + ToHex(id, 3));
    }

    /** constructLine (elm327.cpp:316-346), given the chunk readAll() returned. */
    method ConstructLine(chunk: string)
      modifies this`received, this`bufferedLines
      ensures var data := old(received) + chunk;
        if EndsLine(data) then
          && received == []
          && bufferedLines == old(bufferedLines) + (if LineOf(data) == [] then [] else [LineOf(data)])
        else
          received == data && bufferedLines == old(bufferedLines)
    {
      received := received + chunk;
      if EndsLine(received) {
        var line := received;
        if line[|line| - 1] == '\n' {
          // never taken: the buffer ends with '\r' or '>'
          assert false;
        }
        if |line| > 0 && line[|line| - 1] == '\r' {
          line := line[..|line| - 1];
        }
        received := [];
        if line == [] {
          return;
        }
        bufferedLines := bufferedLines + [line];
      }
    }

    /** getLine (elm327.cpp:302-314): the oldest queued line, or "" when there is none. */
    method GetLine() returns (line: string)
      modifies this`bufferedLines
      ensures line == LineAt(old(bufferedLines), 0)
      ensures bufferedLines == Drop(old(bufferedLines), 1)
    {
      line := "";
      if bufferedLines != [] {
        line := bufferedLines[0];
        bufferedLines := bufferedLines[1..];
      }
    }

    /** The loop that waits for the prompt, reading at most three lines (elm327.cpp:201-206, 247-252). */
    method AwaitPrompt() returns (prompt: bool)
      modifies this`bufferedLines
      ensures var (taken, p) := PromptLoop(old(bufferedLines), 0, 0);
        prompt == p && bufferedLines == Drop(old(bufferedLines), taken)
    {
      ghost var q := bufferedLines;
      var i := 0;
      while true
        invariant 0 <= i <= 2
        invariant bufferedLines == Drop(q, i)
        invariant PromptLoop(q, i, i) == PromptLoop(q, 0, 0)
        decreases 2 - i
      {
        var line := GetLine();
        DropShift(q, i, 1);
        if line == ">" {
          return true;
        }
        if i >= 2 {
          return false;
        }
        i := i + 1;
      }
    }

    /** The echo check of getResponseCAN and getResponseStatus (elm327.cpp:123-126, 187-190). */
    method ReadEcho() returns (response: string, status: Status, ghost k: nat)
      modifies this`bufferedLines
      ensures EchoSkip(old(bufferedLines)) == Head(k, status)
      ensures bufferedLines == Drop(old(bufferedLines), k) && response == LineAt(old(bufferedLines), k - 1)
    {
      ghost var q := bufferedLines;
      status := {};
      response := GetLine();
      k := 1;
      TakeOne(q, 0);
      if |response| >= 2 && response[..2] == "AT" {
        status := status + {AtResponse};
        response := GetLine();
        TakeOne(q, 1);
        k := 2;
      }
    }

    /** The head of getResponseCAN (elm327.cpp:118-150): the echo, then one whole-line reply. */
    method ReadHead() returns (response: string, status: Status, ghost k: nat)
      modifies this`bufferedLines
      ensures CanHead(old(bufferedLines)) == Head(k, status)
      ensures bufferedLines == Drop(old(bufferedLines), k) && response == LineAt(old(bufferedLines), k - 1)
    {
      ghost var q := bufferedLines;
      response, status, k := ReadEcho();
      var flag := HeadFlag(response);
      if flag.Some? {
        status := status + {flag.value};
        if flag.value != TimeoutError {
          response := GetLine();
          TakeOne(q, k);
          k := k + 1;
        }
      }
    }

    /** getResponseCAN (elm327.cpp:116-179). */
    method GetResponseCAN() returns (frames: seq<CanFrame>, status: Status)
      modifies this`bufferedLines
      ensures var r := ReadCAN(old(bufferedLines));
        frames == r.frames && status == r.status && bufferedLines == Drop(old(bufferedLines), r.taken)
    {
      ghost var q := bufferedLines;
      var response;
      ghost var k;
      response, status, k := ReadHead();
      var tries := 20;
      if status != {} {
        tries := 1;
      }
      assert tries == PromptTries(status);
      ghost var taken;
      frames, status, taken := ReadFrames(response, status, tries, q, k);
    }

    /**
     * The frame loop of getResponseCAN (elm327.cpp:156-176): up to `tries`
     * lines before ">", each either STOPPED, a frame, or a failed decode.
     */
    method ReadFrames(first: string, st: Status, tries: nat, ghost q: seq<string>, ghost k0: nat)
      returns (frames: seq<CanFrame>, status: Status, ghost taken: nat)
      requires k0 >= 1 && bufferedLines == Drop(q, k0) && first == LineAt(q, k0 - 1)
      modifies this`bufferedLines
      ensures CanLoop(q, HexToCF, k0, 0, tries, st, []) == CanRead(frames, status, taken)
      ensures bufferedLines == Drop(q, taken)
    {
      var response := first;
      status := st;
      frames := [];
      ghost var k := k0;
      var i := 0;
      ghost var target := CanLoop(q, HexToCF, k0, 0, tries, st, []);
      while response != ">"
        invariant 0 <= i <= tries && k >= 1
        invariant bufferedLines == Drop(q, k) && response == LineAt(q, k - 1)
        invariant CanLoop(q, HexToCF, k, i, tries, status, frames) == target
        decreases tries - i
      {
        if i >= tries {
          status := status + {NoPromptError};
          break;
        }
        CanLoopStep(q, HexToCF, k, i, tries, status, frames);
        if response == "STOPPED" {
          status := status + {StoppedResponse};
        } else {
          var cf := DecodeLine(response);
          if cf.None? {
            status := status + {ProcessingError};
            response := GetLine();
            TakeOne(q, k);
            k := k + 1;
            i := i + 1;
            continue;
          }
          frames := frames + [cf.value];
        }
        response := GetLine();
        TakeOne(q, k);
        k := k + 1;
        i := i + 1;
      }
      taken := k;
    }

    /** getResponseStatus (elm327.cpp:181-209): true when the adapter answered "OK". */
    method GetResponseStatus() returns (ok: bool, status: Status)
      modifies this`bufferedLines
      ensures var r := ReadStatus(old(bufferedLines));
        ok == r.ok && status == r.status && bufferedLines == Drop(old(bufferedLines), r.taken)
    {
      ghost var q := bufferedLines;
      var response;
      ghost var k;
      response, status, k := ReadEcho();
      ok := response == "OK";
      status := status + ReplyFlags(response);
      var prompt := AwaitPromptAt(q, k);
      if !prompt {
        status := status + {NoPromptError};
      }
    }

    /** getResponseStr (elm327.cpp:241-255). */
    method GetResponseStr() returns (text: string, status: Status)
      modifies this`bufferedLines
      ensures var r := ReadStr(old(bufferedLines));
        text == r.text && status == r.status && bufferedLines == Drop(old(bufferedLines), r.taken)
    {
      ghost var q := bufferedLines;
      status := {};
      text := GetLine();
      TakeOne(q, 0);
      var prompt := AwaitPromptAt(q, 1);
      if !prompt {
        status := status + {NoPromptError};
      }
    }

    /** The prompt wait, once k lines of q have been read. */
    method AwaitPromptAt(ghost q: seq<string>, ghost k: nat) returns (prompt: bool)
      requires bufferedLines == Drop(q, k)
      modifies this`bufferedLines
      ensures var p := PromptLoop(q, k, 0); prompt == p.1 && bufferedLines == Drop(q, p.0)
    {
      prompt := AwaitPrompt();
      PromptLoopShift(q, k, 0, 0);
      DropShift(q, k, PromptLoop(Drop(q, k), 0, 0).0);
    }
  }

  // ---------------------------------------------------------------- lemmas

  /** Taking one more line from the queue left after k lines. */
  lemma TakeOne(q: seq<string>, k: nat)
    ensures LineAt(Drop(q, k), 0) == LineAt(q, k)
    ensures Drop(Drop(q, k), 1) == Drop(q, k + 1)
  {
  }

  /** Reading from the queue left after k lines is reading from line k on. */
  lemma DropShift(q: seq<string>, k: nat, j: nat)
    ensures LineAt(Drop(q, k), j) == LineAt(q, k + j)
    ensures Drop(Drop(q, k), j) == Drop(q, k + j)
  {
  }

  lemma {:induction false} PromptLoopShift(q: seq<string>, k: nat, j: nat, i: nat)
    requires i <= 2
    ensures PromptLoop(q, k + j, i).0 == k + PromptLoop(Drop(q, k), j, i).0
    ensures PromptLoop(q, k + j, i).1 == PromptLoop(Drop(q, k), j, i).1
    decreases 2 - i
  {
    DropShift(q, k, j);
    if LineAt(q, k + j) != ">" && i < 2 {
      PromptLoopShift(q, k, j + 1, i + 1);
    }
  }

  // ---------------------------------------------------------------- frame text lemmas

  lemma Regroup(a: string, b: string, c: string, d: string)
    ensures a + b + c + d == a + (b + c + d)
  {
  }

  lemma {:induction false} StripAppend(a: string, b: string)
    ensures StripSpaces(a + b) == StripSpaces(a) + StripSpaces(b)
    decreases |a|
  {
    if a == [] {
      assert a + b == b;
    } else {
      assert (a + b)[1..] == a[1..] + b;
      StripAppend(a[1..], b);
    }
  }

  lemma {:induction false} StripNone(s: string)
    requires forall i :: 0 <= i < |s| ==> s[i] != ' '
    ensures StripSpaces(s) == s
    decreases |s|
  {
    if s != [] {
      StripNone(s[1..]);
    }
  }

  /** A pair of upper-case hex digits from toHex(b, 2) reads back as b. */
  lemma ByteField(b: byte)
    ensures |ToHex(b)| == 2 && AllDigitsIn(ToHex(b), 16)
    ensures forall i :: 0 <= i < 2 ==> IsUpperHexDigit(ToHex(b)[i])
    ensures ParseHex(ToHex(b)) == Some(b)
    ensures DigitValue(ToHex(b)[0]) * 16 + DigitValue(ToHex(b)[1]) == b
  {
    PowSixteen();
    ToHexFixed(b, 2);
    ParseHexSpec(ToHex(b));
    PairValue(ToHex(b));
  }

  /** The separator-free rendering is two upper-case digits per byte. */
  lemma {:induction false} HexBytesShape(d: seq<byte>)
    ensures |HexBytes(d)| == 2 * |d|
    ensures forall i :: 0 <= i < |HexBytes(d)| ==> IsUpperHexDigit(HexBytes(d)[i])
    decreases |d|
  {
    if d != [] {
      HexBytesShape(d[1..]);
      ByteField(d[0]);
      var h := HexBytes(d);
      var rest := HexBytes(d[1..]);
      assert h == ToHex(d[0]) + rest;
      forall i | 0 <= i < |h| ensures IsUpperHexDigit(h[i]) {
        if i >= 2 { assert h[i] == rest[i - 2]; }
      }
    }
  }

  /** Removing the spaces from the spaced rendering leaves the separator-free one. */
  lemma {:induction false} StripSpacedHex(d: seq<byte>)
    ensures StripSpaces(SpacedHex(d)) == HexBytes(d)
    decreases |d|
  {
    if d != [] {
      StripSpacedHex(d[1..]);
      var pair := ToHex(d[0]);
      HexFieldUnspaced(d[0], 2);
      StripSpace();
      StripAppend(pair, " ");
      assert StripSpaces(pair + " ") == pair;
      StripAppend(pair + " ", SpacedHex(d[1..]));
    }
  }

  /** The separator-free rendering parses back to the bytes. */
  lemma {:induction false} ParseHexBytes(d: seq<byte>)
    ensures |HexBytes(d)| == 2 * |d| && ParseBytes(HexBytes(d)) == Some(d)
    decreases |d|
  {
    HexBytesShape(d);
    if d != [] {
      ParseHexBytes(d[1..]);
      ByteField(d[0]);
      var h := HexBytes(d);
      assert h == ToHex(d[0]) + HexBytes(d[1..]);
      assert h[2..] == HexBytes(d[1..]);
      assert h[0] == ToHex(d[0])[0] && h[1] == ToHex(d[0])[1];
      assert [d[0]] + d[1..] == d;
    }
  }

  /** The separator-free rendering is two digits per byte and parses back to the bytes. */
  lemma HexBytesRoundTrip(d: seq<byte>)
    ensures |HexBytes(d)| == 2 * |d|
    ensures forall i :: 0 <= i < |HexBytes(d)| ==> IsUpperHexDigit(HexBytes(d)[i])
    ensures StripSpaces(SpacedHex(d)) == HexBytes(d)
    ensures ParseBytes(HexBytes(d)) == Some(d)
  {
    HexBytesShape(d);
    StripSpacedHex(d);
    ParseHexBytes(d);
  }

  /** ParseBytes accepts exactly the all-hexadecimal strings and reads pair j as byte j. */
  lemma {:induction false} ParseBytesSpec(s: string)
    requires |s| % 2 == 0
    ensures ParseBytes(s).Some? <==> AllDigitsIn(s, 16)
    ensures ParseBytes(s).Some? ==>
      && |ParseBytes(s).value| == |s| / 2
      && forall j :: 0 <= j < |s| / 2 ==> ParseBytes(s).value[j] == ValueOf(s[2 * j..2 * j + 2], 16)
    decreases |s|
  {
    if s != [] {
      ParseBytesSpec(s[2..]);
      assert AllDigitsIn(s, 16) <==> AllDigitsIn(s[..2], 16) && AllDigitsIn(s[2..], 16) by {
        if AllDigitsIn(s[..2], 16) && AllDigitsIn(s[2..], 16) {
          forall i | 0 <= i < |s| ensures IsDigitIn(s[i], 16) {
            if i < 2 { assert s[i] == s[..2][i]; } else { assert s[i] == s[2..][i - 2]; }
          }
        }
      }
      if ParseBytes(s).Some? {
        var r := ParseBytes(s).value;
        var rest := ParseBytes(s[2..]).value;
        forall j | 0 <= j < |s| / 2
          ensures r[j] == ValueOf(s[2 * j..2 * j + 2], 16)
        {
          if j == 0 {
            PairValue(s[..2]);
          } else {
            assert r[j] == rest[j - 1];
            assert s[2..][2 * (j - 1)..2 * (j - 1) + 2] == s[2 * j..2 * j + 2];
          }
        }
      }
    }
  }

  /** The text of a CAN line with its spaces removed, as hexToCF accepts it. */
  predicate IsFrameText(t: string) {
    && |t| >= 4 && |t| % 2 == 0 && AllDigitsIn(t, 16)
    && (|t| - 4) / 2 == DigitValue(t[3])
  }

  lemma DigitsSplit(t: string)
    requires |t| >= 4
    ensures AllDigitsIn(t, 16) <==> AllDigitsIn(t[..3], 16) && IsHexNumber(t[3..4]) && AllDigitsIn(t[4..], 16)
  {
    if AllDigitsIn(t[..3], 16) && IsHexNumber(t[3..4]) && AllDigitsIn(t[4..], 16) {
      forall i | 0 <= i < |t| ensures IsDigitIn(t[i], 16) {
        if i < 3 { assert t[i] == t[..3][i]; }
        else if i == 3 { assert t[i] == t[3..4][0]; }
        else { assert t[i] == t[4..][i - 4]; }
      }
    }
  }

  /**
   * hexToCF succeeds exactly on lines that, without spaces, are three hex
   * digits of identifier, one of length L and 2L more hex digits; the frame
   * carries that identifier, L and pair j as byte j.
   */
  lemma HexToCFSpec(line: string)
    ensures HexToCF(line).Some? <==> IsFrameText(StripSpaces(line))
    ensures HexToCF(line).Some? ==>
      var t := StripSpaces(line);
      var f := HexToCF(line).value;
      && f.canID == ValueOf(t[..3], 16)
      && f.length == DigitValue(t[3])
      && |f.data| == f.length
      && forall j :: 0 <= j < |f.data| ==> f.data[j] == ValueOf(t[4 + 2 * j..6 + 2 * j], 16)
  {
    DecodeFieldsSpec(StripSpaces(line));
  }

  /** The field decoding of hexToCF, on the text with spaces already removed. */
  lemma DecodeFieldsSpec(t: string)
    ensures DecodeFields(t).Some? <==> IsFrameText(t)
    ensures DecodeFields(t).Some? ==>
      var f := DecodeFields(t).value;
      && f.canID == ValueOf(t[..3], 16)
      && f.length == DigitValue(t[3])
      && |f.data| == f.length
      && forall j :: 0 <= j < |f.data| ==> f.data[j] == ValueOf(t[4 + 2 * j..6 + 2 * j], 16)
  {
    ParseHexSpec(if |t| < 3 then t else t[..3]);
    ParseHexSpec(if |t| <= 3 then "" else t[3..4]);
    if |t| >= 4 {
      DigitsSplit(t);
      var dataField := t[4..];
      if |dataField| % 2 == 0 {
        ParseBytesSpec(dataField);
      }
      if IsHexNumber(t[3..4]) {
        assert ValueOf(t[3..4], 16) == DigitValue(t[3]) by {
          assert t[3..4][..0] == [];
        }
      }
      if DecodeFields(t).Some? {
        var f := DecodeFields(t).value;
        forall j | 0 <= j < |f.data|
          ensures f.data[j] == ValueOf(t[4 + 2 * j..6 + 2 * j], 16)
        {
          assert dataField[2 * j..2 * j + 2] == t[4 + 2 * j..6 + 2 * j];
        }
      }
    }
  }

  /** The pair reading on a two-character window: both characters must be hex digits. */
  lemma PairParse(t: string)
    requires |t| >= 2
    ensures ParseHex(t[..2]) ==
      if IsHexDigit(t[0]) && IsHexDigit(t[1]) then Some(DigitValue(t[0]) * 16 + DigitValue(t[1])) else None
  {
    assert t[..2][..1] == t[..1];
  }

  /** Removing spaces leaves a hexadecimal field unchanged. */
  lemma HexFieldUnspaced(n: Int32, places: nat)
    requires n >= 0
    ensures StripSpaces(ToHex(n, places)) == ToHex(n, places)
  {
    ToHexShape(n, places);
    StripNone(ToHex(n, places));
  }

  lemma StripSpace()
    ensures StripSpaces(" ") == ""
  {
    assert " "[1..] == "";
  }

  lemma StripFields(a: string, b: string, c: string)
    requires StripSpaces(a) == a && StripSpaces(b) == b
    ensures StripSpaces(a + " " + b + " " + c) == a + b + StripSpaces(c)
  {
    StripSpace();
    var u := a + " ";
    StripAppend(a, " ");
    assert StripSpaces(u) == a;
    var v := u + b;
    StripAppend(u, b);
    assert StripSpaces(v) == a + b;
    var w := v + " ";
    StripAppend(v, " ");
    assert StripSpaces(w) == a + b;
    StripAppend(w, c);
  }

  /** Without its spaces, an adapter line is the identifier, length and payload digits run together. */
  lemma StripAdapterLine(f: CanFrame)
    requires 0 <= f.canID < 0x1000 && 0 <= f.length < 16
    ensures StripSpaces(AdapterLine(f)) == ToHex(f.canID, 3) + ToHex(f.length, 1) + HexBytes(f.data)
  {
    HexFieldUnspaced(f.canID, 3);
    HexFieldUnspaced(f.length, 1);
    StripSpacedHex(f.data);
    StripFields(ToHex(f.canID, 3), ToHex(f.length, 1), SpacedHex(f.data));
  }

  /** A fixed-width hexadecimal field parses back to its value. */
  lemma ParseField(n: Int32, places: nat)
    requires 1 <= places && 0 <= n < Pow(16, places)
    ensures |ToHex(n, places)| == places && ParseHex(ToHex(n, places)) == Some(n)
  {
    ToHexFixed(n, places);
    ParseHexSpec(ToHex(n, places));
  }

  /** Three identifier digits, one length digit and the payload pairs decode as hexToCF reads them. */
  lemma DecodeParts(a: string, b: string, h: string, f: CanFrame)
    requires |a| == 3 && ParseHex(a) == Some(f.canID)
    requires |b| == 1 && ParseHex(b) == Some(f.length)
    requires |h| % 2 == 0 && ParseBytes(h) == Some(f.data) && |f.data| == f.length
    ensures DecodeFields(a + b + h) == Some(f)
  {
    var t := a + b + h;
    assert t[..3] == a;
    assert t[3..4] == b;
    assert t[4..] == h;
  }

  /** A frame the adapter prints with its header and length decodes back to itself. */
  lemma AdapterLineRoundTrip(f: CanFrame)
    requires 0 <= f.canID < 0x1000 && f.length == |f.data| < 16
    ensures HexToCF(AdapterLine(f)) == Some(f)
  {
    PowSixteen();
    var a, b, h := ToHex(f.canID, 3), ToHex(f.length, 1), HexBytes(f.data);
    ParseField(f.canID, 3);
    ParseField(f.length, 1);
    ParseHexBytes(f.data);
    Twice(|f.data|);
    DecodeParts(a, b, h, f);
    StripAdapterLine(f);
    assert HexToCF(AdapterLine(f)) == DecodeFields(a + b + h);
  }

  /** The spaced rendering: pair j at 3j, a space at every third position. */
  lemma {:induction false} SpacedHexLayout(d: seq<byte>)
    ensures |SpacedHex(d)| == 3 * |d|
    ensures forall i :: 0 <= i < |SpacedHex(d)| ==> (SpacedHex(d)[i] == ' ' <==> i % 3 == 2)
    ensures forall j :: 0 <= j < |d| ==> SpacedHex(d)[3 * j..3 * j + 2] == ToHex(d[j])
    decreases |d|
  {
    if d != [] {
      SpacedHexLayout(d[1..]);
      ByteField(d[0]);
      var s := SpacedHex(d);
      var rest := SpacedHex(d[1..]);
      assert s == ToHex(d[0]) + " " + rest;
      forall i | 0 <= i < |s| ensures s[i] == ' ' <==> i % 3 == 2 {
        if i >= 3 { assert s[i] == rest[i - 3]; }
      }
      forall j | 0 <= j < |d| ensures s[3 * j..3 * j + 2] == ToHex(d[j]) {
        if j > 0 {
          assert d[j] == d[1..][j - 1];
          assert s[3 * j..3 * j + 2] == rest[3 * (j - 1)..3 * (j - 1) + 2];
        }
      }
    }
  }

  /**
   * write(QByteArray) sends nothing for more than eight bytes; otherwise
   * two upper-case digits per byte with single spaces between them and no
   * trailing space.
   */
  lemma FrameTextLayout(data: seq<byte>)
    ensures FrameText(data).Some? <==> |data| <= 8
    ensures FrameText(data).Some? ==>
      var t := FrameText(data).value;
      && |t| == (if data == [] then 0 else 3 * |data| - 1)
      && (forall i :: 0 <= i < |t| ==> (t[i] == ' ' <==> i % 3 == 2))
      && (forall j :: 0 <= j < |data| ==> t[3 * j..3 * j + 2] == ToHex(data[j]))
  {
    if |data| <= 8 && data != [] {
      SpacedHexLayout(data);
      ChopSpacedHex(data);
      var s := SpacedHex(data);
      var t := JoinedHex(data);
      assert s == t + " ";
      forall i | 0 <= i < |t| ensures t[i] == s[i] {
      }
      forall j | 0 <= j < |data| ensures t[3 * j..3 * j + 2] == ToHex(data[j]) {
        assert s[3 * j..3 * j + 2] == t[3 * j..3 * j + 2];
      }
    }
  }

  /** Chopping the trailing space off the spaced rendering leaves the joined pairs. */
  lemma {:induction false} ChopSpacedHex(d: seq<byte>)
    ensures SpacedHex(d) == (if d == [] then "" else JoinedHex(d) + " ")
    ensures var s := SpacedHex(d); (if |s| > 0 then s[..|s| - 1] else s) == JoinedHex(d)
    decreases |d|
  {
    if d != [] {
      ChopSpacedHex(d[1..]);
      var s := SpacedHex(d);
      assert s[..|s| - 1] == JoinedHex(d) by {
        assert s == JoinedHex(d) + " ";
      }
    }
  }

  /** The text write(QByteArray) sends, with its spaces removed, is the bytes' digit pairs. */
  lemma FrameTextUnspaced(data: seq<byte>)
    requires |data| <= 8
    ensures StripSpaces(FrameText(data).value) == HexBytes(data)
  {
    if data != [] {
      ChopSpacedHex(data);
      StripSpace();
      StripAppend(JoinedHex(data), " ");
      HexBytesRoundTrip(data);
    }
  }

  /** What write(QByteArray) sends reads back, through hexToCF's pair parsing, as the bytes. */
  lemma FrameTextRoundTrip(data: seq<byte>)
    requires |data| <= 8
    ensures var t := StripSpaces(FrameText(data).value);
      |t| % 2 == 0 && ParseBytes(t) == Some(data)
  {
    var t := StripSpaces(FrameText(data).value);
    FrameTextUnspaced(data);
    ParseHexBytes(data);
    assert |t| == 2 * |data|;
    Twice(|data|);
  }

  lemma Twice(n: nat)
    ensures (2 * n) % 2 == 0
  {
  }

  // ---------------------------------------------------------------- reply lemmas

  /** One turn of the frame loop on a line other than ">". */
  lemma CanLoopStep(q: seq<string>, dec: Decoder, k: nat, i: nat, tries: nat, st: Status, frames: seq<CanFrame>)
    requires k >= 1 && i < tries && LineAt(q, k - 1) != ">"
    ensures var line := LineAt(q, k - 1);
      CanLoop(q, dec, k, i, tries, st, frames) == CanLoop(q, dec, k + 1, i + 1, tries, st + LineFlags(dec, line), frames + LineFrames(dec, line))
  {
    var line := LineAt(q, k - 1);
    if line == "STOPPED" {
      assert frames + LineFrames(dec, line) == frames;
    } else if dec(line).None? {
      assert frames + LineFrames(dec, line) == frames;
    } else {
      assert st + LineFlags(dec, line) == st;
    }
  }

  /**
   * The frame loop takes at most `tries - i` more lines; it stops early
   * only at ">", and no line it passes over is ">".
   */
  lemma {:induction false} CanLoopTaken(q: seq<string>, dec: Decoder, k: nat, i: nat, tries: nat, st: Status, frames: seq<CanFrame>)
    requires k >= 1 && i <= tries
    ensures var r := CanLoop(q, dec, k, i, tries, st, frames);
      && k <= r.taken <= k + tries - i
      && (r.taken < k + tries - i ==> LineAt(q, r.taken - 1) == ">")
      && (forall j :: k - 1 <= j < r.taken - 1 ==> LineAt(q, j) != ">")
    decreases tries - i
  {
    var line := LineAt(q, k - 1);
    if line != ">" && i < tries {
      CanLoopStep(q, dec, k, i, tries, st, frames);
      CanLoopTaken(q, dec, k + 1, i + 1, tries, st + LineFlags(dec, line), frames + LineFrames(dec, line));
    }
  }

  /** The frames the loop collects are those of the lines it passes over, in order. */
  lemma {:induction false} CanLoopFrames(q: seq<string>, dec: Decoder, k: nat, i: nat, tries: nat, st: Status, frames: seq<CanFrame>)
    requires k >= 1 && i <= tries
    ensures var r := CanLoop(q, dec, k, i, tries, st, frames);
      r.taken >= k && r.frames == frames + Decoded(dec, q, k - 1, r.taken - k)
    decreases tries - i
  {
    CanLoopTaken(q, dec, k, i, tries, st, frames);
    var line := LineAt(q, k - 1);
    if line != ">" && i < tries {
      var r := CanLoop(q, dec, k, i, tries, st, frames);
      CanLoopStep(q, dec, k, i, tries, st, frames);
      CanLoopFrames(q, dec, k + 1, i + 1, tries, st + LineFlags(dec, line), frames + LineFrames(dec, line));
      assert frames + LineFrames(dec, line) + Decoded(dec, q, k, r.taken - k - 1)
        == frames + Decoded(dec, q, k - 1, r.taken - k);
    }
  }

  /**
   * The bits the loop adds are those of the lines it passes over, and
   * NoPromptError when it stopped on a line other than ">".
   */
  lemma {:induction false} CanLoopStatus(q: seq<string>, dec: Decoder, k: nat, i: nat, tries: nat, st: Status, frames: seq<CanFrame>)
    requires k >= 1 && i <= tries
    ensures var r := CanLoop(q, dec, k, i, tries, st, frames);
      r.taken >= k && r.status == st + LinesFlags(dec, q, k - 1, r.taken - k)
        + (if LineAt(q, r.taken - 1) == ">" then {} else {NoPromptError})
    decreases tries - i
  {
    CanLoopTaken(q, dec, k, i, tries, st, frames);
    var line := LineAt(q, k - 1);
    if line != ">" && i < tries {
      var r := CanLoop(q, dec, k, i, tries, st, frames);
      CanLoopStep(q, dec, k, i, tries, st, frames);
      CanLoopStatus(q, dec, k + 1, i + 1, tries, st + LineFlags(dec, line), frames + LineFrames(dec, line));
      assert st + LineFlags(dec, line) + LinesFlags(dec, q, k, r.taken - k - 1)
        == st + LinesFlags(dec, q, k - 1, r.taken - k);
    }
  }

  /** The frame loop from its start: the three lemmas above with nothing collected yet. */
  lemma FrameLoopSpec(q: seq<string>, dec: Decoder, k: nat, tries: nat, st: Status)
    requires k >= 1
    ensures CanLoop(q, dec, k, 0, tries, st, []).taken >= k
    ensures var r := CanLoop(q, dec, k, 0, tries, st, []); var n := r.taken - k;
      && n <= tries
      && (forall j :: k - 1 <= j < r.taken - 1 ==> LineAt(q, j) != ">")
      && (n < tries ==> LineAt(q, r.taken - 1) == ">")
      && r.frames == Decoded(dec, q, k - 1, n)
      && r.status == st + LinesFlags(dec, q, k - 1, n)
        + (if LineAt(q, r.taken - 1) == ">" then {} else {NoPromptError})
  {
    CanLoopTaken(q, dec, k, 0, tries, st, []);
    CanLoopFrames(q, dec, k, 0, tries, st, []);
    CanLoopStatus(q, dec, k, 0, tries, st, []);
    var r := CanLoop(q, dec, k, 0, tries, st, []);
    var frames := Decoded(dec, q, k - 1, r.taken - k);
    assert [] + frames == frames;
  }

  /**
   * The lines' bits are STOPPED iff one of them says so, PROCESSING iff one
   * neither says so nor decodes, and no others.
   */
  lemma {:induction false} LinesFlagsSpec(dec: Decoder, q: seq<string>, from: nat, n: nat)
    ensures LinesFlags(dec, q, from, n) <= {StoppedResponse, ProcessingError}
    ensures StoppedResponse in LinesFlags(dec, q, from, n)
      <==> exists j :: from <= j < from + n && LineAt(q, j) == "STOPPED"
    ensures ProcessingError in LinesFlags(dec, q, from, n)
      <==> exists j :: from <= j < from + n && LineAt(q, j) != "STOPPED" && dec(LineAt(q, j)).None?
    decreases n
  {
    if n > 0 {
      LinesFlagsSpec(dec, q, from + 1, n - 1);
    }
  }

  /**
   * getResponseCAN: after the head, at most 20 lines (one once a head bit
   * is set) are processed before ">"; the frames are exactly the decoded
   * lines in arrival order; NoPromptError is set iff ">" never came,
   * ProcessingError iff some line failed to decode.
   */
  lemma ReadCANSpec(q: seq<string>)
    ensures ReadCAN(q).taken >= CanHead(q).taken
    ensures var h := CanHead(q); var r := ReadCAN(q); var n := r.taken - h.taken;
      && n <= PromptTries(h.status)
      && (forall j :: h.taken - 1 <= j < r.taken - 1 ==> LineAt(q, j) != ">")
      && (n < PromptTries(h.status) ==> LineAt(q, r.taken - 1) == ">")
      && r.frames == Decoded(HexToCF, q, h.taken - 1, n)
      && r.status == h.status + LinesFlags(HexToCF, q, h.taken - 1, n)
        + (if LineAt(q, r.taken - 1) == ">" then {} else {NoPromptError})
  {
    var h := CanHead(q);
    var tries := PromptTries(h.status);
    assert ReadCAN(q) == CanLoop(q, HexToCF, h.taken, 0, tries, h.status, []);
    FrameLoopSpec(q, HexToCF, h.taken, tries, h.status);
  }

  /**
   * The head of getResponseCAN: an echoed command sets AtResponse and costs
   * one more line; the line after it, when empty, is a timeout; "OK",
   * "STOPPED", "?", "NO DATA" and "CAN ERROR" set their bit and cost one
   * more line; any other line is left to the frame loop. No other bit is set.
   */
  lemma CanHeadSpec(q: seq<string>)
    ensures var echo := IsEcho(LineAt(q, 0));
      var k := if echo then 2 else 1;
      var line := LineAt(q, k - 1);
      var h := CanHead(q);
      && ((AtResponse in h.status) <==> echo)
      && ((TimeoutError in h.status) <==> line == "")
      && ((OkResponse in h.status) <==> line == "OK")
      && ((StoppedResponse in h.status) <==> line == "STOPPED")
      && ((UnknownResponse in h.status) <==> line == "?")
      && ((NoDataResponse in h.status) <==> line == "NO DATA")
      && ((CanError in h.status) <==> line == "CAN ERROR")
      && h.status * {NoPromptError, ProcessingError} == {}
      && h.taken == (if line in ["OK", "STOPPED", "?", "NO DATA", "CAN ERROR"] then k + 1 else k)
  {
  }

  /** With nothing queued, getResponseCAN reports a timeout, a failed decode and no prompt. */
  lemma ReadCANSilent()
    ensures ReadCAN([]) == CanRead([], {TimeoutError, ProcessingError, NoPromptError}, 2)
  {
    assert CanHead([]) == Head(1, {TimeoutError});
    assert HexToCF("").None?;
  }

  /** The prompt loop reads one to three lines and stops at the first ">". */
  lemma {:induction false} PromptLoopSpec(q: seq<string>, k: nat, i: nat)
    requires i <= 2
    ensures var (t, p) := PromptLoop(q, k, i);
      && k + 1 <= t <= k + 3 - i
      && (p <==> LineAt(q, t - 1) == ">")
      && (forall j :: k <= j < t - 1 ==> LineAt(q, j) != ">")
      && (!p ==> t == k + 3 - i)
    decreases 2 - i
  {
    if LineAt(q, k) != ">" && i < 2 {
      PromptLoopSpec(q, k + 1, i + 1);
    }
  }

  /**
   * getResponseStatus returns true iff the first line after an optional
   * echo is exactly "OK"; "?" sets UnknownResponse; NoPromptError is set
   * iff none of the next three lines is ">".
   */
  lemma ReadStatusSpec(q: seq<string>)
    ensures var echo := IsEcho(LineAt(q, 0));
      var k := if echo then 2 else 1;
      var line := LineAt(q, k - 1);
      var r := ReadStatus(q);
      && (r.ok <==> line == "OK")
      && (r.ok <==> (OkResponse in r.status))
      && ((UnknownResponse in r.status) <==> line == "?")
      && ((AtResponse in r.status) <==> echo)
      && r.status * {TimeoutError, StoppedResponse, NoDataResponse, ProcessingError, CanError} == {}
      && k + 1 <= r.taken <= k + 3
      && ((NoPromptError in r.status) <==> forall j :: k <= j < k + 3 ==> LineAt(q, j) != ">")
  {
    var echo := IsEcho(LineAt(q, 0));
    var k := if echo then 2 else 1;
    PromptLoopSpec(q, k, 0);
  }

  /** getResponseStr returns the first line as is; NoPromptError iff none of the next three is ">". */
  lemma ReadStrSpec(q: seq<string>)
    ensures var r := ReadStr(q);
      && r.text == LineAt(q, 0)
      && (r.status == {} || r.status == {NoPromptError})
      && 2 <= r.taken <= 4
      && ((r.status == {NoPromptError}) <==> forall j :: 1 <= j < 4 ==> LineAt(q, j) != ">")
  {
    PromptLoopSpec(q, 1, 0);
  }

  /**
   * A completed buffer is the queued line plus the carriage return that
   * ended it, or the line itself when it ended with the prompt '>'.
   */
  lemma LineOfSpec(data: string)
    requires EndsLine(data)
    ensures data == LineOf(data) + "\r" || (data[|data| - 1] == '>' && LineOf(data) == data)
    ensures LineOf(data) == [] <==> data == "\r"
  {
  }
}
