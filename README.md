# VAG Blocks: the diagnostic protocol stack, modelled in Dafny

VAG Blocks reads measuring blocks from the control modules of VAG cars
through an ELM327 serial adapter. The modelled stack has three layers and a
helper file:

- **Elm327** (`elm327.dfy`): the serial adapter. It queues text commands and
  eight-byte CAN frames and splits the adapter's byte stream into lines. It
  reads three kinds of reply. `getResponseCAN` reads a header and then frames
  until the `>` prompt. `getResponseStatus` reads "OK" or not. `getResponseStr`
  reads one text line. Every reply also sets bits in a status word. Reading
  lines is modelled as reading from a queue of lines; an empty queue reads as
  the empty line, just as a timed-out `getLine` does.
- **Tp20** (`tp20.dfy`, properties in `tp20_props.dfy`): the VW TP 2.0
  transport over CAN. It covers opening a channel, the setup and parameter
  replies, and sending a message in 7-byte segments with sequence numbers and
  ACKs. It also covers receiving segmented messages with the sequence check,
  answering channel tests, keep-alive, closing the channel and initialising
  the adapter. The adapter is a script of replies; every command sent is
  logged.
- **Kwp2000** (`kwp2000.dfy`, properties in `kwp2000_props.dfy` and
  `kwp2000_formats.dfy`): the KWP 2000 diagnostic session. It covers opening
  and closing measuring blocks and polling them in turn. Each block reply is
  decoded into four values, and those values are kept in a sample list where
  the engine-speed values of all blocks share one sample. The model also
  covers reading the module list from the gateway, reading part numbers and
  identification strings, and loading a label file. Calls the session makes
  on the transport are recorded in order.
- **Util** (`util.dfy`): `toHex`, `intToBinary`, `uintToBinary` and `fromHex`,
  over Qt's `QString::arg` and `toInt` semantics.

The source's classes that update their fields in place are Dafny classes:
`Elm327.Adapter`, `Tp20.Transport` and `Kwp2000.Client`. Each method is proved
equal to a function of the state before the call, and the properties are
lemmas about those functions. The loops of the source are methods with loop
invariants, proved against recursive specification functions. Quirks of the
code are modelled as written. Examples are the `len & 0x0F` in the first
segment's length header, the endless loop on a zero length byte, and the
`binDesc[-1]` write.

## Model

| member | source | states |
|---|---|---|
| Util.FromHex | util.cpp:28-32 | fromHex is always in 0..INT_MAX, and 0 on anything that is not a non-empty string of hex digits |
| Util.ParseHexSpec | util.cpp:28-32 | the model's reading of toInt(&ok, 16) succeeds exactly on non-empty strings of plain hex digits and then gives their base-16 value (sign, "0x" and white space are not modelled, see Left out) |
| Util.ToHexShape | util.cpp:3-6 | toHex of a non-negative int is its upper-case base-16 digits without leading zeros, left-padded with '0' to at least `places`; the width never truncates |
| Util.ToHexFixed | util.cpp:3-6 | a number below 16^places prints as exactly `places` upper-case digits that denote it |
| Util.FromHexToHex | util.cpp:3-6 | fromHex(toHex(n, places)) == n for every non-negative int and width |
| Util.FromHexToHexUnsigned | util.cpp:8-11 | the same round trip for the unsigned overload, for values up to INT_MAX |
| Util.ToHexExamples | util.cpp:3-11 | the CAN-id and byte formats the transport uses: 0x300 → "300", 0x1F at width 3 → "01F", 10 → "0A", 255 → "FF" |
| Util.IntToBinarySpec | util.cpp:13-16 | intToBinary writes base-2 digits, left-padded to at least `places`; a non-negative n gives the same string as uintToBinary, a negative n its 64-bit two's-complement value n + 2^64 |
| Util.UintToBinaryByte | util.cpp:18-21 | a byte written with width 8 is exactly eight binary digits that denote it |
| Elm327.Adapter.constructor | elm327.cpp:4-18 | a new adapter has its port closed, nothing sent, nothing buffered and both CAN ids 0 |
| Elm327.Adapter.SetPortOpen | elm327.cpp:25-81 | opening or closing the port sets the open flag, and nothing else |
| Elm327.Adapter.WriteText | elm327.cpp:83-97 | the text and a carriage return are sent when the port is open, and nothing otherwise |
| Elm327.Adapter.WriteBytes | elm327.cpp:99-113 | the frame text plus "\r" is sent when the port is open and the frame has at most eight bytes; nothing is sent otherwise |
| Elm327.Adapter.SetSendCanID | elm327.cpp:227-232 | records the id and sends "AT SH" with the id as three hex digits |
| Elm327.Adapter.SetRecvCanID | elm327.cpp:234-239 | records the id and sends "AT CRA" with the id as three hex digits |
| Elm327.Adapter.ConstructLine | elm327.cpp:316-346 | a chunk that completes a line queues that line, without its CR/LF and unless it is empty, and clears the buffer; otherwise the chunk is buffered |
| Elm327.LineOfSpec | elm327.cpp:316-346 | a completed buffer is the queued line plus the carriage return that ended it, or the line itself when it ended with '>'; the line is empty only for a lone "\r" |
| Elm327.Adapter.GetLine | elm327.cpp:302-314 | returns the oldest queued line and removes it, or returns "" when the queue is empty |
| Elm327.Adapter.AwaitPrompt | elm327.cpp:201-206 | the prompt wait reads lines as the prompt loop specifies and reports whether ">" came |
| Elm327.PromptLoopSpec | elm327.cpp:201-206 | the prompt wait reads one to three lines and stops at the first ">"; "no prompt" means three lines without one |
| Elm327.Adapter.ReadHead | elm327.cpp:118-150 | reads the lines and sets the bits that the getResponseCAN head specifies |
| Elm327.CanHeadSpec | elm327.cpp:123-150 | the getResponseCAN head. An echo sets AtResponse and takes one more line. An empty line is a timeout. "OK", "STOPPED", "?", "NO DATA" and "CAN ERROR" each set their own bit (both directions) and take one more line. No other bit is set |
| Elm327.Adapter.ReadFrames | elm327.cpp:156-176 | the frame loop returns the frames, status and line count that the loop's specification gives |
| Elm327.Adapter.GetResponseCAN | elm327.cpp:116-179 | returns the frames and status of the getResponseCAN specification and consumes exactly its lines |
| Elm327.ReadCANSpec | elm327.cpp:116-179 | after the head, at most 20 lines (1 once a head bit is set) are read before ">". The frames are the decoded lines in arrival order. NoPromptError is set iff the loop ended without ">" |
| Elm327.LinesFlagsSpec | elm327.cpp:157-176 | the frame lines set STOPPED iff one of them is "STOPPED" and PROCESSING iff one fails to decode, and no other bit |
| Elm327.ReadCANSilent | elm327.cpp:116-179 | with no line queued, getResponseCAN reports a timeout, a failed decode and no prompt, and no frames |
| Elm327.Adapter.GetResponseStatus | elm327.cpp:181-209 | returns the result and status of the getResponseStatus specification and consumes exactly its lines |
| Elm327.ReadStatusSpec | elm327.cpp:181-209 | true iff the line after an optional echo is exactly "OK" (iff OkResponse is set). "?" sets UnknownResponse and an echo sets AtResponse. NoPromptError is set iff none of the next three lines is ">" |
| Elm327.Adapter.GetResponseStr | elm327.cpp:241-255 | returns the text and status of the getResponseStr specification and consumes exactly its lines |
| Elm327.ReadStrSpec | elm327.cpp:241-255 | the text is the first line as is; the only possible bit is NoPromptError, set iff none of the next three lines is ">" |
| Elm327.DecodePairs | elm327.cpp:285-292 | the pair loop of hexToCF gives the bytes that the pair-parsing specification gives |
| Elm327.ParseBytesSpec | elm327.cpp:285-292 | the pairs parse iff every character is a hex digit; then byte j is the value of pair j (plain digit pairs only, see Left out) |
| Elm327.DecodeLine | elm327.cpp:257-300 | the method gives the frame, or None, that the hexToCF specification gives |
| Elm327.HexToCFSpec | elm327.cpp:257-300 | hexToCF succeeds exactly on lines that, without spaces, are 3 id digits, 1 length digit L and 2L hex digits. The frame carries that id, L and the pair values |
| Elm327.DecodeFieldsSpec | elm327.cpp:264-298 | the field decoding of hexToCF on spaceless text: the same iff, and the field values |
| Elm327.AdapterLineRoundTrip | elm327.cpp:257-300 | a frame printed by the adapter with its header and length decodes back to that frame |
| Elm327.FrameTextLayout | elm327.cpp:99-113 | write(QByteArray) sends text only for at most 8 bytes: two upper-case digits per byte, separated by single spaces, with no trailing space |
| Elm327.FrameTextUnspaced | elm327.cpp:99-113 | the sent frame text, with its spaces removed, is the bytes' digit pairs |
| Elm327.FrameTextRoundTrip | elm327.cpp:99-113 | the text write(QByteArray) sends reads back as the same bytes through hexToCF's pair parsing |
| Elm327.HexBytesRoundTrip | elm327.cpp:99-113 | the separator-free rendering is two upper-case digits per byte and parses back to the bytes |
| Tp20.GetAsCS | tp20.cpp:431-446 | the setup record read from a frame re-encodes to its first seven bytes; every nibble field is below 16 |
| Tp20.SetupRoundTrip | tp20.cpp:431-446 | getAsCS reads back the setup record whose seven bytes a module sent |
| Tp20.GetAsCP | tp20.cpp:448-460 | the parameter record read from a frame re-encodes to its first six bytes |
| Tp20.ParamRoundTrip | tp20.cpp:448-460 | getAsCP reads back the parameter record whose six bytes a module sent |
| Tp20.GetAsDT | tp20.cpp:462-470 | opcode and sequence number are the two nibbles of the control byte |
| Tp20.ControlRoundTrip | tp20.cpp:462-470 | getAsDT splits a control byte back into the opcode and sequence nibbles it was built from |
| Tp20.GetAsDTFirst | tp20.cpp:472-481 | the length is bytes 1 and 2, high byte first, and the control nibbles are those getAsDT reads |
| Tp20.CanCall | tp20.cpp:642-675 | getResponseCAN keeps bs and both sequence numbers, and consumes a reply whenever it stores frames. A successful call that expected a reply has frames, and success keeps the channel |
| Tp20Properties.CanCallSpec | tp20.cpp:642-675 | a disconnect closes the channel and fails. Otherwise channel tests are answered and dropped, and the call succeeds exactly when a reply was wanted and is there, or none was wanted |
| Tp20.StatusCall | tp20.cpp:605-619 | getResponseStatus takes one reply and changes nothing else; a status mismatch is only logged |
| Tp20.AckCall | tp20.cpp:303-311 | sendACK consumes a reply whenever frames are stored; on success with data following, frames are there |
| Tp20Properties.AckTurnSpec | tp20.cpp:212-227 | sendACK writes the frame 0xB0 with the low nibble of rxSeq first. A read ACK goes on collecting the message when more follows and ends the turn otherwise. A failed read that brought frames starts a new message with them, and one with no frames stops |
| Tp20.Transport.constructor | tp20.cpp:25-41 | a new transport has no channel, sequence numbers 0, an unknown timeout and nothing sent |
| Tp20.Transport.Queue | tp20.cpp:234-252 | writeToElm and the CAN-id setters append exactly that command to the adapter log |
| Tp20.Transport.SetChannelClosed | tp20.cpp:254-259 | the channel destination becomes -1 |
| Tp20.Transport.GetResponseStatus | tp20.cpp:605-619 | the result and new state are those of getResponseStatus's specification |
| Tp20.Transport.GetResponseStr | tp20.cpp:677-690 | the text and new state are those of getResponseStr's specification |
| Tp20.Transport.CheckForCommands | tp20.cpp:621-640 | every channel test before the first disconnect gets an "A3" answer and is removed, and one reply is consumed per test. A disconnect closes the channel and fails |
| Tp20Properties.CommandLoopSpec | tp20.cpp:621-640 | the scan removes exactly the channel tests before the first disconnect and leaves that disconnect and all that follows it in place |
| Tp20Properties.CommandsSpec | tp20.cpp:621-640 | the scan of a whole reply: tests counted and removed up to the first disconnect |
| Tp20Properties.NonTestsSpec | tp20.cpp:621-640 | the frames kept are exactly those that are not channel tests |
| Tp20.Transport.GetResponseCAN | tp20.cpp:642-675 | the result and new state are those of getResponseCAN's specification |
| Tp20.Transport.ApplyRecvTimeout | tp20.cpp:280-301 | the result and new state are those of applyRecvTimeout's specification |
| Tp20Properties.TimeoutCallSpec | tp20.cpp:280-301 | the timeout is clamped to 0..1020 ms and sent as "AT ST" plus two hex digits counting 4 ms units. The timeout in force becomes the clamped one exactly when the adapter answers OK |
| Tp20.Transport.CheckSeq | tp20.cpp:483-498 | the verdict and new rxSeq are those of the sequence check's specification |
| Tp20Properties.SeqCheckSpec | tp20.cpp:483-498 | a batch is accepted exactly when its j-th compared segment carries the low nibble of rx + j. rxSeq then advances once per compared segment, modulo 256 |
| Tp20.Transport.SendACK | tp20.cpp:303-311 | the result and new state are those of sendACK's specification |
| Tp20.Transport.TakeBatch | tp20.cpp:175-229 | the segment loop accepts a batch iff it is valid, and then appends every payload to the message in order |
| Tp20.Transport.Turn | tp20.cpp:139-230 | one turn of recvData's outer loop gives the step function's result and state |
| Tp20.Transport.ReceiveMessages | tp20.cpp:128-231 | recvData's outer loop ends in the state the receive loop's specification gives |
| Tp20.Transport.RecvData | tp20.cpp:119-232 | recvData as a whole ends in the state recvData's specification gives |
| Tp20Properties.DeliverSpec | tp20.cpp:174-229 | a batch ending in opcode 1 or 3 emits the message so far plus the batch's payloads. A batch ending in 2 carries that message on to the next turn. One ending in 0 keeps collecting. A batch ending in 0 or 1 first writes the ACK frame 0xB0 with the low nibble of rxSeq |
| Tp20Properties.StepAborts | tp20.cpp:139-174 | a turn that starts a message with a first segment of at most 2 bytes stops at once. A batch that fails the sequence check stops without emitting, sending or reading anything |
| Tp20Properties.FirstTurnSpec | tp20.cpp:139-230 | a first segment that carries the length, in a valid batch with correct sequence numbers ending in opcode 3, emits exactly the payload after the length |
| Tp20Properties.RecvLoopGrows | tp20.cpp:128-231 | recvData's loop only appends to the emitted messages and to the command log |
| Tp20Properties.RecvGrows | tp20.cpp:119-232 | recvData as a whole only appends to the emitted messages and to the command log |
| Tp20.Transport.SendData | tp20.cpp:53-117 | sendData ends in the state sendData's specification gives |
| Tp20.Transport.SendSegments | tp20.cpp:79-116 | the segment loop's result and state are those of its specification |
| Tp20.Transport.SendPacket | tp20.cpp:81-115 | one segment's result and state are those of its specification |
| Tp20.Transport.WritePacket | tp20.cpp:85-107 | packet i is written with the current txSeq, and txSeq then advances by one, modulo 256 |
| Tp20Properties.SendSpec | tp20.cpp:53-117 | nothing happens on a closed channel or for an empty or over-long payload. When the timeout differs and the adapter refuses the new one, the channel is closed and only the "AT ST" command is written. Otherwise the channel stays as it was or closes, and the command log only grows |
| Tp20.SegmentCountSpec | tp20.cpp:79-84 | segment i exists exactly when some byte starts at 7i |
| Tp20.PacketCount | tp20.cpp:79-84 | (n + 6) / 7 segments, the last of them at most 7 bytes |
| Tp20Properties.SegmentsJoin | tp20.cpp:79-116 | the segments are the buffer cut into consecutive pieces of 1 to 7 bytes |
| Tp20Properties.PacketSpec | tp20.cpp:81-107 | a packet is at most 8 bytes. Its control byte reads back as the opcode and the low nibble of txSeq, and the rest is the segment. The opcode is 1 on the last segment, 0 on ACK-due ones and 2 otherwise |
| Tp20Properties.HeaderQuirk | tp20.cpp:71-77 | the length header masks the low byte with 0x0F: a receiver reads back the true length only when that byte is below 16 |
| Tp20Properties.FirstSegmentLength | tp20.cpp:71-88 | the first segment carries the (masked) length header, which getAsDTFirst decodes |
| Tp20.AckDueMod | tp20.cpp:91 | the ACK test used by the model is exactly sendData's `i % bs == bs - 1` |
| Tp20.SendSegment | tp20.cpp:81-115 | one segment: packet i, with the current sequence number, is the first thing written; txSeq then advances by one, bs is kept, the log only grows, and the channel stays as it was or is closed |
| Tp20Properties.SendSegmentAck | tp20.cpp:91-103 | a segment that asks for an ACK lets the send go on exactly when its reply is read without error and is one frame with opcode 0xB and the low nibble of the next txSeq |
| Tp20Properties.AdvanceSpec | tp20.cpp:86-106 | incrementing the quint8 txSeq n times adds n modulo 256 |
| Tp20.SendLoop | tp20.cpp:79-116 | the segment loop only appends to the log, and the first thing it writes is packet i with the current sequence number. bs is kept, and the channel stays as it was or is closed. When every segment from i on has gone out, txSeq has been incremented once per segment (by AdvanceSpec: the number of segments, modulo 256) |
| Tp20.Transport.OpenChannel | tp20.cpp:500-571 | openChannel ends in the state openChannel's specification gives |
| Tp20Properties.OpenSpec | tp20.cpp:500-571 | nothing happens on an uninitialised adapter. Otherwise the channel ends closed, or open to `dest` with both sequence numbers restarted and a block size that fits a nibble |
| Tp20Properties.SetupReplySpec | tp20.cpp:526-540 | an accepted setup reply fixes the receive identifier at 0x300; a refused one closes the channel |
| Tp20Properties.ParamReplySpec | tp20.cpp:552-566 | an accepted parameter reply sets a block size that fits a nibble; a refused one closes the channel |
| Tp20.Transport.CloseChannel | tp20.cpp:573-578 | closeChannel ends in the state closeChannel's specification gives |
| Tp20Properties.CloseSpec | tp20.cpp:573-578 | "A8" is sent, one reply is read, and the channel ends closed whatever the reply |
| Tp20.Transport.SendKeepAlive | tp20.cpp:580-603 | sendKeepAlive ends in the state sendKeepAlive's specification gives |
| Tp20Properties.KeepAliveSpec | tp20.cpp:580-603 | a closed channel is left alone. On an open one, the channel test's reply either renews the parameters (block size fits a nibble, channel still open) or closes the channel |
| Tp20.Transport.InitialisationFailed | tp20.cpp:261-268 | the state becomes the one the initialisation-failure specification gives |
| Tp20.Transport.InitialiseElm | tp20.cpp:321-410 | initialiseElm ends in the state initialiseElm's specification gives |
| Tp20Properties.InitSpec | tp20.cpp:321-410 | with the port open, echo is turned off first. The adapter ends initialised exactly when the last command sent is "AT L0", and a failure ends with the port closed. The channel is not touched |
| Tp20Properties.InitClosedSpec | tp20.cpp:403-409 | with the port closed, the initialised flag is cleared and the channel closed, and nothing is sent |
| Tp20Properties.IdentifiedSpec | tp20.cpp:333-401 | initialiseElm after echo is off only appends to the log and keeps the channel. It ends initialised exactly when "AT L0" went last, and otherwise with the port closed |
| Tp20Properties.IdentifiedReplies | tp20.cpp:333-401 | initialiseElm after echo is off ends initialised exactly when "ST I" was answered "?" or the pass-all filter "OK", and the five mode commands after that are all answered "OK" |
| Tp20.Transport.InitialiseIdentified | tp20.cpp:333-401 | initialiseElm after echo is off ends in the state its specification gives |
| Tp20.Transport.InitialiseMode | tp20.cpp:365-401 | initialiseElm after the identification ends in the state its specification gives |
| Tp20.Transport.TurnEchoOff | tp20.cpp:324-331 | the echo-off commands' result and state are those of their specification |
| Tp20.Transport.IdentifyAdapter | tp20.cpp:333-363 | the identification's result and state are those of its specification |
| Tp20Properties.IdentifySpec | tp20.cpp:333-363 | "AT I", "AT @1" and "ST I" are sent and answered, then the ST-device step runs on the third answer. It fails exactly when that answer is not "?" and the filter is refused, and reads 3 or 7 replies |
| Tp20.Transport.IdentifyDevice | tp20.cpp:342-363 | the ST-device step's result and state are those of its specification |
| Tp20Properties.StDeviceSpec | tp20.cpp:342-363 | nothing happens when "ST I" was answered "?". Otherwise "ST DI", "ST MFR", "ST SN" and "ST FAP 000,000" are sent and four replies read, and the step succeeds exactly when the filter is answered "OK" |
| Tp20Properties.ConfiguredSpec | tp20.cpp:365-401 | initialised exactly when "AT L0" went last; otherwise the port is closed |
| Tp20.Transport.SetMode | tp20.cpp:365-398 | the protocol settings' result and state are those of their specification |
| Tp20Properties.ModeSpec | tp20.cpp:365-398 | the mode commands succeed exactly when the next five replies are "OK", and then all five were sent; the first is always sent |
| Tp20Properties.FiveInRow | tp20.cpp:365-398 | five configuration commands in a row all succeed exactly when the next five replies are "OK" |
| Tp20Properties.ThenSpec | tp20.cpp:365-398 | a configuration command after another is sent only when the earlier one succeeded |
| Tp20Properties.SilentSpec | tp20.cpp:605-690 | once the script is exhausted, the adapter's answers for an empty queue are seen: no frames, with a timeout, a failed decode and no prompt; no "OK"; an empty line |
| Tp20.Transport.PortClosed | tp20.cpp:412-417 | the state becomes the one the port-closed specification gives |
| Tp20.DecodeErrorSpec | tp20.cpp:692-736 | decodeError lists the no-bits line exactly when no bit is set, and a bit's message exactly when that bit is set |
| Tp20.FlagMessagesSpec | tp20.cpp:692-736 | a bit's message is listed iff the bit is set |
| Tp20.FlagMessageInjective | tp20.cpp:692-736 | distinct bits have distinct messages, and none of them is the no-bits line |
| Kwp2000.DecodeBlockData | kwp2000.cpp:875-992 | the value is a 16-bit word exactly for the "Binary" and "Raw" units, and then equals a·256 + b; it is a string exactly for formula 0x11 |
| Kwp2000Properties.DecodeBlockDataCases | kwp2000.cpp:875-992 | engine speed is a·b/5 rpm. Ignition angle is after TDC iff b > 127. Speed is 0.01·a·b km/h. Formula 0x04 is the distance of b from 127, times 0.01·a. Formula 0x11 is two ASCII characters. The units are "Binary" exactly for 0x08, 0x10 and 0x25, and "Raw" exactly for unknown ids |
| Kwp2000.AscendingKeys | kwp2000.cpp:268-270 | the key list of the open blocks lists each open block |
| Kwp2000.AscendingSorted | kwp2000.cpp:268-270 | the key list is strictly increasing, as QMap's keys are |
| Kwp2000.ToInt | kwp2000.cpp:424-432 | QString::toInt yields only values in the int range |
| Kwp2000.FirstToken | kwp2000.cpp:344-351 | the part number is the text before the first space, or all of it |
| Kwp2000.InterpretRawData | kwp2000.cpp:802-821 | the loop gives the records of the record specification, or None where the source loops forever |
| Kwp2000Formats.RecordsRoundTrip | kwp2000.cpp:802-821 | interpretRawData gives back the records it is handed, with or without the 0xFF end mark |
| Kwp2000Formats.RecordsHang | kwp2000.cpp:802-821 | a length byte 0 after the records makes interpretRawData loop forever |
| Kwp2000.ReadRecord | kwp2000.cpp:810-814 | the inner loop copies bytes i+1 .. i+raw[i]-1, reading 0 past the end |
| Kwp2000.RecordBytes | kwp2000.cpp:810-814 | a record holds the raw[i] - 1 bytes after its length byte |
| Kwp2000.Client.constructor | kwp2000.cpp:29-70 | a new session has no module, no block, no sample and no call, with the label directory given |
| Kwp2000.Client.ReadBlocks | kwp2000.cpp:490-511 | readBlocks ends in the state of one polling step |
| Kwp2000Properties.ReadNextAt | kwp2000.cpp:490-511 | a poll before the end of the open blocks asks for the block at nextBlock and moves on |
| Kwp2000Properties.PollsInOrder | kwp2000.cpp:490-511 | from position m, n polls ask for blocks m .. m+n-1 in key order, each once, and change nothing else |
| Kwp2000Properties.PollRound | kwp2000.cpp:490-511 | one full round from the start asks for every open block once, in key order |
| Kwp2000Properties.PollWraps | kwp2000.cpp:490-511 | past the last open block, polling starts over with the first |
| Kwp2000Properties.PollStops | kwp2000.cpp:490-511 | with no block open, polling stops and asks for nothing |
| Kwp2000Properties.ReadNextKeeps | kwp2000.cpp:490-511 | polling touches neither the open blocks nor the samples |
| Kwp2000.Client.ChangeSampleFormat | kwp2000.cpp:264-302 | changeSampleFormat ends in the rebuilt-sample-list state |
| Kwp2000.RebuildSample | kwp2000.cpp:268-298 | the outer loop places the open blocks in ascending order and gives every block without labels an empty entry |
| Kwp2000.ScanShared | kwp2000.cpp:279-288 | the engine-speed search gives the layout and match flag of the search's specification |
| Kwp2000Properties.ScanShares | kwp2000.cpp:279-288 | the search attaches the value to a sample exactly when an engine-speed sample is at or after the start (or a match was already made). Every sample keeps its first value |
| Kwp2000.PlaceBlockValues | kwp2000.cpp:272-297 | the inner loop places the four values of block b as the placement specification does |
| Kwp2000Properties.PlaceCount | kwp2000.cpp:272-297 | one value placed adds a sample, unless it is an engine speed and the engine-speed sample already exists |
| Kwp2000Properties.PlaceBlocksCount | kwp2000.cpp:268-298 | the blocks placed add four samples each, less one for every engine speed that joins an existing sample |
| Kwp2000Properties.ReformatCount | kwp2000.cpp:264-302 | the rebuilt list holds 4·|open blocks| − (E − 1) samples when E > 0 engine-speed blocks are open, and 4·|open blocks| otherwise |
| Kwp2000Properties.ReformatShared | kwp2000.cpp:279-288 | the position-0 values of any two open engine-speed blocks name one and the same sample |
| Kwp2000Properties.ReformatConsistent | kwp2000.cpp:264-302 | every value of every open block is linked to a sample that lists it, and the values of one sample share a position |
| Kwp2000Properties.PlaceBlocksKeys | kwp2000.cpp:268-298 | rebuilding the sample list keeps the set of open blocks |
| Kwp2000Properties.ConsistentDistinct | kwp2000.cpp:264-302 | in a consistent list no two values of one block share a sample |
| Kwp2000.Client.OpenBlock | kwp2000.cpp:189-205 | openBlock ends in the state of adding the block |
| Kwp2000Properties.WithBlockOpens | kwp2000.cpp:189-205 | the block is added, the sample list is rebuilt consistent, and polling runs. Exactly one poll is sent when polling was not running yet, and none when it was. A block that was open keeps its values (apart from their sample index); a new one gets four empty values |
| Kwp2000Properties.StartReadingKeeps | kwp2000.cpp:200-203 | starting to poll a non-empty set of blocks leaves polling running and keeps the sample list. It sends one poll when polling was stopped and nothing when it was running |
| Kwp2000.Client.CloseBlock | kwp2000.cpp:207-212 | closeBlock ends in the state of removing the block |
| Kwp2000Properties.WithoutBlockCloses | kwp2000.cpp:207-212 | the block numbered b % 256 is dropped and the sample list is rebuilt consistent |
| Kwp2000.Client.CloseAllBlocks | kwp2000.cpp:214-224 | closeAllBlocks ends in the state of removing every block |
| Kwp2000Properties.WithoutBlocksEmpty | kwp2000.cpp:214-224 | no block and no sample are left |
| Kwp2000.Client.UpdateSample | kwp2000.cpp:741-747 | updateSample ends in the refreshed-samples state |
| Kwp2000Properties.RefreshValues | kwp2000.cpp:741-747 | a sample named by one of the block's values takes that value, and every other sample keeps its value |
| Kwp2000Properties.RefreshKeepsRefs | kwp2000.cpp:741-747 | updateSample changes values only: every sample keeps its list of block values |
| Kwp2000.DecodeSlots | kwp2000.cpp:582-589 | the loop decodes value i from bytes 3i .. 3i+2 and keeps each value's sample index |
| Kwp2000.Client.BlockDataHandler | kwp2000.cpp:574-603 | blockDataHandler ends in the stored-reply state |
| Kwp2000Properties.StoredValues | kwp2000.cpp:574-603 | a reply for block `param` stores the four decoded values in the block and in the samples that stand for them; other samples keep their values |
| Kwp2000Properties.StoredConsistent | kwp2000.cpp:574-603 | blockDataHandler keeps the sample list consistent with the open blocks |
| Kwp2000Properties.StoredCalls | kwp2000.cpp:574-603 | blockDataHandler adds at most the next poll to the calls, exactly one for an open block. A reply for a block that is not open is ignored and polling goes on |
| Kwp2000.ShortIdList | kwp2000.cpp:629-646 | the loop gives the identification strings of the specification, or None where the source loops forever |
| Kwp2000Formats.ShortIdsAreRecords | kwp2000.cpp:625-650 | shortIdHandler reads the records interpretRawData finds, each with trailing spaces removed |
| Kwp2000.Client.ShortIdHandler | kwp2000.cpp:625-650 | shortIdHandler ends in the state of storing the part number |
| Kwp2000Properties.ShortIdReadKeeps | kwp2000.cpp:625-650 | shortIdHandler touches neither the blocks, the samples nor the calls |
| Kwp2000.LongIdList | kwp2000.cpp:656-672 | the two loops give the first 16 bytes and the trimmed bytes from 26 on |
| Kwp2000.ChopSpaces | kwp2000.cpp:666-668 | the loop removes exactly the trailing spaces |
| Kwp2000.TrimSpacesDrops | kwp2000.cpp:666-668 | trimming keeps a prefix that does not end in a space and drops only spaces |
| Kwp2000.Client.LongIdHandler | kwp2000.cpp:652-684 | longIdHandler ends in the state of storing the module part number and loading labels |
| Kwp2000Properties.LongIdReadKeeps | kwp2000.cpp:652-684 | longIdHandler touches neither the blocks nor the samples, records the part number read from the reply, and adds exactly the request for the short ids (0x1A 0x91) |
| Kwp2000.ReadModuleTable | kwp2000.cpp:699-723 | the loop over the 4-byte entries gives the table and alignment flag of the specification |
| Kwp2000Formats.ModuleTableAligned | kwp2000.cpp:699-723 | the list ends on an entry boundary exactly when its length is a multiple of 4 |
| Kwp2000Formats.ModuleTableKeys | kwp2000.cpp:699-723 | a module number is in the table exactly when it was there before or a listed entry carries it |
| Kwp2000Formats.ModulesRead | kwp2000.cpp:699-723 | the table built from nothing is well formed, ends aligned exactly when the length is a multiple of 4, has exactly the module numbers of the listed entries, and files under each the entry (number, address, presence bit, status bits) of a listed record that carries it |
| Kwp2000Formats.ModuleTableEntries | kwp2000.cpp:699-723 | every entry of the table was there before or is the entry of a listed record from i on that carries its number |
| Kwp2000Formats.ModulesListedSpec | kwp2000.cpp:686-729 | queryModulesHandler: an unreadable list hangs. Exactly two records replace the table and close the channel, and clear doModuleRefresh exactly when the first record's length is a multiple of 4. Any other count only closes the channel |
| Kwp2000.TableRead | kwp2000.cpp:686-729 | reading the module table changes only the module list and the refresh flag |
| Kwp2000.Client.QueryModulesHandler | kwp2000.cpp:686-729 | queryModulesHandler ends in the module-list state |
| Kwp2000Properties.ModulesListedKeeps | kwp2000.cpp:686-729 | queryModulesHandler touches neither the blocks nor the samples |
| Kwp2000.Client.RecvKWP | kwp2000.cpp:513-567 | recvKWP ends in the dispatch state |
| Kwp2000Properties.DispatchBlockReply | kwp2000.cpp:513-567 | a block reply (0x61) is handed to blockDataHandler with its block number |
| Kwp2000Properties.DispatchConsistent | kwp2000.cpp:513-567 | whatever arrives, recvKWP keeps the sample list consistent and only adds calls |
| Kwp2000Properties.DispatchKeepsBlocks | kwp2000.cpp:513-567 | only a block reply changes the open blocks or the samples, and no reply takes back a call |
| Kwp2000Properties.DispatchNegative | kwp2000.cpp:513-567 | a negative response (0x7F) changes nothing |
| Kwp2000Properties.DispatchRoutes | kwp2000.cpp:513-567 | a missing or short reply closes the channel. 0x50 asks for the long ids. 0x5A with 0x91, 0x9B or 0x9F goes to the short id, long id or module list handler. 0x61 stores the block. Any other parameter or code changes nothing |
| Kwp2000.SplitPartNumber | kwp2000.cpp:353-356 | the part number is cut into the groups of three the specification gives |
| Kwp2000Formats.ChunksJoin | kwp2000.cpp:353-356 | the groups of three, put back together, are the part number |
| Kwp2000Formats.ChunksSizes | kwp2000.cpp:353-356 | every group has three characters except the last, which has one to three |
| Kwp2000.Client.LoadLabelFile | kwp2000.cpp:337-478 | loadLabelFile ends in the state of the labels read |
| Kwp2000Formats.SplitJoin | kwp2000.cpp:419 | joining the comma fields with commas gives back the line |
| Kwp2000Formats.UnescapeNoPair | kwp2000.cpp:449-450 | after the replacement, no backslash-n pair is left |
| Kwp2000Formats.UnescapePlain | kwp2000.cpp:449-450 | a line without a backslash is left as it is |
| Kwp2000Formats.DescriptionLineSpec | kwp2000.cpp:417-451 | a line starting with a digit changes the labels only with ≥ 3 fields, a block 0..255 and a position 0..4. Then only that block changes: position 0 sets the name; otherwise the short, sub- and long descriptions of that position change, each when its field is present |
| Kwp2000Formats.BinaryLineSpec | kwp2000.cpp:455-463 | a ";...=" line appends its text after the first two characters, plus a newline, to binDesc[p-1] of the last accepted position p; after position 0 it goes to longDesc[3] |
| Kwp2000Formats.LabelLineKeys | kwp2000.cpp:413-464 | a label line adds at most one block, numbered 0 to 255, and removes none |
| Kwp2000Formats.LabelLinesKeys | kwp2000.cpp:412-466 | a label file only adds labels for block numbers 0 to 255, and removes none |
| Kwp2000.Client.StartDiag | kwp2000.cpp:179-187 | startDiag ends in the state of sending the session request |
| Kwp2000.Client.ChannelOpenSlot | kwp2000.cpp:226-255 | channelOpenSlot ends in the channel-status state |
| Kwp2000Properties.ChannelClosed | kwp2000.cpp:226-255 | a closed channel leaves no module selected, no part number, no block and no sample, and sends nothing |
| Kwp2000Properties.ChannelOpened | kwp2000.cpp:226-255 | an open channel asks the gateway for the module list while a refresh is due, and otherwise starts a diagnostic session; the sample list stays consistent |
| Kwp2000.Client.OpenChannel | kwp2000.cpp:114-139 | openChannel ends in the connect state |
| Kwp2000Properties.ConnectOpens | kwp2000.cpp:114-139 | nothing happens while a channel is open or for module 0. Otherwise the module is selected, its labels dropped, and the address from the module list (or the module number) opened |
| Kwp2000.Client.CloseChannel | kwp2000.cpp:141-144 | closeChannel records exactly one close call on the transport |
| Kwp2000.Client.OpenGatewayRefresh | kwp2000.cpp:480-488 | openGW_refresh ends in the gateway-refresh state |

## Left out

- Serial port I/O: the port set-up (`openPort`, `closePort`, `setSerialParams`) is reduced to the `portOpen` flag. Reading lines is a queue of lines the adapter has produced; the timeouts of `getLine` are not modelled, and an empty queue reads as a timed-out line.
- Threads, signals and queued invocations: they are direct calls. The calls the session makes on the transport are recorded in a log, and the transport's adapter is a script of replies.
- Timers: `keepAliveTimer` and `readBlockTimer` are not modelled. Their effects (`sendKeepAlive`, `readBlocks`) are operations that the environment calls.
- Logging and CSV output (`startLogging`, `stopLogging`, `writeSample`, every `qDebug` line): they have no effect on the protocol state.
- `doubleToStr` (util.cpp:23-26): it only formats for display, and floating-point formatting is not modelled.
- Kwp2000.DecodeBlockData: the double formulas are computed over the reals, so IEEE rounding is not modelled.
- Util.FromHex: no sign, white space or "0x" prefix is accepted, because the adapter's lines never carry them.
- ParseHexSpec: states the model's plain-digit reading only. Qt's toInt(&ok, 16) also accepts a leading sign, a "0x" prefix and surrounding white space, which the adapter's lines never carry.
- HexToCFSpec: states that hexToCF succeeds exactly on plain hex-digit fields. QString::toUInt(&ok, 16) at elm327.cpp:266 and 272 also accepts a '+' sign or a "0x" prefix inside a field, so "0x10" gives frame (1, 0, []) in the source and None here. The adapter never prints such fields.
- DecodeFieldsSpec: the same plain-digit reading of the id, length and data fields as HexToCFSpec, for the same reason.
- DecodeLine: gives None on fields with a '+' sign or a "0x" prefix, where hexToCF (elm327.cpp:257-300) returns a frame. The adapter never prints such fields.
- ParseBytesSpec: a pair is read only when both characters are hex digits. toUShort(&ok, 16) at elm327.cpp:286 also accepts a pair such as "+F", which adapter output never contains.
- DecodePairs: gives None on a "+F" pair where toUShort(&ok, 16) (elm327.cpp:286) gives 15, for the same reason.
- `toLower` in the label-file search folds ASCII letters only.
- `IsSpace`, used by the label-file `toInt`, trims the ASCII white-space characters (space, tab, line feed, carriage return, vertical tab, form feed) only. QString::toInt also trims Unicode white space, such as a no-break space; the model reads a field padded with it as no number.
- The location of the label file (directory listing, `findLabelFromRedir`): it is a lookup in a map from part number to file lines.
- `initModuleNames` (kwp2000.cpp:823-873): the module-name table is a lookup over the same 48 entries.
- Out-of-range `QByteArray::at` reads, which Qt does not define, read as 0.
- Loops that never end in the source are outcomes in the model: `None` from `interpretRawData` and `shortIdHandler`, and the `hung` flag for `queryModulesHandler`. Such a loop is a zero length byte, or a batch that is re-processed forever in `recvData`.
- Tp20.Transport.SendData requires a block size other than 0 whenever more than one segment is sent. The source divides by it (tp20.cpp:91), which is undefined for 0.
- Kwp2000.Client.RecvKWP, BlockDataHandler and UpdateSample require every sample index of an open block to be in range. The rest of the model keeps this invariant, and the source would read out of range without it.
- `channelDest` of the transport is a parameter of the session's channel operations rather than a cross-object read.
- Getters, setters and configuration passthroughs (`getChannelDest`, `getElmInitialised`, `setSlowRecvTimeout`, `setKeepAliveInterval`, `setTimeouts`, `getPortOpen`) only read or copy a field.
- `miscHandler` and the negative response only log. `startDiagHandler` emits the diagStarted signal, which is not modelled; its request for the long ids (0x1A 0x9B) is modelled. The device-identification strings of `initialiseElm` are only logged, and are kept as replies read.
- Memory management (`new`/`delete` of frames and lists) is not modelled; frames and lists are values.
