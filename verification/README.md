# Emulator Kit: its most stateful parts, proved

The kit emulates small computers in C. This project models the parts of it that carry
the most state, and proves what each is for. `dafny verify dfyconfig.toml` checks all of it.

Where the source keeps state in a structure and updates it in place, the model is a class with
the same fields and the same steps, and its methods are tied, field for field, to a function on
values; the theorems are about that function, over every input and every run.

* **The debug server** (`gdb-server.c`): the GDB Remote Serial Protocol (GDB manual, sections
  "Overview" and "Packet Acknowledgment"). `gdb_wire` has the checksum, the escaping and the hex
  coding, on values and in place in the shared buffer. `gdb_protocol` is the server as a value:
  acknowledgements, reply buffer, breakpoints, run state, the history of what went over the
  connection, and a parser that takes one byte at a time. `gdb_server` is the server as one
  structure with its fixed buffer. `gdb_safety` proves stop-and-wait over every run,
  `gdb_stream` that reads may be cut anywhere and that frames survive the round trip,
  `gdb_debug` what breakpoints and watchpoints amount to, `gdb_step` that a step packet runs one
  instruction, `gdb_crc` the memory checksum (IEEE 802.3, section 3.2.9).
* **The I2C bus and the DS1307** (`i2c_bitbang.c`, `i2c_ds1307.c`): two wire levels decoded into
  callbacks (UM10204, sections 3.1.4, 3.1.5 and 3.1.10). `i2c_bus` is the bus as a value and
  `i2c_port` as the structure; `i2c_trace` proves the shape of what any levels at all make of
  it, `i2c_wire` and `i2c_transfers` that the wires, in whatever waveform, refine bits and
  conditions, these whole bytes, and those whole transfers, `i2c_ds1307` that data stored over
  the wires is fetched back over them.
* **The IDE drive** (`ide.c`): PIO data in and out (ATA/ATAPI-6, sections 9.5 and 9.6). `ide` is
  the controller with two drives as values and `ide_device` as structures; `ide_address` has
  the two ways of naming a block, `ide_safety` what holds after every register access of every
  run, `ide_offset` which accesses leave an odd buffer offset behind, `ide_sectors` and
  `ide_transfer` what sectors are carried.
* **The 6809** (`e6809.c`): the whole instruction set, on 32-bit registers whose upper bits are
  garbage. `m6809_word`, `m6809_bits` and `m6809_flags` have the arithmetic and what the
  branch-free flag tests mean, `m6809` the core as a value and `m6809_core` as the structure,
  `m6809_same` and `m6809_garbage` that the garbage never shows, `m6809_interrupts` what one
  interrupt puts on the stack and takes off it, `m6809_nesting` that runs with nested interrupts
  give everything back.
* **The Z80 CTC** of the LiNC80 (`linc80.c`): `ctc` proves that clocks may be batched.
* **Decimal arithmetic** (`fake65c02.h`, `intel_8080_emulator.c`): `decimal` proves both
  corrections for numbers of any length, with `positional` for what digits are worth.

What comes from outside is a parameter of the model, and every theorem holds for any value
of it: whether the n-th send succeeds, what a packet's text scans to, what each poll
reports, the host's time at each latching, what the host does with each sector and each
seek, the memory and devices on the 6809's bus (any function of all that happened on the bus
so far), and the interrupt lines before each instruction.

Some statements say where something one might expect fails. `ReadsDifferOnceClosed`: a read
after a refused `-` is not taken. `EmptyWatchpoint`: a watchpoint of length 0 is hit by an
access around it, though it overlaps nothing. `SevenBitsFitTheirPair`: the in-place hex
expansion prints exactly the characters from 128 on as eight digits. `OddOffsetStays`: leaving
8-bit mode after an odd number of bytes leaves the drive's buffer offset odd.
`SecondDriveRefusesChs`: on drive 1 no cylinder, head and sector is accepted. The exact
conditions are in `ReadsAgreeExactly`, `HitsIsOverlapExactly`, `ExpansionExactly`,
`EvenUnlessBroken` and `ChsRefused`.

## Model

| member | source | states |
|---|---|---|
| `GdbSafety.EveryRunStopsAndWaits` | gdb-server.c:366-567 | For every interleaving of reads, stop checks, accesses, new clients and lost ones, from creation: with acknowledgements on, a new frame goes out only when none is outstanding; whatever is sent again is exactly the outstanding frame; everything sent is a frame; and while the server waits on an open client its buffer is the outstanding frame, so a `-` sends those bytes once more. "Outstanding" is read off the history of events, not off the server's flag |
| `GdbSafety.ReplyIs` | gdb-server.c:614-654 | Start, any writes, end: one frame around the concatenation of everything written, or, if an earlier frame is unacknowledged or the whole does not fit, a closed connection and nothing on the wire |
| `GdbSafety.PutAllIs` | gdb-server.c:614-695 | Writes without overflow leave the buffer as it was followed by all they spelled, and fewer bytes than the buffer holds never overflow; once overflowed it stays so |
| `GdbSafety.PutBinIs` | gdb-server.c:670-695 | An escaped write either appends the whole escaped form or records an overflow; it never overflows when the escaped form fits |
| `GdbStream.ChunkingDoesNotMatter` | gdb-server.c:451-577 | However the bytes are split into reads, the server (its events, breakpoints, run state, connection) and the unconsumed tail are those of feeding them whole |
| `GdbStream.ReadsAgreeExactly` | gdb-server.c:382-475 | Whatever comes next, two reads are one read of the joined bytes if and only if the first leaves the connection open |
| `GdbStream.ReadsDifferOnceClosed` | gdb-server.c:556-567 | A first read that does not: after a `-` with nothing to send again a later read is not taken, so the tails differ |
| `GdbStream.WholePacketTaken` | gdb-server.c:489-542 | A packet fed byte by byte is taken whole, exactly once, when its second checksum character arrives, and nothing of it is left |
| `GdbStream.FrameTaken` | gdb-server.c:489-542 | The parser recognises the frame of any payload without `#` as one valid packet: acknowledged when acknowledgements are on, and handled |
| `GdbStream.FrameRoundTrip` | gdb-server.c:614-695 | Binary data of any content that fits leaves as one frame; the parser at the other end takes that frame as one packet; unescaping its payload gives the data back |
| `GdbWire.EscapeRoundTrip` | gdb-server.c:670-695 | Unescaping undoes escaping for every byte string, and escaped text holds no `$`, `#` or `*` |
| `GdbWire.HexRoundTrip` | gdb-server.c:1307-1317 | Decoding undoes hex encoding, for every byte string |
| `GdbWire.HexRoundTripBack` | gdb-server.c:1307-1382 | Encoding undoes decoding, for every well-formed text of lower-case digit pairs, so the two undo each other |
| `GdbWire.UnescapeInPlace` | gdb-server.c:973-996 | In place, with both ends in one buffer: fails exactly when the text ends in a lone escape; otherwise the front of the buffer holds the unescaped text, and nothing outside the packet changes |
| `GdbWire.HexDecodeInPlace` | gdb-server.c:1307-1317 | In place: the front of the packet becomes the bytes its hex digits spell; stops at the first character that is no digit; what was not consumed is not touched |
| `GdbWire.HexEncodeInPlace` | gdb-server.c:1351-1382 | Expanding any text from the end over its own input, the byte at the terminator put back each time, leaves what `Expanded` says; for 7-bit text that is the hex of it, with none overwritten before it is read and nothing beyond it changed |
| `GdbWire.ExpansionExactly` | gdb-server.c:1351-1382 | The hex of the text ends up in its place if and only if all of it is 7-bit, or it is the one byte 0xff, whatever else the buffer held |
| `GdbWire.ExpandedSevenBit` | gdb-server.c:1364-1379 | 7-bit characters go as pairs one below the other, and no other byte of the buffer changes |
| `GdbWire.ExpandedDrifts` | gdb-server.c:1364-1379 | Every character from 128 on moves all that is still to be printed six places up, and what is still to be read is never touched |
| `GdbWire.PrintBelow` | gdb-server.c:1364-1379 | One character printed two places below, as a pair or as eight digits, the saved byte put where the terminator went |
| `GdbWire.Print` | gdb-server.c:1364-1379 | A print stores the text and a terminator after it |
| `GdbWire.SevenBitsFitTheirPair` | gdb-server.c:1364-1379 | Exactly the characters below 128 print as the pair of places they take; any other, sign-extended, prints eight digits |
| `GdbCrc.BytesAreSerial` | gdb-server.c:1261-1279 | Byte at a time with the shifts unrolled is the polynomial shift register of IEEE 802.3 section 3.2.9 fed one message bit at a time, most significant first, for every start value and every message |
| `GdbCrc.BytesAppend` | gdb-server.c:1261-1279 | The value of a concatenation is that of its second part continued from the first |
| `GdbCrc.OneByteChangeShows` | gdb-server.c:1261-1279 | Two messages that differ in one byte never have the same value |
| `GdbCrc.MemoryCrc` | gdb-server.c:1246-1284 | The loop over any address range, wrapping at the top of memory, returns the bit-serial value of the bytes there from all ones |
| `GdbCrc.UnrolledShifts` | gdb-server.c:1268-1275 | The eight unrolled steps are eight shifts of the register |
| `GdbDebug.HitsIsOverlap` | gdb-server.c:251-256 | For positive lengths the comparison of ends is overlap with a relevant access, and the higher of the two starts is the lowest shared address |
| `GdbDebug.HitsIsMeeting` | gdb-server.c:251-256 | For regions of any length the comparison of ends is meeting: sharing an address, or one of the two empty and strictly inside the other; and the higher of the starts is where they meet |
| `GdbDebug.EmptyWatchpoint` | gdb-server.c:251-256 | Where that fails: a watchpoint of length 0 overlaps nothing, and is hit exactly when it lies strictly inside the access |
| `GdbDebug.WatchpointsSumUpAccesses` | gdb-server.c:244-269 | After any sequence of accesses since the last check, of any lengths, a watchpoint is tripped if and only if some access it watches met it, and it holds the lowest address shared with the first of those, or the empty one's |
| `GdbDebug.PositiveLengthsOverlap` | gdb-server.c:251-256 | For positive lengths meeting is overlapping, at the lowest common address |
| `GdbDebug.CheckBreakpointsIs` | gdb-server.c:1813-1855 | The loop over the list, replies and all, amounts to one stop for the first breakpoint or tripped watchpoint that matches, if the target was not already stopped, with every trip flag cleared |
| `GdbDebug.CheckStopsOnce` | gdb-server.c:1813-1855 | A check makes at most one stop reply and clears every trip flag; a running target with no interrupt pending stops exactly when something matches, and for the first that does |
| `GdbDebug.HitsIsOverlapExactly` | gdb-server.c:251-256 | The comparison of ends is overlap if and only if it is not the case that one of the two is empty and strictly inside the other, in an access the watchpoint watches |
| `GdbStep.FeedCounts` | gdb-server.c:451-577 | Any bytes at all either make the server handle a packet or leave the target as near running as it was: its state changes, if at all, to stopped |
| `GdbStep.SteppingStops` | gdb-server.c:1825-1833 | After the instruction of a step the emulator is not let go again before another packet is handled, whatever the polls bring: acknowledgements, interrupts, damaged packets, hangups, callers, lost sockets; and the first poll, if the server is alive to make it, finds the target stopped |
| `GdbStep.AtMostOneInstruction` | gdb-server.c:214-241 | From a requested step at most one instruction runs before another packet is handled, over any number of turns of the main loop and whatever else the polls of each turn bring |
| `GdbStep.ExactlyOneInstruction` | gdb-server.c:1565-1598 | From a stopped target, a read that leaves a step requested, with no interrupt pending and nothing matching, lets exactly one instruction run before another packet is handled, and the first poll made after it leaves the target stopped |
| `GdbStep.StepPacket` | gdb-server.c:489-542 | A step packet framed on the wire, with anything before it in the same read that leaves the parser between packets, runs exactly one instruction before the next packet is handled, and the target is then stopped, if no interrupt is pending and nothing matches where the step starts |
| `GdbStep.StartlessRun` | gdb-server.c:489-577 | Polls that bring no `$` while no packet is under way never make the server handle a packet, so for them the theorems on steps need nothing else |
| `GdbServer.Gdb.constructor` | gdb-server.c:122-192 | A server just created: listening, no client, acknowledgements on, stopped or running as asked |
| `GdbServer.Gdb.SendBuffer` | gdb-server.c:366-378 | Sends the buffer, new or again, and waits if acknowledgements are on; a failed send closes |
| `GdbServer.Gdb.WriteStart` | gdb-server.c:626-637 | Begins a frame in the array; an unacknowledged one closes the connection instead |
| `GdbServer.Gdb.WriteStr` | gdb-server.c:657-667 | Appends a string to the array, or records that it did not fit |
| `GdbServer.Gdb.WriteFmt` | gdb-server.c:614-623 | Appends formatted text, which needs room for its terminator too |
| `GdbServer.Gdb.WriteBin` | gdb-server.c:670-695 | The escaping loop over the array is the escaped append |
| `GdbServer.Gdb.WriteEnd` | gdb-server.c:640-654 | Adds `#` and the checksum of what the array holds after `$`, and sends; an overflow closes |
| `GdbServer.Gdb.Reply` | gdb-server.c:626-654 | A whole reply on the array is the protocol's reply, of which `GdbSafety.ReplyIs` says what is sent |
| `GdbServer.Gdb.WriteStop` | gdb-server.c:712-771 | Stops the target and sends the reason as one frame, naming the breakpoint kind only to a client that announced it |
| `GdbServer.Gdb.Unlink` | gdb-server.c:1736-1752 | Walks the list and takes out the first breakpoint of this kind, place and length, if there is one; the rest stay in order |
| `GdbServer.Gdb.InsertBreakpoint` | gdb-server.c:1714-1756 | Inserting puts the breakpoint in front of the list and answers |
| `GdbServer.Gdb.RemoveBreakpoint` | gdb-server.c:1714-1756 | Removing takes exactly one out and answers, also when there is none |
| `GdbServer.Gdb.HandlePacket` | gdb-server.c:1795-1809 | A packet has the effect its command has in the protocol |
| `GdbServer.Gdb.SumBody` | gdb-server.c:491-505 | The scan for `#` stops at the first one with the sum of the body |
| `GdbServer.Gdb.TakePacket` | gdb-server.c:489-542 | The packet at the front is taken whole or not at all; checksum, acknowledgement and handling as in the protocol |
| `GdbServer.Gdb.TakeControl` | gdb-server.c:544-576 | One byte outside a packet: `+` lets go of the frame kept, `-` sends it again or is refused and closes, Ctrl-C is noted, anything else is dropped |
| `GdbServer.Gdb.ScanControls` | gdb-server.c:544-576 | Outside packets, everything up to the next `$` is taken as the automaton would, or up to a `-` that cannot be answered |
| `GdbServer.Gdb.HandleInput` | gdb-server.c:480-577 | One pass of the consume loop: consumes a whole packet, the bytes outside one, or nothing when the packet is not all there |
| `GdbServer.Gdb.Receive` | gdb-server.c:451-470 | A read, its consume loop included, which ends because every pass that goes on shortens the input, does what the byte-at-a-time automaton does |
| `GdbServer.Gdb.Notify` | gdb-server.c:244-269 | The loop over the list records the access in every watchpoint |
| `GdbServer.Gdb.CheckInterrupt` | gdb-server.c:1815-1833 | A pending interrupt stops a running target and is consumed; a step about to start is started, a finished one stops |
| `GdbServer.Gdb.CheckBreakpoint` | gdb-server.c:1835-1854 | One breakpoint: stops if it matches and the target still runs, and its trip flag is cleared either way |
| `GdbServer.Gdb.CheckForStop` | gdb-server.c:1813-1855 | The check on the array and the list is the check of `GdbDebug.CheckStopsOnce` |
| `GdbServer.Gdb.AcceptClient` | gdb-server.c:420-447 | A new client starts from nothing: no input, no breakpoints, acknowledgements on, target stopped |
| `GdbServer.Gdb.Select` | gdb-server.c:382-475 | One poll: a read, a caller, a hangup, a lost listener or a failed wait is the event the run theorems take it for, and the input stays a proper part of a packet |
| `GdbServer.Gdb.Serve` | gdb-server.c:214-241 | The loop before each instruction, tied to the model that counts instructions |
| `I2cTrace.AnyWaveMakesTransactions` | i2c_bitbang.c:139-300 | Whatever levels are put on the wires, the callbacks made are a prefix of (START (READ+ or WRITE*) END)*, all to one device within a transaction, and a device is selected only in the two data states |
| `I2cTrace.EachDeviceSeesTransactions` | i2c_bitbang.c:139-300 | The same of what each device sees, whatever others are on the bus |
| `I2cWire.WaveIs` | i2c_bitbang.c:243-300 | Any sequence of levels, repeated or not and changed as often as the master likes, does exactly what its symbols do: a bit for each clock with steady data, else the start or stop last made while it was high |
| `I2cWire.WaveSays` | i2c_bitbang.c:243-300 | Every string of symbols has a wave, so the theorems about symbols are about something |
| `I2cWire.IdleWaveSays` | i2c_bitbang.c:243-300 | And every transfer has one that begins on an idle bus |
| `I2cWire.SymbolsOfPrefix` | i2c_bitbang.c:243-300 | A wave cut off early says a prefix of the symbols |
| `I2cWire.ByteWrites` | i2c_bitbang.c:197-234 | Eight bits and an acknowledgement while writing are one WRITE of the byte, most significant bit first |
| `I2cWire.BytesWrite` | i2c_bitbang.c:197-234 | n bytes are exactly those n WRITEs in order |
| `I2cWire.AddressedForWriting` | i2c_bitbang.c:139-192 | A start and an address byte end the transaction before, and select the device for writing if there is one of that name |
| `I2cWire.AddressedForReading` | i2c_bitbang.c:139-192 | A start and a read address end the transaction before, select the device and fetch the first byte ahead |
| `I2cWire.BytesShow` | i2c_bitbang.c:120-234 | While reading, n bytes and k clocks on, bit k of the n-th further READ is on the line, whatever levels the master drove; one READ is made ahead of the bytes, at the eighth clock |
| `I2cTransfers.WriteTransfer` | i2c_bitbang.c:139-300 | By any waveform: a whole write transfer is, up to the place within a byte, the byte-level select and writes |
| `I2cTransfers.WriteTransferCalls` | i2c_bitbang.c:139-300 | By any waveform, the calls it makes: START, the n WRITEs in order, and one END once a falling clock has closed a stop or another start, and not before |
| `I2cTransfers.EndAtFallingEdge` | i2c_bitbang.c:173-192 | A start or stop takes effect when the clock falls: the selected device gets its END then, and is let go |
| `I2cTransfers.ReadTransfer` | i2c_bitbang.c:120-234 | By any waveform and up to any moment, n bytes and k clocks after a read address: START and n+1 READs were made, n+2 from the eighth clock on, and what the master samples is its own level and bit k of the n-th result |
| `I2cTransfers.ReadBack` | i2c_bitbang.c:120-234 | A master that looks at each bit of n bytes, at any time before its clock falls, puts together the results of the first n READs, whatever came before the read |
| `I2cPort.Port.constructor` | i2c_bitbang.c:302-317 | A bus just reset: idle, both lines high, nothing selected |
| `I2cPort.Port.Register` | i2c_bitbang.c:82-108 | Adds a device unless its address is taken, in which case the one there stays |
| `I2cPort.Port.Invoke` | i2c_bitbang.c:131-135 | Exactly one callback, to the selected device, recorded with its result; 0xFF and none if nothing is selected |
| `I2cPort.Port.ByteDone` | i2c_bitbang.c:139-168 | An address selects at most one device, with one START; a byte written is one WRITE; a byte read makes no call here |
| `I2cPort.Port.Finish` | i2c_bitbang.c:173-183 | Exactly one END to the selected device, if any; then idle, no bits collected, nothing selected |
| `I2cPort.Port.Begin` | i2c_bitbang.c:187-192 | Ends the transaction before; the next byte is an address, and no device gets a START yet |
| `I2cPort.Port.DataBit` | i2c_bitbang.c:197-234 | One bit: shifted out while reading and in otherwise; the eighth completes a byte, the ninth is the acknowledgement |
| `I2cPort.Port.Write` | i2c_bitbang.c:243-300 | Any change of levels: start, stop, data bit or nothing; the theorems about `I2cBus.Run` are about this |
| `I2cPort.Port.Read` | i2c_bitbang.c:120-126 | The bit put out at the last falling edge, pulled down by the master as on a wired AND |
| `Ds1307OnTheWire.WireRoundTrip` | i2c_ds1307.c:53-214 | End to end, bit by bit: for every address from 7 to 63 and data that fits, a write, then a pointer write, another start and a read give the data back, with or without stops between, in any waveform that says so, looked at at any times, whatever the clock says in between and whatever other devices and transactions there were |
| `Ds1307OnTheWire.Store` | i2c_ds1307.c:73-90 | The symbols of a write put the data at the pointer's address |
| `Ds1307OnTheWire.Fetch` | i2c_ds1307.c:53-60 | A read above the clock, in any waveform and after anything, returns the memory at the pointer, the time latched at its start notwithstanding |
| `Ds1307.Device.LatchTime` | i2c_ds1307.c:96-134 | Exactly the first seven bytes become the time, in packed decimal, 12 or 24 hour; the other 57 stay |
| `Ds1307.Device.Call` | i2c_ds1307.c:186-214 | Each callback, on the array, is the device's step: latch at START, pointer first, then bytes, wrapping at 64 |
| `IdeSafety.EveryRunIsSettled` | ide.c:607-720 | After every register access of any run, of any width, whatever the host makes of the transfers: DRQ exactly in the two transfer states, never left in the middle of a command, busy only while held in reset, the buffer offset in its bounds and even outside 8-bit mode while transferring, sectors left while transferring; and the two header blocks of the image are never overwritten |
| `IdeSafety.TheBounds` | ide.c:492-554 | DRQ if and only if in a transfer; BSY only under SRST and without DRQ; offset at most 512, below it when writing; in a transfer sectors left and the offset even unless in 8-bit mode |
| `IdeSafety.CommandEnds` | ide.c:556-601 | Every command, known or not, leaves a usable drive idle or transferring |
| `IdeSafety.DataInSound` | ide.c:492-524 | Reading data keeps all this, never changes the image, and ends the transfer with its last byte or with a failure |
| `IdeSafety.DataOutSound` | ide.c:526-554 | Writing data keeps all this, and never reaches the header |
| `IdeSafety.DoKept` | ide.c:607-825 | One access of any kind keeps both drives settled, also the one not selected |
| `IdeOffset.EvenUnlessBroken` | ide.c:387-409 | The buffer offset stays even outside 8-bit mode through an access exactly when the access does not leave 8-bit mode (SET FEATURES, the reset line, or the software reset bit rising) while the offset is odd; of both drives, for every access of every width |
| `IdeOffset.RunEven` | ide.c:492-720 | So in any run without such an access the offset is even unless in 8-bit mode, transfer or not |
| `IdeOffset.OddOffsetStays` | ide.c:387-409 | And one run, on any drive just attached, after which it is odd outside 8-bit mode with the drive idle |
| `IdeOffset.CommandEven` | ide.c:556-601 | No command but SET FEATURES 0x81 leaves an odd offset outside 8-bit mode, and that one exactly when it finds one |
| `IdeTransfer.WriteThenRead` | ide.c:309-554 | What WRITE SECTORS wrote to a block READ SECTORS reads from it, byte for byte, on either drive, each in any of the widths that match its mode and naming the block in any way; all of the image outside the n sectors is unchanged |
| `IdeTransfer.WriteSectorsStore` | ide.c:411-554 | WRITE SECTORS as its register accesses, command and all: the data on the image at the block named, nothing else changed, the other drive included, and the drive idle without error |
| `IdeTransfer.ReadSectorsBring` | ide.c:309-524 | READ SECTORS as its register accesses, for blocks on the image: the words read are what is there, and nothing of it changes |
| `IdeTransfer.SetupIs` | ide.c:636-693 | Six register writes select the drive, load the address and start the command, from any settled state |
| `IdeSectors.OneOut` | ide.c:526-554 | Each access that hands data over moves the transfer on by one unit; sectors reach the image as they fill up |
| `IdeSectors.OneIn` | ide.c:492-524 | Each access that takes data yields the next unit of the image; sectors are fetched when first needed |
| `IdeSectors.WriteAtReads` | ide.c:476-490 | Writing at a place reads back there and changes nothing elsewhere |
| `IdeAddress.BothNameTheSameBlock` | ide.c:144-172 | Cylinder, head and sector, and the number (c*H+h)*S+s-1, name the same block on drive 0 |
| `IdeAddress.AddressesAreBlocks` | ide.c:144-172 | The valid addresses of drive 0 correspond one to one to the blocks from 2 up to its capacity: in range, no two alike, none without |
| `IdeAddress.ChsRefused` | ide.c:144-172 | Exactly when an address is refused, and that correcting sector 0 to 1 changes no translation |
| `IdeAddress.SecondDriveRefusesChs` | ide.c:161-170 | On drive 1 every such address is refused, because the drive bit takes part in the head check |
| `IdeDevice.Unit.XlateBlock` | ide.c:144-172 | Returns the block `Ide.Translate` names, or -1, and rewrites the registers as `Ide.Corrected` does; `IdeAddress.ChsRefused` and `IdeAddress.AddressesAreBlocks` state which blocks those are |
| `IdeDevice.Unit.Ready` | ide.c:175-180 | Changes the fields as `Ide.Ready` does; `IdeSafety.CompletedEnds` states that this ends a command |
| `IdeDevice.Unit.Completed` | ide.c:183-187 | Changes the fields as `Ide.Completed` does; `IdeSafety.CompletedEnds` states that this ends a command |
| `IdeDevice.Unit.DriveFailed` | ide.c:189-194 | Changes the fields as `Ide.DriveFailed` does; `IdeSafety.DriveFailedSame` states what stays |
| `IdeDevice.Unit.DataInState` | ide.c:196-206 | Changes the fields as `Ide.DataInState` does; `IdeSafety.ReadCommandEnds` states what it starts |
| `IdeDevice.Unit.DataOutState` | ide.c:208-216 | Changes the fields as `Ide.DataOutState` does; `IdeSafety.WriteCommandEnds` states what it starts |
| `IdeDevice.Unit.EddSetup` | ide.c:218-227 | Changes the fields as `Ide.EddSetup` does; `IdeSafety.DiagnosedSettled` states that it leaves the drive settled |
| `IdeDevice.Unit.Identify` | ide.c:283-291 | Changes the fields as `Ide.Identify` does; `IdeSafety.IdentifyEnds` states what transfer it starts |
| `IdeDevice.Unit.InitParams` | ide.c:293-307 | Changes the fields as `Ide.InitParams` does; `IdeSafety.InitParamsEnds` states that it ends |
| `IdeDevice.Unit.Position` | ide.c:325-332 | Puts the image file at the block found; with no block, or where the host does not go there, the registers say that no such address exists |
| `IdeDevice.Unit.ReadSectors` | ide.c:309-335 | Changes the fields as `Ide.ReadSectors` does; `IdeSafety.ReadCommandEnds` states how it ends and `IdeTransfer.ReadSectorsBring` what it brings |
| `IdeDevice.Unit.VerifySectors` | ide.c:337-355 | Changes the fields as `Ide.VerifySectors` does; `IdeSafety.VerifyCommandEnds` states that it ends with the image untouched |
| `IdeDevice.Unit.Recalibrate` | ide.c:357-370 | Changes the fields as `Ide.Recalibrate` does; `IdeSafety.RecalibrateEnds` states that it ends with the image untouched |
| `IdeDevice.Unit.Seek` | ide.c:372-385 | Changes the fields as `Ide.Seek` does; `IdeSafety.SeekEnds` states that it ends with the image untouched |
| `IdeDevice.Unit.SetFeatures` | ide.c:387-409 | Changes the fields as `Ide.SetFeatures` does; `IdeSafety.SetFeaturesEnds` states that it ends and `IdeOffset.SetFeaturesEven` when it leaves an odd offset |
| `IdeDevice.Unit.WriteSectors` | ide.c:411-434 | Changes the fields as `Ide.WriteSectors` does; `IdeSafety.WriteCommandEnds` states how it ends and `IdeTransfer.WriteSectorsStore` what it stores |
| `IdeDevice.Unit.SetError` | ide.c:436-457 | Changes the fields as `Ide.SetError` does; `IdeSafety.SetErrorSound` states that this ends a transfer |
| `IdeDevice.Unit.ReadSector` | ide.c:459-474 | Changes the fields as `Ide.ReadSector` does; `IdeSafety.RefilledIs` states what it keeps and `IdeSectors.OneIn` what it brings |
| `IdeDevice.Unit.WriteSector` | ide.c:476-490 | Changes the fields as `Ide.WriteSector` does; `IdeSafety.WriteSectorIs` states what it keeps and `IdeSectors.WriteAtReads` what is then on the image |
| `IdeDevice.Unit.DataIn` | ide.c:492-524 | Changes the fields as `Ide.DataIn` does; `IdeSafety.DataInSound` states what it keeps and `IdeSectors.OneIn` which bytes it yields |
| `IdeDevice.Unit.DataOut` | ide.c:526-554 | Changes the fields as `Ide.DataOut` does; `IdeSafety.DataOutSound` states what it keeps and `IdeSectors.OneOut` where the bytes go |
| `IdeDevice.Unit.Command` | ide.c:556-601 | Changes the fields as `Ide.Command` does; `IdeSafety.CommandEnds` states what every command leaves |
| `IdeDevice.Controller.Reset` | ide.c:230-245 | Changes the fields as `Ide.Reset` does; `IdeSafety.ResetSettled` states that both drives are settled |
| `IdeDevice.Controller.ResetBegin` | ide.c:247-255 | Changes the fields as `Ide.Reset` does, `IdeDevice.BusyThenReset` being why |
| `IdeDevice.Controller.SoftResetBegin` | ide.c:257-264 | Changes the fields as `Ide.SoftResetBegin` does; `IdeSafety.ControlKept` states that busy drives are held in reset |
| `IdeDevice.Controller.SoftResetEnd` | ide.c:266-271 | Changes the fields as `Ide.SoftResetEnd` does; `IdeSafety.ControlKept` states that no drive stays busy |
| `IdeDevice.Controller.Diagnose` | ide.c:273-281 | Changes both drives as `Ide.Diagnosed` does and selects drive 0; `IdeSafety.DiagnosticKept` states what that leaves |
| `IdeDevice.Controller.IssueCommand` | ide.c:556-601 | Changes the fields as `Ide.IssueCommand` does; `IdeSafety.IssueKept` states what it leaves of both drives |
| `IdeDevice.Controller.DeviceControl` | ide.c:683-692 | Changes the fields as `Ide.DeviceControl` does; `IdeSafety.ControlKept` states what it leaves of both drives |
| `IdeDevice.Controller.Read8` | ide.c:607-634 | Changes the fields as `Ide.Read8` does; `IdeSafety.Read8Kept` states what it keeps |
| `IdeDevice.Controller.Write8` | ide.c:636-693 | Changes the fields as `Ide.Write8` does; `IdeSafety.Write8Kept` states what it keeps and `IdeOffset.Write8Even` when it leaves an odd offset |
| `IdeDevice.Controller.Read16` | ide.c:699-705 | Changes the fields as `Ide.Read16` does; `IdeSafety.Read16Kept` states what it keeps |
| `IdeDevice.Controller.Write16` | ide.c:707-720 | Changes the fields as `Ide.Write16` does; `IdeSafety.Write16Kept` states what it keeps |
| `IdeDevice.Controller.ReadLatched` | ide.c:801-812 | Changes the fields as `Ide.ReadLatched` does; `IdeSafety.DoKept` states what it keeps and `IdeTransfer.GetOneIs` which bytes two of them bring |
| `IdeDevice.Controller.WriteLatched` | ide.c:814-825 | Changes the fields as `Ide.WriteLatched` does; `IdeSafety.DoKept` states what it keeps and `IdeTransfer.PutOneIs` where the bytes of two go |
| `M6809Garbage.RunAgrees` | e6809.c:6-13 | Non-interference for every run over the whole instruction set, interrupts included: two cores that agree modulo the register widths read and write the same addresses with the same data in the same order, take the same branches and as many cycles, and still agree |
| `M6809Garbage.WideIsNarrow` | e6809.c:6-13 | So the core may let its upper bits hold garbage: over every run it does on the bus what a core that truncates every register after every instruction does, and holds the same registers modulo their widths |
| `M6809Garbage.StepAgrees` | e6809.c:1133-2637 | One step of two cores that agree leaves them agreeing: interrupts, then one instruction of any page |
| `M6809Garbage.ExecuteAgrees` | e6809.c:1198-2637 | Each instruction of the set, in every addressing mode |
| `M6809Garbage.InterruptsAgree` | e6809.c:1139-1190 | Interrupt entry, with either line, masked or not, waiting or not |
| `M6809Garbage.IndexedAgrees` | e6809.c:292-514 | Every indexed mode gives the same address modulo 2^16 at the same cost |
| `M6809Garbage.PushListAgrees` | e6809.c:908-951 | The same bytes are pushed at the same places |
| `M6809Garbage.PullListAgrees` | e6809.c:955-998 | The same bytes are pulled from the same places, into registers that agree |
| `M6809Flags.ZeroTests` | e6809.c:120-145 | The branch-free tests for zero look at eight and sixteen bits only |
| `M6809Flags.SignTests` | e6809.c:113-116 | The sign of a byte, and of a word through its upper half |
| `M6809Flags.CarryTest` | e6809.c:98-109 | For any garbage above: the carry is set exactly when the two bytes and the carry in exceed a byte |
| `M6809Flags.HalfCarryTest` | e6809.c:821-836 | The same test shifted by four is the carry out of the lower digits |
| `M6809Flags.OverflowTest` | e6809.c:152-161 | Set exactly when the signed sum is out of range |
| `M6809Flags.CarryTest16` | e6809.c:840-854 | The carry of a word addition, from its upper halves |
| `M6809Flags.OverflowTest16` | e6809.c:840-854 | The overflow of a word addition, from its upper halves |
| `M6809Flags.BorrowTest` | e6809.c:713-750 | With the subtrahend complemented the carry test is the borrow |
| `M6809Flags.BorrowTest16` | e6809.c:858-872 | The borrow of a word subtraction |
| `M6809Flags.UnderflowTest` | e6809.c:713-750 | Signed overflow of a byte subtraction |
| `M6809Flags.UnderflowTest16` | e6809.c:858-872 | Signed overflow of a word subtraction |
| `M6809Flags.SetGet` | e6809.c:81-94 | Setting one flag is seen in that flag and in no other |
| `M6809Flags.AdditionCodes` | e6809.c:786-836 | ADD and ADC: the sum, N and Z of it, C, H and V exactly when the bytes carry, half-carry and overflow; E, F and I untouched |
| `M6809Flags.SubtractionCodes` | e6809.c:713-750 | SUB, CMP and SBC: the difference and its flags, C a borrow and V the signed overflow; E, F and I untouched |
| `M6809Flags.WordAdditionCodes` | e6809.c:840-854 | ADDD: the sum and its flags |
| `M6809Flags.WordSubtractionCodes` | e6809.c:858-872 | SUBD and the word comparisons: the difference and its flags |
| `M6809Flags.CompareThenBranch` | e6809.c:2151-2210 | After a comparison of bytes BEQ, BLO, BLS, BLT and BLE test their order, unsigned and signed, with or without equality; `BranchAddsOffset` takes their opposites from the same tests |
| `M6809Flags.WordCompareThenBranch` | e6809.c:858-872 | After a comparison of words, likewise |
| `M6809Flags.BranchAddsOffset` | e6809.c:876-904 | Adding the masked offset branches when the test holds, for odd codes, and when it fails, for even ones |
| `M6809Same.AdditionsSame` | e6809.c:786-836 | ADD and ADC: eight bits of the result and all flags depend on eight bits of the operands only |
| `M6809Same.SubtractionsSame` | e6809.c:713-750 | SUB and SBC, likewise |
| `M6809Same.LogicSame` | e6809.c:756-817 | AND, EOR and OR, likewise |
| `M6809Same.NegAslSame` | e6809.c:520-624 | NEG and ASL, likewise |
| `M6809Same.RolSame` | e6809.c:630-645 | ROL, likewise |
| `M6809Same.DecIncSame` | e6809.c:651-683 | DEC and INC, likewise |
| `M6809Same.ComSame` | e6809.c:539-551 | COM, likewise |
| `M6809Same.LsrSame` | e6809.c:557-568 | LSR, likewise |
| `M6809Same.RorAsrSame` | e6809.c:574-603 | ROR and ASR, likewise |
| `M6809Same.Add16Same` | e6809.c:840-854 | ADDD, in sixteen bits |
| `M6809Same.Sub16Same` | e6809.c:858-872 | SUBD and comparisons, in sixteen bits |
| `M6809Same.MulSame` | e6809.c:2141-2148 | MUL: its whole product depends on eight bits of each factor only |
| `M6809Same.DaaSame` | e6809.c:2343-2366 | DAA: eight bits of the result and all flags depend on eight bits of A and the flags only |
| `M6809Nesting.ServiceRestores` | e6809.c:1133-2374 | A run of steps that comes to an interrupt, from outside, by SWI, SWI2 or SWI3, or by CWAI and a line that comes up any number of steps later, and whose handler does anything that keeps the stack, further interrupts to any depth included, up to its RTI: S, the program counter and the CC that was pushed are back, and all other registers from a frame whose E is set, modulo their widths |
| `M6809Nesting.RunKeepsStack` | e6809.c:1133-2374 | A run of steps made of stack-keeping code and interrupts, well nested to any depth, leaves every byte of the stack as it was and S where it was |
| `M6809Nesting.NestingKeepsStack` | e6809.c:1133-2374 | The same half step by half step, from any point of a run to any other |
| `M6809Nesting.RunIsHalves` | e6809.c:1133-1196 | A run is its half steps in order: the lines, then an instruction or idling |
| `M6809Nesting.EntryIs` | e6809.c:1139-1196 | Entry as it happens in a run, opcode fetched and steps idled while CWAI waits, is entry as the frame lemmas have it, but for that many cycles |
| `M6809Nesting.ReturnIs` | e6809.c:2317-2328 | A step that comes to the opcode of RTI is the return |
| `M6809Nesting.IdlePasses` | e6809.c:1189-1196 | While CWAI waits and every line that comes up is masked, nothing changes but the cycle count |
| `M6809Interrupts.FrameMatchesE` | e6809.c:1139-1184 | The frame is 12 bytes if the E bit stored in it is set and 3 if not; it is set in all but those of a fast interrupt not waited for |
| `M6809Interrupts.EnterStacks` | e6809.c:1139-1184 | Every way in leaves exactly that frame on top of what was on the stack |
| `M6809Interrupts.PushedIs` | e6809.c:2367-2374 | What is pushed: the registers at entry with E set or cleared; for CWAI after its operand was masked in, and with the program counter past it |
| `M6809Interrupts.PushAllStacks` | e6809.c:908-951 | Pushing everything puts twelve bytes on the stack, low byte of each word first, and disturbs none below |
| `M6809Interrupts.ReturnFromEntire` | e6809.c:2318-2328 | RTI with E set in the pulled CC takes twelve bytes and gives every register back |
| `M6809Interrupts.ReturnFromFast` | e6809.c:2318-2328 | RTI with E clear takes three bytes and touches nothing but CC, the program counter and S |
| `M6809Core.Core.constructor` | e6809.c:1109-1129 | The fields are those of `M6809.ResetCpu`: registers zero, both interrupts masked, the program counter from its vector |
| `M6809Core.Core.Sstep` | e6809.c:1133-2637 | Changes the fields as `M6809.Step` does; `M6809Garbage.StepAgrees` and `M6809Nesting.RunIsHalves` are about it |
| `M6809Core.Core.Interrupts` | e6809.c:1139-1190 | Changes the fields as `M6809.Interrupts` does; `M6809Interrupts.HardwareStacks` states the frame and `M6809Nesting.IdlePasses` when nothing happens |
| `M6809Core.Core.SoftwareInterrupt` | e6809.c:2329-2336 | Changes the fields as `M6809.DoSoftware` does; `M6809Interrupts.SoftwareStacks` states the frame |
| `M6809Core.Core.WaitForInterrupt` | e6809.c:2367-2374 | Changes the fields as `M6809.DoWait` does; `M6809Interrupts.WaitStacks` states the frame and that the processor then waits |
| `M6809Core.Core.ReturnFromInterrupt` | e6809.c:2317-2328 | Changes the fields as `M6809.DoReturnFromInterrupt` does; `M6809Interrupts.ReturnFromEntire` and `ReturnFromFast` state what it gives back |
| `M6809Core.Core.InstPsh` | e6809.c:908-951 | Changes the fields as `M6809.PushList` does; `M6809Interrupts.PushAllStacks` states what is then on the stack |
| `M6809Core.Core.InstPul` | e6809.c:955-998 | Changes the fields as `M6809.PullList` does; `M6809Interrupts.PullRestUnstacks` states what is then in the registers |
| `M6809Core.Core.Push8` | e6809.c:208-212 | Changes the fields as `M6809.Push8` does; `M6809Interrupts.Push8Stacks` states that the byte is on top |
| `M6809Core.Core.Pull8` | e6809.c:214-222 | Changes the fields as `M6809.Pull8` does; `M6809Interrupts.Pull8Unstacks` states that it takes the top byte |
| `M6809Core.Core.Push16` | e6809.c:224-228 | Changes the fields as `M6809.Push16` does; `M6809Garbage.Push16Agrees` states what it depends on |
| `M6809Core.Core.Pull16` | e6809.c:230-238 | Changes the fields as `M6809.Pull16` does; `M6809Interrupts.Pull16Unstacks` states that it takes the word pushed |
| `M6809Core.Core.PcRead8` | e6809.c:242-250 | Changes the fields as `M6809.PcRead8` does; `M6809Garbage.PcRead8Agrees` states what it depends on |
| `M6809Core.Core.PcRead16` | e6809.c:254-262 | Changes the fields as `M6809.PcRead16` does; `M6809Garbage.PcRead16Agrees` states what it depends on |
| `M6809Core.Core.Read16` | e6809.c:192-200 | Changes the fields as `M6809.Read16` does; `M6809Garbage.Read16Agrees` states what it depends on |
| `M6809Core.Core.Write16` | e6809.c:202-206 | Changes the fields as `M6809.Write16` does; `M6809Garbage.Write16Agrees` states what it depends on |
| `M6809Core.Core.EaDirect` | e6809.c:276-279 | Changes the fields as `M6809.Direct` does; `M6809Garbage.DirectAgrees` states what the address depends on |
| `M6809Core.Core.EaIndexed` | e6809.c:292-514 | Changes the fields as `M6809.Indexed` does; `M6809Garbage.IndexedAgrees` states what the address depends on, for every post byte |
| `M6809Core.Core.InstAdd8` | e6809.c:821-836 | Result and flags of `M6809Word.Add8`, of which `M6809Flags.AdditionCodes` states the meaning |
| `M6809Core.Core.InstAdc` | e6809.c:786-802 | Result and flags of `M6809Word.Adc`, of which `M6809Flags.AdditionCodes` states the meaning |
| `M6809Core.Core.InstSub8` | e6809.c:713-728 | Result and flags of `M6809Word.Sub8`, of which `M6809Flags.SubtractionCodes` and `CompareThenBranch` state the meaning |
| `M6809Core.Core.InstSbc` | e6809.c:734-750 | Result and flags of `M6809Word.Sbc`, of which `M6809Flags.SubtractionCodes` states the meaning |
| `M6809Core.Core.InstAdd16` | e6809.c:840-854 | Result and flags of `M6809Word.Add16`, of which `M6809Flags.WordAdditionCodes` states the meaning |
| `M6809Core.Core.InstSub16` | e6809.c:858-872 | Result and flags of `M6809Word.Sub16`, of which `M6809Flags.WordSubtractionCodes` and `WordCompareThenBranch` state the meaning |
| `M6809Core.Core.InstUnary` | e6809.c:520-683 | Result and flags of `M6809.Unary`, of which `M6809Garbage.UnaryAgrees` states what they depend on |
| `M6809Core.Core.InstBra8` | e6809.c:876-888 | Changes the fields as a short branch of `M6809.DoBranch` does; `M6809Flags.BranchAddsOffset` states when it is taken |
| `M6809Core.Core.InstBra16` | e6809.c:892-904 | Changes the fields as a long branch of `M6809.DoLongBranch` does; `M6809Flags.BranchAddsOffset` states when it is taken |
| `M6809Core.Core.ExgTfrRead` | e6809.c:1000-1042 | The word of `M6809.Named`; `M6809Garbage.NamedAgrees` states what it depends on |
| `M6809Core.Core.ExgTfrWrite` | e6809.c:1044-1081 | Changes the fields as `M6809.Renamed` does; `M6809Garbage.RenamedAgrees` states what it depends on |
| `M6809Core.Core.InstExg` | e6809.c:1085-1094 | Changes the fields as `M6809.DoExchange` does; `M6809Garbage.ExchangesAgree` states what it depends on |
| `M6809Core.Core.InstTfr` | e6809.c:1098-1105 | Changes the fields as `M6809.DoTransfer` does; `M6809Garbage.ExchangesAgree` states what it depends on |
| `M6809Core.Core.InstMul` | e6809.c:2140-2148 | Changes the fields as `M6809.DoMultiply` does; `M6809Same.MulSame` states what product and flags depend on |
| `M6809Core.Core.InstDaa` | e6809.c:2342-2366 | Changes the fields as `M6809.DoAdjust` does; `M6809Same.DaaSame` states what result and flags depend on |
| `Ctc.TickSplit` | linc80.c:297-329 | Ticking a clocks and then b leaves all four channels, counts, interrupts and the chained channel 3 as ticking a+b |
| `Ctc.TickIsSingleClocks` | linc80.c:297-329 | So a batch of any size is the same as one clock at a time |
| `Ctc.TickAllIsOneTick` | linc80.c:297-329 | And so is any way of cutting the clocks up |
| `Ctc.ReloadsIsLeast` | linc80.c:309-323 | The number of reloads is the least that brings the balance back to non-negative, and the count left is the balance with that many periods added |
| `Ctc.ExpiryTimes` | linc80.c:297-329 | A running timer has expired j times exactly when the clocks, prescaled, exceed its count by j-1 periods |
| `Ctc.ProgrammedTimer` | linc80.c:331-370 | A timer just programmed with a constant, 0 meaning 256, has expired j times exactly when its clocks, prescaled, exceed j periods less one count |
| `Ctc.ReloadsSplit` | linc80.c:309-323 | Splitting a balance splits its reloads and settles on the same count |
| `Ctc.AdvanceSplit` | linc80.c:297-329 | The same of one channel, whatever its mode |
| `Ctc.PulsesThenAdvance` | linc80.c:277-329 | Pulses from channel 2 and clocks commute on a channel |
| `Ctc.ExpiredTogether` | linc80.c:224-296 | k expiries of channel 2 are one raised interrupt and k pulses into channel 3 |
| `Ctc.Device.Interrupt` | linc80.c:224-235 | Marks the channel's interrupt, if it is enabled, and no other; the interrupt line is to be worked out again exactly when the mark is new |
| `Ctc.Device.SendPulse` | linc80.c:269-275 | A pulse out of channel 2 is one pulse into channel 3; out of the others it is lost |
| `Ctc.Device.ReceivePulse` | linc80.c:277-296 | In counter mode one count down, and below one count left a reload and an interrupt; in timer mode only the trigger is taken |
| `Ctc.Device.Write` | linc80.c:331-370 | A constant loads the count only under reset and releases the channel; a control word without interrupts takes a pending one away, and has the line worked out again if none is left; anything else is the vector |
| `Ctc.Device.Withdraw` | linc80.c:356-363 | One pending interrupt goes; the line is worked out again if it was the last |
| `Ctc.Device.ReloadLoop` | linc80.c:309-323 | Ends, with exactly `Reloads` expiries, each interrupting and pulsing on, and the balance of `Ctc.ReloadsIsLeast` |
| `Ctc.Device.TickChannel` | linc80.c:301-327 | One channel of the loop; a running timer's count stays within 16 bits |
| `Ctc.Device.TickAllChannels` | linc80.c:297-329 | The loop over the channels is `Ctc.Tick`, and the line is worked out again exactly when some channel's interrupt has become pending on the way |
| `Cpu65C02.AdcChainAdds` | fake65c02.h:432-459 | For every n and all packed decimal operands, n chained decimal ADCs give the n-byte decimal sum and its carry |
| `Cpu65C02.SbcChainSubtracts` | fake65c02.h:812-841 | For every n, n chained decimal SBCs give the decimal difference and its borrow |
| `Cpu65C02.SbcUndoesAdc` | fake65c02.h:812-841 | Subtracting undoes adding, bytes and carry, for every n |
| `Cpu65C02.AdcColumn` | fake65c02.h:432-459 | One decimal ADC of two packed bytes is packed and worth their sum |
| `Cpu65C02.SbcColumn` | fake65c02.h:812-841 | One decimal SBC of two packed bytes is packed and worth their difference |
| `Cpu65C02.AdcDigits` | fake65c02.h:432-459 | Digit by digit: the correction carries exactly when a digit passes nine |
| `Cpu65C02.SbcDigits` | fake65c02.h:812-841 | Digit by digit: the correction borrows exactly when a digit falls below zero |
| `Cpu65C02.Cpu.Adc` | fake65c02.h:432-459 | On the registers: binary, the sum of 9 bits and signed overflow; decimal, the column above and one clock more; N and Z; the other flags kept |
| `Cpu65C02.Cpu.Sbc` | fake65c02.h:812-841 | On the registers: binary, the difference with its borrow; decimal, the column above and one clock more; V the signed overflow of the binary one; the other flags kept |
| `Cpu65C02.AddDecimal` | fake65c02.h:432-459 | A loop of ADCs over bytes adds multi-byte decimals |
| `Cpu8080.AdcDaaChainMatches65C02` | intel_8080_emulator.c:404-722 | For every n and all packed operands, chains of ADC and DAA give the same bytes and carry as the 65C02's decimal ADCs |
| `Cpu8080.AdcDaaColumn` | intel_8080_emulator.c:404-722 | The two correction algorithms, one after the addition and one within it, agree on every pair of packed bytes and carry |
| `Cpu8080.DaaDigits` | intel_8080_emulator.c:404-418 | What DAA does to a sum of digits, by its carry and half carry |
| `Cpu8080.SbbChainSubtracts` | intel_8080_emulator.c:723-764 | For every n and all bytes, chained SBBs subtract modulo 256^n, with the borrow |
| `Cpu8080.SbbColumn` | intel_8080_emulator.c:744-764 | The test `(result >= A) && operand` is the borrow, for all bytes and either borrow in |
| `Cpu8080.Cpu.Adc` | intel_8080_emulator.c:702-722 | ADC on the registers: sum, C, AC, Z, S and P |
| `Cpu8080.Cpu.Sub` | intel_8080_emulator.c:723-743 | SUB on the registers: as SBB without a borrow in, whatever the carry was; C, AC, Z, S and P |
| `Cpu8080.Cpu.Sbb` | intel_8080_emulator.c:744-764 | SBB on the registers: difference, C, AC, Z, S and P |
| `Cpu8080.Cpu.Daa` | intel_8080_emulator.c:404-418 | On the registers: the corrected byte and carry of `DaaDigits`, AC exactly when the first correction carries out of the low digit, and Z, S and P of the byte |
| `Cpu8080.AddDecimal` | intel_8080_emulator.c:404-722 | A loop of ADC and DAA adds multi-byte decimals |
| `Cpu8080.Subtract` | intel_8080_emulator.c:723-764 | SUB for the first byte and SBB for the rest subtract multi-byte numbers, with the borrow |

## Left out

- GdbWire.HexEncodeInPlace: room to print every character from 128 on as eight digits; nearer the end of the buffer the code records an overflow and goes on.
- GdbWire.HexDecodeInPlace: digits only; the white space, signs and `0x` that `scanf` lets into a number are not modelled.
- GdbServer.Gdb.Receive: bytes left over from before fit the input buffer; that a read with the buffer full counts as a lost connection is part of the polls, not of this method.
- GdbServer.Gdb.HandlePacket: what a packet's text asks for is a parameter, so scanning it, the packet cursor and the tables of handlers are not modelled.
- GdbServer.Gdb.TakePacket: what the two characters after `#` scan to is a parameter, except that what the server itself prints scans back (`ScansHex`) where a round trip is stated.
- GdbServer.Gdb.InsertBreakpoint: an insert that finds no memory only sends an error, and counts as one of the packets that only answer.
- GdbServer.Gdb.SendBuffer: a send that takes only part of the buffer counts as failed, as in the code; how much of it reached the wire is not recorded.
- GdbServer.Gdb.Select: sockets and `select` itself are what each poll reports.
- GdbServer.Gdb.Serve: the flag by which the main program ends the loop, and the time it sleeps.
- GdbDebug.WatchpointsSumUpAccesses: addresses do not wrap.
- Replies that only answer (registers, memory, memory search, features, monitor commands) are any sequence of writes; the target description ignores the offset asked for, and memory search is sound only.
- Parsing the address to listen on.
- I2cPort.Port.Write: the cycle counter, the trace and a reset in the middle of a run, which forgets every device; clock stretching and acknowledgement checks are not in the code.
- I2cTransfers.WriteTransferCalls: device addresses of seven bits, as the bus has them.
- GdbStep.StepPacket: what a packet asks for is a parameter, the address a step may go on from included.
- I2cWire.WaveIs: of both lines set at once what counts is where they end up, as in the code; on real wires one of them changes first.
- Ds1307OnTheWire.WireRoundTrip: addresses from 7 on; the seven below are overwritten with the time whenever a transaction starts. Saving to and loading from a file are not modelled.
- IdeDevice.Unit.SetError: which address is reported after a failure is arbitrary, because the code divides and masks the file offset in ways that name no block.
- IdeTransfer.WriteThenRead: a transfer of matching width; and a host that moves every sector whole and seeks where it is told, on an image that holds the blocks read.
- IdeSafety.EveryRunIsSettled: has the buffer offset even during transfers only; `IdeOffset` says exactly which accesses leave it odd at other times. The next transfer starts over.
- Attaching, detaching and creating disk images, and the identity block's contents.
- M6809Nesting.ServiceRestores: a stack in memory that does not wrap onto itself, with room for the frame; a stack on a device, or over its own handler, is outside the promise.
- M6809Core.Core.InstDaa: what it computes is modelled, but not that it adjusts decimals: it loses an incoming carry.
- M6809Core.Core.Sstep: the trace, the hooks before each instruction and the register query are not modelled; the flag setter's multiplication by 0 or 1 is a choice.
- Ctc.TickSplit: a batch whose clocks times sixteen fit a C `int`, which `TickAllChannels` requires; beyond that the code overflows.
- The CTC's place in the interrupt daisy chain, its vectors and the acknowledgement (linc80.c:237-267), and reading a count back.
- Cpu65C02.Cpu.Adc: operand fetch by addressing mode, and its penalty clocks.
- Cpu8080.Cpu.Adc: cycles, and operand fetch from registers or memory.
- Other processors' decimal and overflow code (6800, 8085, 1802, NMOS 6502) differs from the textbook and is not modelled.
- Other chips: serial and parallel ports have one-branch facts only; `drivewire.c`, `68230.c` and `6840.c` do not have the transfer and batching properties proved here.
- Disassemblers, video, fonts, terminals and the machines' main programs.
