# Verification of a BBC Micro emulator

A Dafny model of the emulator's clocked devices and of what they do together, with proofs about every run.
Each device that the source updates in place is a class whose methods follow the source's steps and are proved
to do what a function of the old state says; the results are proved about those functions, over unbounded runs.

| files | what they model |
|---|---|
| `Receiver`, `BitRate` | the ACIA's receiver: sampling, framing and the bit lengths that it tolerates |
| `AciaSpec`, `Acia`, `AciaRuns`, `AciaStatus`, `TransmitLedger`, `SerialLink` | the 6850 ACIA, its status over every run and the byte that shows it, what it accepts and sends, two of them on a line |
| `TapeStreams`, `TapeText`, `RawLoading`, `TapeRecording` | UEF and raw tapes as streams of bits, and what a raw tape plays and records |
| `SerialUlaSpec`, `SerialUla`, `CarrierLock`, `TransmitClock`, `TransmitDeadline`, `ReceiveClock` | the serial ULA between the cassette port and the ACIA: carrier, clocks, how long a byte takes |
| `TapePlayer`, `TapeLoading`, `CassetteLoad`, `CassetteTiming` | loading from cassette, from the bits on tape to the bytes that the CPU reads |
| `TapeLeaders`, `TapeTrails`, `TrialTapes`, `CassetteWindow` | how much leader that takes, and how often the CPU must read, exactly |
| `CrtcSpec`, `Crtc`, `CrtcRegisters`, `CrtcFrames`, `CrtcDisplay`, `CrtcResets`, `CrtcPulses`, `CrtcRows`, `ScreenMemory` | the 6845 CRTC, the closed form of its frames and of display enable, what a reset does to them, its sync pulses, the hardware-scrolled screen |
| `CpuAlu`, `Microcode`, `Opcodes`, `Instructions`, `InstructionMeaning`, `CpuCycles`, `CpuTicks`, `StackDiscipline`, `PendingEntry`, `Cpu` | the 6502: arithmetic, handlers, instructions and their meaning, the refinement, interrupts and subroutines |
| `Clocks`, `Board`, `Stepping`, `Beeb` | clock stretching, bus dispatch, and the engine's single step |
| `Crc`, `Bursts`, `AcornBlocks` | the tape CRC, Acorn blocks, files |
| `Via` | the 6522's interrupts and timers |
| `Bits`, `Division` | bits of numbers, quotients |

Public documents that the source follows: the Motorola MC6850 data sheet, the UEF specification, the MCS6500
Family Hardware Manual, Appendix A, and the BBC Microcomputer Advanced User Guide.

## What the proofs found in the code

- Ninety-nine leader bits are enough, not a hundred: the lock applies as the hundredth carrier bit is fetched, before
  that bit is clocked. A tape with any block behind fewer is not read exactly (`TapeLeaders.TapeIsReadExactly`).
- A drop of the carrier, at a gap or at the end of the tape, discards an unread byte (`acia_6850.cpp:605-635`), so
  reading before the next stop bit is not enough: the CPU must read within half a bit and a clock, or a bit later for
  each carrier bit that the tape leaves behind its data, up to ten (`CassetteWindow.WindowIsExact`; the losing tape
  and schedule are `CassetteWindow.LateReadsLose`).
- An accepted TDR write drops IRQ while a received character is waiting; reading an empty RDR, and a master reset, drop
  it while the TDR is empty (`AciaRuns.ReceiveInterruptLostExactly`, `AciaRuns.TransmitInterruptLostExactly`, with
  runs from power-on in `AciaRuns.ReceiveInterruptCanBeLost` and `AciaRuns.TransmitInterruptCanBeLost`).
- The carrier sets DCD, against the data sheet quoted beside it, and a drop acknowledged before the carrier is back
  leaves DCD set for good (`AciaRuns.DcdNeedsAcknowledging` is exact). The model follows the code.
- A master reset does not set TDRE: one made with CTS low while TDRE is clear, as with a byte in the TDR, leaves it
  clear, and nothing is accepted until CTS has been raised and lowered (`AciaStatus.StatusTells` is exact,
  `AciaStatus.ResetCanStick` gives runs).
- A break leaves the pin low after it has been ended, until the next byte is sent (`AciaStatus.BreakLingers`). Going
  from eight bits to seven in mid-byte can make the byte 256 bit times longer (`TransmitDeadline.WordCutShort`).
- The port hears the transmit pin once a transmitter clock, whatever the ACIA divides by: what it records is what is
  sent only undivided, and with seven bits only where the parity bit is the eighth bit (`TapeRecording`). A raw tape
  that is played loses its first ten bytes to the carrier lock and its last to the end of the carrier
  (`RawLoading.RawTapeDelivers`).
- Display enable follows the address by one character: characters 1 to R1 are shown, and where R1 plus a skew exceeds
  R0 the line is never closed (`CrtcDisplay.DisplayEnabledAt`). With R8 at 3 and R9 odd a row never ends
  (`CrtcRows.RowsInTwos`).
- A vertical sync width of zero means sixteen lines, as the comment at `6845_crtc.cpp:183` has it, only in an even
  interlaced frame or from a line's last column; otherwise the pulse ends at the next call
  (`CrtcPulses.ZeroWidthEndsAtOnce`, `CrtcPulses.PlainPulse`, `CrtcPulses.InterlacedPulse`, with an input for each).
- A CRTC reset leaves the end-of-frame latches as they are: one that comes past the second character of the picture's
  last line, or in the lines below it, is followed by a frame of at most R5 + 1 lines and the dummy raster, and by
  whole frames after that (`CrtcResets.ResetStartsFrame`, `CrtcResets.ResetShortensFrame`).
- A CPU reset sets neither I nor B, and does not forget that an interrupt was being entered
  (`CpuTicks.ResetFollowsVector`, `CpuTicks.ResetDuringEntry`): if a BRK comes before the next interrupt it pushes an
  address one short (`PendingEntry.PendingShowsExactly`). The first interrupt taken with B clear comes back with
  B set (`StackDiscipline.ReturnIsTransparent` gives the exact condition).
- Timer 1 with a latch of zero never fires, and timer 2, nominally one-shot, fires again every 65536 ticks
  (`Via.ZeroNeverFires`, `Via.Timer2GoesRound`).
- The carrier bit counter wraps at 2^32, after which a carrier is present with none counted
  (`CarrierLock.FullCounterWraps`; `CarrierLock.EveryRunLocks` says exactly when).

## Model

| member | source | states |
|---|---|---|
| Receiver.CharacterDelivered | libs/hardware/6850_ACIA/src/acia_6850.cpp:701-819 | from idle, any line that is low for half a bit and still low at the middle of the start bit delivers one character: its bits, parity and stop are the line's levels at exactly d/2 - 1 + d*k clocks after the start edge, and nothing sooner |
| Receiver.FrameDelivers | libs/hardware/6850_ACIA/src/acia_6850.cpp:701-819 | a well-formed frame in any of the eight formats and three divisors delivers its byte without an error flag and leaves the receiver idle |
| Receiver.FalseStartIsDeleted | libs/hardware/6850_ACIA/src/acia_6850.cpp:765-780 | a low pulse of fewer than d/2 clocks delivers nothing and returns the receiver to idle |
| Receiver.MarkIsIgnored | libs/hardware/6850_ACIA/src/acia_6850.cpp:750-764 | an idle receiver ignores any length of mark |
| BitRate.StreamDecodes | libs/hardware/6850_ACIA/src/acia_6850.cpp:750-819 | back-to-back frames whose bits last a constant number of clocks decode to their text whenever every sample point of the frame falls inside its own bit |
| BitRate.SlowReceiverTolerance | libs/hardware/6850_ACIA/src/acia_6850.cpp:750-819 | divided by 64 with 8N1, every byte stream decodes if and only if a bit lasts 61 to 67 clocks |
| BitRate.FastReceiverTolerance | libs/hardware/6850_ACIA/src/acia_6850.cpp:750-819 | divided by 16 with 8N1, every byte stream decodes if and only if a bit lasts 16 clocks |
| AciaChip.Acia.constructor | libs/hardware/6850_ACIA/src/acia_6850.cpp:118-165 | the power-on state: CTS high, waiting for a master reset |
| AciaChip.Acia.PerformMasterReset | libs/hardware/6850_ACIA/src/acia_6850.cpp:177-245 | a master reset clears both registers and every error, sets DCD to the carrier, and does not set TDRE |
| AciaChip.Acia.WriteCtl | libs/hardware/6850_ACIA/src/acia_6850.cpp:252-335 | a control write is a master reset, or is ignored until one, or selects divisor, format, transmitter and receive interrupt |
| AciaChip.Acia.ReadStatus | libs/hardware/6850_ACIA/src/acia_6850.cpp:373-396 | a status read puts the byte of `AciaStatus.StatusTells` on the bus, with TDRE hidden before the first reset, and takes the DCD clearing sequence to its second step |
| AciaChip.Acia.ReadRdr | libs/hardware/6850_ACIA/src/acia_6850.cpp:404-446 | a data read empties the RDR and its errors, moves a pending overrun into view, ends the DCD sequence if the carrier is back, and keeps IRQ for TDRE only if the RDR was full |
| AciaChip.Acia.WriteTdr | libs/hardware/6850_ACIA/src/acia_6850.cpp:459-485 | a write is accepted if and only if TDRE is set; it always drops IRQ |
| AciaChip.Acia.ShiftOutData | libs/hardware/6850_ACIA/src/acia_6850.cpp:532-595 | one shift puts out the start bit, the next data bit, the parity bit or a stop bit, by the transmitter state |
| AciaChip.Acia.TxClock | libs/hardware/6850_ACIA/src/acia_6850.cpp:688-699 | CTS high stops the divided transmit clock; every divisor-th clock shifts, or holds a break |
| AciaChip.Acia.RxReceiveStopBit | libs/hardware/6850_ACIA/src/acia_6850.cpp:722-748 | a character goes to an empty RDR with its error flags; onto a full one it only marks an overrun |
| AciaChip.Acia.RxClock | libs/hardware/6850_ACIA/src/acia_6850.cpp:750-819 | one receiver clock: start edge, confirmation at half a bit, samples at whole bits, nothing without a carrier |
| AciaChip.Acia.DropCarrier | libs/hardware/6850_ACIA/src/acia_6850.cpp:605-635 | a drop empties the RDR, idles the receiver, latches DCD and interrupts if enabled |
| AciaChip.Acia.ApplyCarrier | libs/hardware/6850_ACIA/src/acia_6850.cpp:597-603 | a carrier sets DCD unless a clearing sequence is under way |
| AciaChip.Acia.ClearCts | libs/hardware/6850_ACIA/src/acia_6850.cpp:648-657 | CTS low shows TDRE if the TDR is empty |
| AciaChip.Acia.RaiseCts | libs/hardware/6850_ACIA/src/acia_6850.cpp:659-663 | CTS high inhibits TDRE |
| AciaRuns.EveryRunIsConsistent | libs/hardware/6850_ACIA/src/acia_6850.cpp:118-850 | over every run of bus, clock, CTS and carrier events: IRQ bit = IRQ line, RDRF = RDR full, CTS bit = CTS, TDRE implies CTS low and TDR empty and reset released, FE or PE implies RDRF, pending overrun implies RDR full, 1 <= transmit ticks <= divisor, no carrier implies an idle receiver |
| AciaRuns.StepKeepsConsistent | libs/hardware/6850_ACIA/src/acia_6850.cpp:252-850 | each single event keeps all of that |
| AciaRuns.UnreadCharacterStays | libs/hardware/6850_ACIA/src/acia_6850.cpp:722-748 | no run overwrites an unread character or its error flags, short of a data read, a drop of the carrier or a master reset |
| AciaRuns.ReceiveInterruptLostExactly | libs/hardware/6850_ACIA/src/acia_6850.cpp:459-485 | a full RDR with receive interrupts enabled keeps IRQ asserted, with one exception: an accepted TDR write drops it |
| AciaRuns.TransmitInterruptLostExactly | libs/hardware/6850_ACIA/src/acia_6850.cpp:404-438 | an empty TDR with transmit interrupts enabled keeps IRQ asserted, with two exceptions: reading an empty RDR, and a master reset |
| AciaRuns.ReceiveInterruptCanBeLost | libs/hardware/6850_ACIA/src/acia_6850.cpp:459-485 | a run from power-on that receives a character, after which any byte written drops its standing interrupt |
| AciaRuns.TransmitInterruptCanBeLost | libs/hardware/6850_ACIA/src/acia_6850.cpp:404-438 | a run from power-on to a standing transmit interrupt that a data read drops, and a master reset drops |
| AciaRuns.DcdNeedsAcknowledging | libs/hardware/6850_ACIA/src/acia_6850.cpp:394-421 | in any run, after its last drop of the carrier and with no master reset since: DCD is clear if and only if the first data read after the first status read found the carrier present |
| AciaRuns.EarlyAcknowledgementSticks | libs/hardware/6850_ACIA/src/acia_6850.cpp:597-635 | if the first data read after the first status read comes before the carrier is back, however far apart the reads are, DCD stays set through every run until the next drop or reset |
| AciaStatus.StatusTells | libs/hardware/6850_ACIA/src/acia_6850.cpp:373-396 | the byte that a status read puts on the bus after any run from power-on, bit by bit: below 256; bit 0 a received character waits, and its byte is in the RDR; bit 4 its stop bit was low, bit 6 its parity was wrong; bit 5 a character was lost behind the one read last; bit 1 CTS low, TDR empty, reset released and TDRE not stuck; bit 2 the four-state story of carriers found, lost and acknowledged; bit 3 CTS; bit 7 the IRQ line |
| AciaStatus.InterruptMoves | libs/hardware/6850_ACIA/src/acia_6850.cpp:674-686 | IRQ is asserted after any event if and only if the event causes it (TDRE or RDRF rises or the carrier goes with its interrupt enabled, a full RDR is read with TDRE standing, or a control byte enables what stands) or it was asserted and the event is not a data read, an accepted data write or a master reset |
| AciaStatus.ResetStops | libs/hardware/6850_ACIA/src/acia_6850.cpp:177-245 | after any run a master reset leaves both halves idle and both registers empty, IRQ released and RTS raised; format and pins stay |
| AciaStatus.StuckRefusesWrites | libs/hardware/6850_ACIA/src/acia_6850.cpp:459-485 | while TDRE is stuck a data write changes nothing, and it is still stuck |
| AciaStatus.ResetCanStick | libs/hardware/6850_ACIA/src/acia_6850.cpp:177-245 | two runs from power-on that end so: CTS low before the first reset, and a reset with a byte in the TDR |
| AciaStatus.ControlSelects | libs/hardware/6850_ACIA/src/acia_6850.cpp:306-326 | what each bit of a control byte selects: divisor, word length, parity, stop bits, both interrupts, RTS and break |
| AciaStatus.BreakLingers | libs/hardware/6850_ACIA/src/acia_6850.cpp:252-303 | after a break of an idle transmitter has been ended the pin stays low through any clocks, reads and changes of CTS, until something is written to be sent |
| AciaStatus.BreakHolds | libs/hardware/6850_ACIA/src/acia_6850.cpp:688-699 | while a break stands the end of every bit time leaves the pin low, and transmitter and TDR as they were |
| TransmitLedger.NothingIsLostOrDuplicated | libs/hardware/6850_ACIA/src/acia_6850.cpp:459-595 | in every run without a master reset, whatever CTS does, bytes accepted = bytes fully sent, then the byte in the shift register, then the byte in the TDR |
| TransmitLedger.EveryRunBalances | libs/hardware/6850_ACIA/src/acia_6850.cpp:459-595 | whatever run from power-on came before, once it has left the transmitter idle and the TDR empty, the books kept from there balance in every run without a master reset |
| TransmitClock.TransmitterClocked | libs/hardware/2C198_sULA/src/2c198_sula.cc:178-186 | over any run of 16MHz edges, ACIA accesses and tapes between SCR writes, the ACIA's transmitter is clocked exactly floor(edges / (13 * 19200 / baud)) times, in cassette and RS423 mode alike, with the baud rate of the SCR's low bits as the comment above the table lists it |
| TransmitClock.BaudIsKept | libs/hardware/2C198_sULA/src/2c198_sula.cc:48-108 | with the ACIA dividing by 64, a second's bits take sixteen million edges to within a fifth of a percent, at all eight rates |
| TransmitClock.SessionIsEvents | libs/hardware/2C198_sULA/src/2c198_sula.cc:101-220 | whatever edges, SCR writes, accesses and tapes a session has, the serial ULA acts on the ACIA by an explicit sequence of its events |
| TransmitClock.SessionBalances | libs/hardware/2C198_sULA/src/2c198_sula.cc:101-186 | so no session without a master reset loses or repeats a byte: accepted = sent, then the shift register, then the TDR |
| TransmitDeadline.SentOnTime | libs/hardware/2C198_sULA/src/2c198_sula.cc:178-186 | to the edge: with CTS low, no break and neither the SCR nor the control register written, the first m bytes accepted have been sent if and only if a stated number of edges, from the divider, the bit clock, the shifts left and the bytes before, have gone by |
| TransmitDeadline.AcceptedIsSent | libs/hardware/2C198_sULA/src/2c198_sula.cc:178-186 | in cassette mode every byte that the TDR has accepted is fully sent within (2F - 1) * divisor * 13 * 19200/baud edges, F being 2 + word length + parity + stop bits |
| TransmitDeadline.Rs423SendsNothing | libs/hardware/6850_ACIA/src/acia_6850.cpp:688-699 | with RS423 selected CTS is high and no byte is ever sent |
| TransmitDeadline.WordCutShort | libs/hardware/6850_ACIA/src/acia_6850.cpp:532-580 | the input: a control byte that selects seven bits when just seven of eight have been sent makes the byte go on for 256 more bit times |
| ReceiveClock.ReceiverClocked | libs/hardware/2C198_sULA/src/2c198_sula.cc:188-220 | between SCR writes the receive divider runs out exactly once in 832 edges in cassette mode, whatever bits 3 to 5 select, and by bits 3 to 5 with RS423; it clocks the receiver in cassette mode with a port there, and otherwise never |
| ReceiveClock.Rs423LeavesTheTape | libs/hardware/2C198_sULA/src/2c198_sula.cc:178-198 | with RS423 selected the tape neither plays nor records |
| SerialLink.LinkDelivers | libs/hardware/6850_ACIA/src/acia_6850.cpp:532-819 | two chips on one line in one mode: every run keeps the receiver exactly at the transmitter's bit and clock |
| SerialLink.WhatIsSentArrives | libs/hardware/6850_ACIA/src/acia_6850.cpp:459-819 | for all eight formats and divisors 1, 16 and 64: character i received is byte i accepted modulo 2^word length, with no parity or framing error, and at most two bytes are on their way |
| TapeStreams.UefTapeStream.BuildSegments | libs/hardware/Cassette/src/uef_tape_stream.cpp:40-83 | the segments are those of the chunks in order, none of them empty |
| TapeStreams.UefTapeStream.NextBit | libs/hardware/Cassette/src/uef_tape_stream.cpp:101-134 | the (segment, bit) cursor is an index into the flat bit sequence: each call returns the bit at it and steps it by one, at_carrier is the carrier flag of the last bit returned, and past the end there is mark without carrier |
| TapeStreams.UefTapeStream.EndIsTheLength | libs/hardware/Cassette/src/uef_tape_stream.cpp:97-134 | the tape is at its end exactly when as many bits have been returned as it has |
| TapeStreams.RawBytesTapeStream.NextBit | libs/hardware/Cassette/src/raw_bytes_tape_stream.cpp:14-32 | the serialiser returns the 8N1 frames of the bytes bit by bit, then mark |
| TapeStreams.RawBytesTapeStream.WriteBit | libs/hardware/Cassette/src/raw_bytes_tape_stream.cpp:34-55 | the recorder is the 8N1 decoder state machine |
| TapeStreams.FlatConcat | libs/hardware/Cassette/src/uef_tape_stream.cpp:40-83 | tapes laid end to end have their bits end to end |
| TapeStreams.RawBitAt | libs/hardware/Cassette/src/uef_tape_stream.cpp:26-38 | bit i of an explicit data block is bit i mod 8 of byte i/8, lowest first |
| TapeText.RecorderHearsTheText | libs/hardware/Cassette/src/raw_bytes_tape_stream.cpp:34-55 | a recorder fed every bit of a tape of tones, data and gaps has recorded exactly the data bytes |
| TapeRecording.RecordedUndivided | libs/hardware/Cassette/src/raw_bytes_tape_stream.cpp:34-55 | what a raw tape in the port records while the CPU sends with the clock undivided: of every byte, in order, the eight levels after its start bit, as soon as the ninth has passed |
| TapeRecording.UndividedIsSent | libs/hardware/Cassette/src/raw_bytes_tape_stream.cpp:34-55 | so between bytes the bytes recorded are the bytes sent if and only if the word has eight bits or in each byte sent the number of ones is odd or even as the parity is |
| TapeRecording.DividedIsNotSent | libs/hardware/Cassette/src/raw_bytes_tape_stream.cpp:34-55 | divided by 16 or 64 at least two bytes are recorded for each byte sent, and what is recorded is what has been sent if and only if no start bit has yet been heard ten times |
| RawLoading.RawPlaysAsSamples | libs/hardware/Cassette/src/raw_bytes_tape_stream.cpp:6-32 | over any session a raw tape plays as the tape of samples would that has its bits, with a carrier on all but the last |
| RawLoading.RawTapeDelivers | libs/hardware/Cassette/src/raw_bytes_tape_stream.cpp:6-32 | a raw tape played to its end delivers exactly its bytes from the eleventh to the last but one |
| RawLoading.NothingMovesWithoutMotor | libs/hardware/Cassette/src/cassette_port.cpp:3-20 | with the motor off the port is at mark without a carrier, and neither plays nor records |
| SerialUlaChip.CassettePort.RxData | libs/hardware/Cassette/src/cassette_port.cpp:3-6 | with the motor off the port is at mark and the tape does not move |
| SerialUlaChip.SerialUla.WriteScr | libs/hardware/2C198_sULA/src/2c198_sula.cc:101-158 | a write to the SCR reloads both dividers, moves CTS and the motor, and a motor stopped in cassette mode drops carrier and count |
| SerialUlaChip.SerialUla.MaybeTxClockTick | libs/hardware/2C198_sULA/src/2c198_sula.cc:178-186 | the transmit divider runs out once a period (`TransmitClock.TransmitterClocked` counts it) and then clocks the ACIA in either mode and, in cassette mode with a port, records the pin |
| SerialUlaChip.SerialUla.MaybeRxClockTick | libs/hardware/2C198_sULA/src/2c198_sula.cc:188-220 | every 13*64 ticks clock the receiver in cassette mode; every divisor-th of those fetches a tape bit and moves the carrier lock |
| SerialUlaChip.SerialUla.UpdateCarrierLock | libs/hardware/2C198_sULA/src/2c198_sula.cc:201-216 | the lock applies with the hundredth carrier bit in a row and drops with the first bit without |
| SerialUlaChip.SerialUla.Tick16MHz | libs/hardware/2C198_sULA/src/2c198_sula.cc:43-46 | one 16MHz edge does both |
| CarrierLock.EveryRunLocks | libs/hardware/2C198_sULA/src/2c198_sula.cc:142-220 | in runs of any length of clock edges, SCR writes and ACIA accesses: a carrier is present exactly while at least a hundred carrier bits have been counted in a row, after every act, if and only if no act fetches a carrier bit with the 32-bit counter full |
| CarrierLock.FullCounterWraps | libs/hardware/2C198_sULA/src/2c198_sula.cc:201-206 | once the 32-bit counter is full the next carrier bit empties it with the carrier still present |
| CarrierLock.UnlockedReceiverIsIdle | libs/hardware/2C198_sULA/src/2c198_sula.cc:201-217 | in runs of any length that do not so overflow the counter, with fewer than a hundred carrier bits counted the ACIA's receiver is idle |
| TapeLoading.TapeDelivers | libs/hardware/2C198_sULA/src/2c198_sula.cc:188-220 | however many receiver clocks have passed, the characters delivered are a prefix of the tape's text, each without an error, and all of it once the tape has been played |
| CassetteLoad.RunPlaysTape | libs/hardware/2C198_sULA/src/2c198_sula.cc:178-220 | whatever the CPU does meanwhile, the 16MHz ticks of a run deliver what the receiver clocks among them play from the tape |
| CassetteLoad.RunAccounts | libs/hardware/6850_ACIA/src/acia_6850.cpp:404-446 | every character delivered has been read, waits in the RDR, or is counted as discarded by an overrun or a drop of the carrier |
| CassetteLoad.BytesOnTapeAreBytesRead | libs/hardware/2C198_sULA/src/2c198_sula.cc:188-220 | whatever the CPU does, for every tape of carrier, data and gaps with leaders: what it has read, with what waits in the RDR, is a prefix of the tape's bytes with no error while no byte has been discarded, and once the tape has been played it is all of them if and only if none has been |
| TapeTrails.LingersBeforeDrop | libs/hardware/2C198_sULA/src/2c198_sula.cc:188-220 | on a tape that leaves t carrier bits behind its data, no character comes within (t+1)d + 1 - d/2 clocks before a drop of the carrier |
| TapeTrails.OneInTenBits | libs/hardware/6850_ACIA/src/acia_6850.cpp:701-819 | on every loadable tape any 10d clocks deliver at most one character |
| CassetteWindow.TimelyReadsLoadTheTape | libs/hardware/2C198_sULA/src/2c198_sula.cc:188-220 | end to end, over the CPU's schedule: on every tape with leaders that leaves t carrier bits behind its data, a CPU that reads the RDR at least once in every window of 832 * min(10d, td + d/2 + 1) ticks loses nothing, sees no overrun, and has read exactly the tape's bytes once it has been played |
| CassetteWindow.AnyTapeLoads | libs/hardware/2C198_sULA/src/2c198_sula.cc:188-220 | on every tape with leaders at all, divided by 16 or 64, windows of half a bit and a clock are short enough |
| CassetteWindow.WindowIsExact | libs/hardware/2C198_sULA/src/2c198_sula.cc:188-220 | in all three divisions and for every t: a window is safe for all such tapes, sessions and schedules if and only if it is no wider than that |
| CassetteWindow.LateReadsLose | libs/hardware/6850_ACIA/src/acia_6850.cpp:605-635 | the input: a tape and a schedule that reads within any wider window and loses a byte, to the drop of the carrier or to the next byte |
| CassetteWindow.PatienceIs | libs/hardware/6850_ACIA/src/acia_6850.cpp:701-819 | in clocks: td + d/2 + 1 for fewer than ten trailing carrier bits, 10d from ten on |
| CassetteTiming.PollingPreventsOverrun | libs/hardware/6850_ACIA/src/acia_6850.cpp:722-748 | a CPU that reads the RDR in every window of less than 9.5 bit times never overruns it, on any tape |
| CassetteTiming.StartingTheMotorIsReady | libs/hardware/2C198_sULA/src/2c198_sula.cc:101-158 | the usual start (master reset, control byte, SCR write) reaches the state that the end-to-end results begin from |
| CassetteTiming.ShortLeaderLosesTheByte | libs/hardware/2C198_sULA/src/2c198_sula.cc:201-210 | behind any leader of fewer than ninety-nine bits the byte FF is lost |
| CassetteTiming.LeaderThreshold | libs/hardware/2C198_sULA/src/2c198_sula.cc:201-210 | that byte is read if and only if the leader has ninety-nine bits or more |
| TapeLeaders.TapeIsReadExactly | libs/hardware/2C198_sULA/src/2c198_sula.cc:188-220 | for every tape of tones, framed data and gaps, however far beyond its end it is played: what is received is exactly its text if and only if every block of data follows at least ninety-nine carrier bits |
| TapeLeaders.LateIsLost | libs/hardware/6850_ACIA/src/acia_6850.cpp:750-819 | a byte whose character started late, within its frame, is never followed by what would make the tape come out right |
| CrtcChip.Crtc.Write | libs/hardware/6845_CRTC/src/6845_crtc.cpp:155-314 | a register write keeps every register within its width; R8's skew also enables or blanks the display |
| CrtcChip.Crtc.DoReset | libs/hardware/6845_CRTC/src/6845_crtc.cpp:319-334 | a reset clears the counters and opens a frame; the end-of-frame latches are not among what it clears |
| CrtcChip.Crtc.HandleVsync | libs/hardware/6845_CRTC/src/6845_crtc.cpp:670-698 | the vertical pulse and its interrupt start and end at whatever character they are due |
| CrtcChip.Crtc.HandleEndOfScanLine | libs/hardware/6845_CRTC/src/6845_crtc.cpp:515-613 | the end of a line: raster, row, the latches of vertical adjust and of the dummy raster, and the end of the frame |
| CrtcChip.Crtc.HandleEndOfFrame | libs/hardware/6845_CRTC/src/6845_crtc.cpp:489-504 | the start address is taken up again, and a dummy raster decided earlier is forgotten outside vertical sync |
| CrtcChip.Crtc.LatchAddress | libs/hardware/6845_CRTC/src/6845_crtc.cpp:391-442 | the address put out: teletext, wrapped by the hardware scroll bits, or plain |
| CrtcChip.Crtc.GenerateNextAddress | libs/hardware/6845_CRTC/src/6845_crtc.cpp:623-792 | the whole call: counters, address of the next place, both pulses and display enable, of which `CrtcFrames`, `CrtcDisplay`, `CrtcPulses` and `CrtcRows` prove the closed forms |
| CrtcFrames.CountersMove | libs/hardware/6845_CRTC/src/6845_crtc.cpp:515-613 | each call moves the beam to the next place of the frame, with every delayed latch in the state that place requires |
| CrtcFrames.PlaceMoves | libs/hardware/6845_CRTC/src/6845_crtc.cpp:515-613 | the places of a frame are ranked by the number of calls that reach them, from 0 to the frame's length |
| CrtcFrames.PlacesDiffer | libs/hardware/6845_CRTC/src/6845_crtc.cpp:623-792 | two places with one rank are one place |
| CrtcFrames.CharacterAt | libs/hardware/6845_CRTC/src/6845_crtc.cpp:623-792 | the closed form: (r(R9+1)+k)(R0+1)+c calls after a frame's start the counters are at character c of raster k of row r, the linear address is (R12/13 + r*R1 + c) mod 2^14 and its byte's address is on the bus |
| CrtcFrames.FrameTakes | libs/hardware/6845_CRTC/src/6845_crtc.cpp:515-613 | a frame takes exactly its number of calls: that many reach the next start and no fewer do, from either field and with the display lit or not |
| CrtcFrames.FrameCallsIs | libs/hardware/6845_CRTC/src/6845_crtc.cpp:515-613 | which is ((R4+1)(R9+1)+R5)(R0+1), and one line more with a dummy raster |
| CrtcFrames.FramesAreEven | libs/hardware/6845_CRTC/src/6845_crtc.cpp:515-613 | with R8 bit 0 clear every frame of an unbounded run has that length |
| CrtcFrames.FramesPairUp | libs/hardware/6845_CRTC/src/6845_crtc.cpp:515-613 | in mode 1 with 1 <= R6 <= R4, any two consecutive frames of an unbounded run total exactly one scan line more than twice that, and the frame count moves on by two |
| CrtcFrames.FieldCallMoves | libs/hardware/6845_CRTC/src/6845_crtc.cpp:770-788 | the frame count moves exactly once a frame, where R6 is met, and decides the dummy raster from there to the frame's end |
| CrtcFrames.EveryFrameBegins | libs/hardware/6845_CRTC/src/6845_crtc.cpp:489-613 | where each frame of an unbounded run starts, whatever the interlace, and that all but the first begin with their first character's address on the bus |
| CrtcDisplay.DisplayEnabledAt | libs/hardware/6845_CRTC/src/6845_crtc.cpp:633-654 | beside `CharacterAt`: in every frame but the first of an unbounded run, while character c of raster k of row r is addressed, all six display bits are set if and only if R8 does not blank the display, r is above R6 (or the line is the first, or R6 = R9 = 0), k is in 0-7 or 16-23, and c is past the skew and not past R1 plus the skew, or R1 plus the skew exceeds R0 |
| CrtcDisplay.LineIsOpen | libs/hardware/6845_CRTC/src/6845_crtc.cpp:633-654 | the two bits across a line by its column alone, for any frame and any R1 |
| CrtcDisplay.SyncFollowsR2 | libs/hardware/6845_CRTC/src/6845_crtc.cpp:661-664 | from any state, with R2 <= R0 and R3 <= R0 + 1: after 17 + R0 calls HSYNC is on exactly at the R3 characters (sixteen for zero) that follow R2, for ever |
| CrtcDisplay.SyncLasts | libs/hardware/6845_CRTC/src/6845_crtc.cpp:472-479 | a pulse once raised lasts exactly R3 calls, however short the line, and ends unless the beam is at R2 again |
| CrtcDisplay.NoSync | libs/hardware/6845_CRTC/src/6845_crtc.cpp:661-664 | with R2 past R0, HSYNC goes off within sixteen calls and never comes on |
| CrtcRegisters.RegistersHold | libs/hardware/6845_CRTC/src/6845_crtc.cpp:155-314 | after any run of writes from power-on each register holds its bits of the last byte written to it, R12 and R13 one 14-bit address, and R3 and R8 the last width and skew that were not to be ignored |
| CrtcRows.SyncOnceAFrame | libs/hardware/6845_CRTC/src/6845_crtc.cpp:670-690 | without interlace, from a row R7 that begins with no pulse on: its first call raises one, and no call raises another until the beam is back there |
| CrtcRows.RowForgets | libs/hardware/6845_CRTC/src/6845_crtc.cpp:506-513 | every row begins with its pulse still to come |
| CrtcRows.OnePulseARow | libs/hardware/6845_CRTC/src/6845_crtc.cpp:679-690 | after a pulse in a row no other is raised before the row ends, in any mode |
| CrtcRows.RowsInTwos | libs/hardware/6845_CRTC/src/6845_crtc.cpp:535-541 | with R8 at 3, in the picture: a row shows every other raster and has R9/2 + 1 lines if R9 is even; if R9 is odd it never ends |
| CrtcRows.ResetRestartsPulses | libs/hardware/6845_CRTC/src/6845_crtc.cpp:319-334 | a reset leaves a pulse on and starts its length again |
| CrtcRows.NewFrameIsNotDue | libs/hardware/6845_CRTC/src/6845_crtc.cpp:489-504 | a frame begins with no dummy raster due unless one was and the vertical pulse is on, or row 0 is R6's or R7's |
| CrtcResets.ResetStartsFrame | libs/hardware/6845_CRTC/src/6845_crtc.cpp:319-334 | wherever in a frame a reset comes (R4, R9 >= 1): the next frame opens after exactly a whole frame's calls, and none sooner, if and only if the reset comes in the picture and not past the second character of its last line |
| CrtcResets.ResetShortensFrame | libs/hardware/6845_CRTC/src/6845_crtc.cpp:319-334 | everywhere else the next frame opens after exactly R5+1 lines (R5, but at least one, if the reset came at a line's third character; one if the end of vertical adjust was latched as well, or in the dummy raster), and the dummy raster more if one was still due; from there on frames are whole |
| CrtcPulses.PlainPulse | libs/hardware/6845_CRTC/src/6845_crtc.cpp:670-698 | without interlace a vertical sync pulse raised at a column lasts, with its interrupt, to the start of the line R3 lines on; for a width of zero that is one call, or sixteen lines if it was raised at a line's last column |
| CrtcPulses.InterlacedPulse | libs/hardware/6845_CRTC/src/6845_crtc.cpp:670-698 | in an interlaced frame of either parity with R6 <= R7 <= R4: the pulse is raised in row R7's first line, in its middle in an even frame and at its start in an odd one, and lasts exactly R3 lines; for a width of zero, sixteen lines in an even frame and one call in an odd one |
| CrtcPulses.ZeroWidthEndsAtOnce | libs/hardware/6845_CRTC/src/6845_crtc.cpp:670-698 | a pulse of width zero ends at the call after the one that raises it if and only if that was not at the last column and, should the frame count come out odd in an interlaced mode, the next column is the line's middle |
| CrtcPulses.OneCallPulse | libs/hardware/6845_CRTC/src/6845_crtc.cpp:670-698 | the input: a chip just reset that gives it for one call |
| CrtcPulses.SixteenLinePulse | libs/hardware/6845_CRTC/src/6845_crtc.cpp:670-698 | the input: a chip just reset, its frame count odd, that gives it for sixteen lines |
| ScreenMemory.FetchIsARing | libs/hardware/6845_CRTC/src/6845_crtc.cpp:391-442 | for the four screen sizes and any start inside the screen, the byte fetched a distance on is at that distance modulo the screen's size |
| ScreenMemory.RingIsOneToOne | libs/hardware/6845_CRTC/src/6845_crtc.cpp:391-442 | every byte of the screen is fetched at exactly one distance of less than the size |
| ScreenMemory.TeletextIsARing | libs/hardware/6845_CRTC/src/6845_crtc.cpp:391-442 | teletext addresses go round the kilobyte at 7C00 from any start in it, each byte at one distance, whatever raster and scroll |
| ScreenMemory.TeletextFetches | libs/hardware/6845_CRTC/src/6845_crtc.cpp:391-442 | every byte of that kilobyte is fetched |
| ScreenMemory.LowTeletext | libs/hardware/6845_CRTC/src/6845_crtc.cpp:391-442 | with address bit 11 clear they go round the kilobyte at 3C00 |
| ScreenMemory.ModesFit | libs/hardware/6845_CRTC/src/6845_crtc.cpp:391-442 | the screens of the seven graphics modes fit the sizes that the scroll bits select, to within half a kilobyte |
| ScreenMemory.ScreensAre | libs/hardware/6845_CRTC/src/6845_crtc.cpp:391-442 | the four settings put the screen at 4000, 6000, 3000 and 5800, up to 7FFF |
| ScreenMemory.NoByteFetchedTwice | libs/hardware/6845_CRTC/src/6845_crtc.cpp:391-442 | in every frame but the first of an unbounded run, if R6*R1*8 fits the screen, two different displayed places put out different addresses, all within the screen |
| CpuAlu.FlagsSurvive | libs/hardware/M6502/include/6502/m6502.h:78-117 | a pushed status register unpacks to the flags that were packed |
| CpuAlu.AddBinaryMeans | libs/hardware/M6502/src/cycle_handler.cpp:68-87 | result and carry are the sum, V is the overflow of the signed sum, N and Z the sign and zero of the result, and no other flag moves |
| CpuAlu.SubBinaryMeans | libs/hardware/M6502/src/cycle_handler.cpp:123-139 | result and borrow are the difference, V is the overflow of the signed difference, N and Z the sign and zero of the result, and no other flag moves |
| CpuAlu.AddDecimalMeans | libs/hardware/M6502/src/cycle_handler.cpp:31-63 | on packed decimal the result is packed decimal and, with the carry, the decimal sum |
| CpuAlu.SubDecimalMeans | libs/hardware/M6502/src/cycle_handler.cpp:89-121 | on packed decimal the result is packed decimal and, with the borrow, the decimal difference |
| CpuAlu.DecimalFlags | libs/hardware/M6502/src/cycle_handler.cpp:31-121 | decimal subtraction leaves every flag as binary subtraction does, for all operands; decimal addition takes Z from the binary sum and, on packed decimal, N and V from bit 3 of the decimal sum's tens |
| CpuAlu.ChainsAreArithmetic | libs/hardware/M6502/src/cycle_handler.cpp:31-139 | chained over n bytes, addition and subtraction are arithmetic modulo 256^n, or 100^n in decimal mode, with C as carry and not-borrow |
| CpuChip.M6502.DoAddDecimal | libs/hardware/M6502/src/cycle_handler.cpp:31-63 | A and the flags end as the decimal sum of AddDecimalMeans and DecimalFlags has them, X, Y, SP and PC untouched |
| CpuChip.M6502.DoSubDecimal | libs/hardware/M6502/src/cycle_handler.cpp:89-121 | A and the flags end as the decimal difference of SubDecimalMeans and DecimalFlags has them, X, Y, SP and PC untouched |
| CpuChip.M6502.DoAddBinary | libs/hardware/M6502/src/cycle_handler.cpp:68-87 | A and the flags end as the sum of AddBinaryMeans has them, X, Y, SP and PC untouched |
| CpuChip.M6502.DoSubBinary | libs/hardware/M6502/src/cycle_handler.cpp:123-139 | A and the flags end as the difference of SubBinaryMeans has them, X, Y, SP and PC untouched |
| CpuChip.M6502.DoCompare | libs/hardware/M6502/src/cycle_handler.cpp:18-26 | C says that the value is not above the register, Z that they are equal, N the sign of the difference |
| CpuAlu.ModifyMeans | libs/hardware/M6502/src/cycle_handler.cpp:162-197 | a left shift doubles and a right shift halves a byte, with the bit that falls out as the carry, N and Z the sign and zero of the result, and no other flag moves |
| CpuAlu.ShiftsAreArithmetic | libs/hardware/M6502/src/cycle_handler.cpp:162-197 | chained over n bytes with the carry rotated on, a left shift doubles an n-byte number modulo 256^n and a right shift halves it, with the bit that falls out as the last carry |
| Microcode.LogicIsBitwise | libs/hardware/M6502/src/cycle_handler.cpp:341-366 | AND, OR and EOR work on each bit of the operands by itself |
| CpuChip.M6502.ShiftBits | libs/hardware/M6502/src/cycle_handler.cpp:162-197 | twice the byte is the value and 256 times the carry of a left shift; the byte is twice the value and the carry of a right one; rotations take the old carry in |
| CpuChip.M6502.DoModify | libs/hardware/M6502/src/cycle_handler.cpp:162-197 | the same with the flags: value and new carry are twice the byte or its half, with N and Z from the value |
| CpuChip.M6502.Handle | libs/hardware/M6502/src/cycle_handler.cpp:261-3266 | every handler does to registers, temporary address and bus what its step says; what a whole instruction's handlers come to is `CpuCycles.HandlersRefine` and, instruction by instruction, `InstructionMeaning` |
| CpuChip.M6502.MaybeHandleReset | libs/hardware/M6502/src/m6502.cpp:35-85 | the reset sequence, tick by tick |
| CpuChip.M6502.MaybeHandleSync | libs/hardware/M6502/src/m6502.cpp:87-111 | at SYNC: an interrupt if the line is high and I clear, otherwise the opcode from the bus |
| CpuChip.M6502.Tick | libs/hardware/M6502/src/m6502.cpp:133-143 | one tick is the reset sequence, or the poll and the handler that the instruction register selects, and stops where there is none |
| Opcodes.Decode | libs/hardware/M6502/src/cycle_handler.cpp:261-3266 | an opcode that has handlers has those of the instruction which the hardware manual's scheme (aaabbbcc, columns by addressing mode) encodes so |
| Opcodes.EveryOpcodeDecodes | libs/hardware/M6502/src/cycle_handler.cpp:261-3266 | every instruction that the scheme gives an opcode has its handlers there: decoding is the inverse of encoding |
| CpuCycles.ReadRoute | libs/hardware/M6502/src/cycle_handler.cpp:331-362 | every addressing mode brings the operand at its effective address onto the bus, with zero-page wrap, page crossing and its cycles |
| CpuCycles.StoreRoute | libs/hardware/M6502/src/cycle_handler.cpp:1962-1990 | every addressing mode stores at its effective address, without the short cut |
| CpuCycles.ChangeEnds | libs/hardware/M6502/src/cycle_handler.cpp:374-393 | read-modify-write writes the old value back, then the new one; within a page the indexed form is a cycle shorter |
| CpuCycles.BranchEnds | libs/hardware/M6502/src/cycle_handler.cpp:228-259 | a branch not taken, taken within the page and across it take 2, 3 and 4 cycles and end at the target |
| CpuCycles.JumpIndirectEnds | libs/hardware/M6502/src/cycle_handler.cpp:1547-1569 | JMP (ind) takes its high byte from within the pointer's page |
| CpuCycles.JsrEnds | libs/hardware/M6502/src/cycle_handler.cpp:663-686 | JSR reads the high byte of its target after the return address has been pushed |
| CpuCycles.HandlersRefine | libs/hardware/M6502/src/cycle_handler.cpp:261-3266 | the refinement: for every register state and memory, a documented opcode's handlers reach the next SYNC with exactly the registers, flags and memory of its instruction, whose meaning `InstructionMeaning` gives, and after exactly its cycles |
| CpuCycles.SevenCycles | libs/hardware/M6502/src/cycle_handler.cpp:261-3266 | which are at least two and at most seven |
| InstructionMeaning.LoadsTakeTheOperand | libs/hardware/M6502/src/cycle_handler.cpp:2185-2195 | LDA, LDX, LDY leave the operand in their register with N its bit 7 and Z its zero; nothing else moves |
| InstructionMeaning.TransfersCopy | libs/hardware/M6502/src/cycle_handler.cpp:2213-2248 | TAX, TAY, TXA, TYA, TSX, TXS leave the source's value in the target, N and Z following it but for TXS; nothing else moves |
| InstructionMeaning.StoresPutTheRegister | libs/hardware/M6502/src/cycle_handler.cpp:1833-1860 | STA, STX, STY put A, X, Y in the one cell at the effective address, if it is RAM; no flag and no other register or cell moves |
| InstructionMeaning.CountingAdds | libs/hardware/M6502/src/cycle_handler.cpp:2993-3003 | n INX or INY add n to X or Y modulo 256 and n DEX or DEY take n off, with N and Z of the sum |
| InstructionMeaning.CountingUndone | libs/hardware/M6502/src/cycle_handler.cpp:2640-2656 | n of the one undo n of the other |
| InstructionMeaning.FlagsMoveAlone | libs/hardware/M6502/src/cycle_handler.cpp:569-580 | CLC, SEC, CLI, SEI, CLD, SED, CLV set or clear exactly bit 0, 2, 3 or 6 of the packed status; no other bit, register or cell moves |
| InstructionMeaning.NopMovesOn | libs/hardware/M6502/src/cycle_handler.cpp:3016-3025 | NOP moves only the program counter |
| InstructionMeaning.LogicWorksOnBits | libs/hardware/M6502/src/cycle_handler.cpp:341-366 | ORA, AND, EOR work on each bit of A and the operand by itself, with N and Z of the result |
| InstructionMeaning.BitTests | libs/hardware/M6502/src/cycle_handler.cpp:205-210 | BIT shows bits 7 and 6 of the operand as N and V, and in Z that A has no bit in common with it |
| InstructionMeaning.ComparesAsSubtraction | libs/hardware/M6502/src/cycle_handler.cpp:18-26 | CMP, CPX, CPY leave C, Z and N as SBC with the carry set would, V and the register as they were |
| InstructionMeaning.AddsBinary | libs/hardware/M6502/src/cycle_handler.cpp:68-87 | ADC in binary mode: sum and carry, signed overflow in V, N and Z of the sum, nothing else |
| InstructionMeaning.SubtractsBinary | libs/hardware/M6502/src/cycle_handler.cpp:123-139 | SBC likewise |
| InstructionMeaning.WorksInDecimal | libs/hardware/M6502/src/cycle_handler.cpp:31-121 | ADC and SBC in decimal mode on packed digits: the two-digit result and the hundred carried or borrowed |
| InstructionMeaning.ShiftsAndSteps | libs/hardware/M6502/src/cycle_handler.cpp:162-197 | ASL, LSR, ROL, ROR, INC, DEC on A or the one cell: doubled, halved or stepped, with the carry in and out, N and Z |
| InstructionMeaning.BranchesOnItsBit | libs/hardware/M6502/src/cycle_handler.cpp:228-259 | a branch is taken if and only if bit 7, 6, 0 or 1 of the packed status has its sense, to PC + 2 plus the offset's signed value, in 2, 3 or 4 cycles |
| InstructionMeaning.PushesOneByte | libs/hardware/M6502/src/cycle_handler.cpp:1140-1155 | PHA and PHP write A, or the status with bit 5 set, in the one cell at the stack pointer, which moves down |
| InstructionMeaning.PullsOneByte | libs/hardware/M6502/src/cycle_handler.cpp:1503-1525 | PLA loads A with N and Z; PLP loads the status with bit 4 set and bit 5 clear |
| InstructionMeaning.BreaksAndInterrupts | libs/hardware/M6502/src/cycle_handler.cpp:265-325 | BRK pushes PC + 2 and the status with bit 5 set, an interrupt PC and the status with bit 4 clear; both set I and B and follow FFFE |
| InstructionMeaning.JumpsToTheWord | libs/hardware/M6502/src/cycle_handler.cpp:1547-1569 | JMP's target is the operand word, or the word there with its high byte from the same page |
| CpuCycles.InterruptEnds | libs/hardware/M6502/src/cycle_handler.cpp:265-325 | the break handlers entered for an interrupt push PC and the flags with B clear, set I and follow FFFE in seven cycles |
| CpuTicks.InstructionTicks | libs/hardware/M6502/src/m6502.cpp:87-143 | tick by tick from SYNC: that instruction, in those cycles, with no SYNC between, whatever the interrupt line does meanwhile |
| CpuTicks.InterruptTicks | libs/hardware/M6502/src/m6502.cpp:87-98 | at SYNC with the line high and I clear: the interrupt, in seven ticks |
| CpuTicks.RunsRefine | libs/hardware/M6502/src/m6502.cpp:87-143 | for any number of instructions and interrupts and any behaviour of the line, the ticks add up to the run of the instructions, two to seven for each; interrupts are entered only with I clear |
| CpuTicks.UndocumentedHalts | libs/hardware/M6502/src/m6502.cpp:113-126 | an opcode without handlers stops the machine |
| CpuTicks.ResetFollowsVector | libs/hardware/M6502/src/m6502.cpp:35-85 | seven ticks after the reset line rises PC is the word at FFFC, SP is FD, every flag is as it was, and the processor is between instructions if and only if no interrupt was being entered |
| CpuTicks.ResetThenRuns | libs/hardware/M6502/src/m6502.cpp:35-143 | from reset on, the ticks add up to the vector and then the run of any number of instructions and interrupts |
| CpuTicks.ResetDuringEntry | libs/hardware/M6502/src/m6502.cpp:35-98 | the input for the other case: a reset in the tick after an interrupt has been taken |
| PendingEntry.ResetThenPending | libs/hardware/M6502/src/m6502.cpp:35-143 | after such a reset the ticks add up to the vector and a run with the entry pending |
| PendingEntry.BreakWithEntry | libs/hardware/M6502/src/cycle_handler.cpp:265-325 | what is pending: a BRK takes itself for the interrupt and pushes an address one short |
| PendingEntry.PendingShowsExactly | libs/hardware/M6502/src/m6502.cpp:35-143 | such a run is where the run without it is, step after step, if and only if no BRK comes before the first interrupt |
| StackDiscipline.ReturnIsTransparent | libs/hardware/M6502/src/cycle_handler.cpp:1055-1075 | RTI from a handler that has put A, X, Y and the stack back restores every register and flag if and only if B was set and X clear before the interrupt |
| StackDiscipline.EntryAndReturn | libs/hardware/M6502/src/cycle_handler.cpp:265-325 | entry and RTI alone change no memory but three bytes below the stack pointer |
| StackDiscipline.CallsNest | libs/hardware/M6502/src/cycle_handler.cpp:663-686 | n nested JSRs and then n RTSs return past the first call with every other register as it was, for n up to 128 |
| StackDiscipline.CallsWriteBelow | libs/hardware/M6502/src/cycle_handler.cpp:663-686 | n nested calls write only the 2n bytes below the stack pointer, round the stack page |
| ClockChip.Clock.DoTick | libs/core/src/clock.cpp:30-50 | the dividers, and the processor's line held back by the stretch sequence, read from its end |
| ClockChip.Clock.Stretch | libs/core/src/clock.cpp:18-28 | three halves in phase, five out of phase |
| Clocks.TickIsSound | libs/core/src/clock.cpp:30-50 | in every run what is left of a stretch tells the phase and the level of the processor's line, which rises only half way through the sixteen ticks |
| Clocks.OtherLinesRunFree | libs/core/src/clock.cpp:30-50 | from power-on, whatever is stretched and whenever, the 1, 2, 4, 8 and 16MHz lines are the bits of the number of ticks |
| Clocks.LinesAgree | libs/core/src/clock.cpp:30-50 | whenever no stretch is active the processor's line is the 2MHz line |
| Clocks.CycleLasts | libs/core/src/clock.cpp:18-50 | a cycle lasts 16 ticks, or stretched 32 in phase and 48 out of phase, with no edge between, and the cycle after a stretch begins in phase |
| Clocks.OneFallAStretch | libs/core/src/clock.cpp:18-50 | a stretched cycle sees exactly one falling edge of the 1MHz line, at its eighth or 24th tick |
| BeebBoard.Beeb.DoTick | libs/beeb/src/beeb.cpp:241-307 | one tick of the board: clock, processor edge, memory edge, 1MHz devices, in that order |
| BeebBoard.Beeb.TickCpu | libs/beeb/src/beeb.cpp:247-258 | at its edge the processor sees the cached interrupt, ticks, and starts a stretch if its new address is slow |
| Board.CycleIsExact | libs/beeb/src/beeb.cpp:241-307 | the ticks of a cycle make its access once and tick the processor once |
| Board.EveryRunIsSound | libs/core/src/clock.cpp:30-50 | from power-on, whatever is stretched, the clock keeps phase and levels as the stretch sequence says |
| Board.DeviceHearsOnce | libs/beeb/src/beeb.cpp:283-307 | a cycle's request reaches its device at exactly one tick, and no device hears of a cycle that is not for one |
| Board.OneDeviceAnswers | libs/beeb/src/beeb.cpp:214-239 | an address is a device's if and only if it lies in one of the six register windows, and then in no other |
| Board.PagesAre | libs/beeb/src/beeb.cpp:208-228 | pages FC, FD and FE are neither memory nor ROM; an access is stretched exactly in FC, in FD and at a device |
| Board.EveryRunIsExact | libs/beeb/src/beeb.cpp:214-307 | in every run of m cycles, 16m to 48m ticks long, what the devices have heard is the processor's requests, each once and in order |
| BeebBoard.ExecutionEngine.TickOneInstruction | libs/beeb/src/execution_engine.cpp:8-18 | both loops end; the board is where the two loops as functions say |
| Stepping.StepEnds | libs/beeb/src/execution_engine.cpp:8-18 | from the fetch of any opcode a step ends within 7*48 ticks, at the next fetch or stopped by an undocumented opcode |
| Stepping.StepExecutes | libs/beeb/src/execution_engine.cpp:8-18 | where no interrupt displaces the instruction, a step executes exactly it, device accesses included: its registers and flags, its memory with the devices' answers in the pages of the 1MHz bus, in exactly its cycles |
| Stepping.SomeOverlayReplies | libs/beeb/src/beeb.cpp:258-307 | such answers are a memory whenever no address outside memory is read twice in the instruction with different answers |
| Stepping.ProgramEnds | libs/hardware/M6502/src/cycle_handler.cpp:261-3266 | every instruction's handlers end in one that fetches, whatever is on the bus, and are at most seven |
| Crc.Checksum | libs/uef/src/crc-16-acorn.cc:54-63 | the table-driven loop computes the CRC of the bitwise algorithm over any part of a vector |
| Crc.EntryIsTurns | libs/uef/src/crc-16-acorn.cc:19-52 | each of the 256 entries of the table is eight turns of the algorithm's loop |
| Crc.StepByTable | libs/uef/src/crc-16-acorn.cc:9-17 | one byte by the table is the algorithm's eight turns, for every CRC and byte |
| Bursts.CrcIsFed | libs/uef/src/crc-16-acorn.cc:9-17 | the CRC taken a bit at a time |
| Bursts.BurstsAreCaught | libs/uef/src/crc-16-acorn.cc:54-63 | two strings of one length that differ only within sixteen consecutive bits have different CRCs |
| AcornBlocks.ReadBlock | libs/uef/src/acorn_block.cc:44-75 | the constructor, field by field: sync byte, name, addresses, lengths and the two CRC checks |
| AcornBlocks.ReadFileName | libs/uef/src/acorn_block.cc:14-27 | a name takes one character at least and ten at most, to a zero |
| AcornBlocks.ReadsBlock | libs/uef/src/acorn_block.cc:44-75 | a written block (one to ten non-zero name characters, any data) is read as it was, with the low halves of its addresses and its encoded length as size, wherever it stands and whatever follows |
| AcornBlocks.ReadsFramed | libs/uef/src/acorn_block.cc:44-75 | a block is accepted if and only if both CRCs are right, and the first wrong one is reported |
| AcornBlocks.DamageIsRefused | libs/uef/src/acorn_block.cc:66-74 | a block whose data has been changed within sixteen consecutive bits is refused |
| AcornBlocks.FirstErrors | libs/uef/src/acorn_block.cc:44-64 | a block is refused for its sync byte if and only if its first byte is not 2A, and for its name if and only if none of the ten bytes after the first character is zero |
| AcornBlocks.NamesAreStrings | libs/uef/src/acorn_block.cc:14-27 | every name read has at most ten characters and no zero among them, and is empty only where its first byte is zero |
| AcornBlocks.ReadsBlocks | libs/uef/src/uef_tape_loader.cc:7-27 | any list of written blocks followed by fewer than nineteen bytes is read as exactly that list |
| AcornBlocks.ParseBlocks | libs/uef/src/uef_tape_loader.cc:7-27 | the loop ends, since each block moves the index on, with the blocks up to the first that is short or wrong |
| AcornBlocks.LoadTape | libs/uef/src/uef_tape_loader.cc:29-53 | there is a file for exactly the names that blocks bear; its data are those of the name's blocks in order, its addresses those of the first |
| AcornBlocks.WrittenFilesReturn | libs/uef/src/uef_tape_loader.cc:29-53 | files written to tape as blocks come back with their data |
| Via.EveryRunIsConsistent | libs/hardware/6522_VIA/src/6522_via.cpp:521-544 | over every run of writes, reads, ticks and edges the cached line is (IFR & IER & 7F) != 0 and IFR bit 7 is set if and only if another is |
| Via.FlagsChangeOnlySo | libs/hardware/6522_VIA/src/6522_via.cpp:374-470 | a flag is set after an event if and only if the event raises it, or it was set and the event does not serve it |
| Via.WriteFlagsKeeps | libs/hardware/6522_VIA/src/6522_via.cpp:448-455 | a write to IFR clears exactly the flags whose bits are ones |
| Via.FlagNumbers | libs/hardware/6522_VIA/src/6522_via.cpp:448-455 | bits 6, 5, 4, 1 and 0 of that write are those of T1, T2, CB1, CA1 and CA2 |
| Via.ContinuousRuns | libs/hardware/6522_VIA/src/6522_via.cpp:546-562 | in continuous mode with latch N >= 1 timer 1 fires exactly floor(k/N) times in k ticks |
| Via.OneShotRuns | libs/hardware/6522_VIA/src/6522_via.cpp:546-562 | in one-shot mode it fires once, after N ticks |
| Via.ZeroNeverFires | libs/hardware/6522_VIA/src/6522_via.cpp:546-562 | with a latch of zero timer 1 never fires |
| Via.Timer2GoesRound | libs/hardware/6522_VIA/src/6522_via.cpp:564-573 | timer 2 fires after its count, 65536 for zero, and again every 65536 ticks |
| Via.TimerOneFromBus | libs/hardware/6522_VIA/src/6522_via.cpp:399-405 | from the bus, after any run: low to T1L-L or T1C-L, high to T1C-H, then k ticks fire timer 1 exactly floor(k / (256*high + low)) times in continuous mode, once in one-shot mode and never for zero; the T1 flag goes up with the first; PB7, put out, toggles with each or goes up with the one |
| Via.TimerTwoFromBus | libs/hardware/6522_VIA/src/6522_via.cpp:564-573 | the same for T2C-L and T2C-H: first after 256*high + low ticks, 65536 for zero, then every 65536; counting pulses, it stands still |
| Via.LatchTakesOver | libs/hardware/6522_VIA/src/6522_via.cpp:546-562 | in continuous mode a latch written meanwhile takes over when the timer next fires |
| Via.LatchWritten | libs/hardware/6522_VIA/src/6522_via.cpp:374-398 | a write to either half of the latch leaves the counter and the other half |
| Via.TimersMoveOnlySo | libs/hardware/6522_VIA/src/6522_via.cpp:374-446 | between ticks only those writes move a timer, each its own half of its own timer |
| Via.EdgesAreOfTheLines | libs/hardware/6522_VIA/src/6522_via.cpp:575-595 | over any run CA1 and CB1 are raised exactly by the edges that the control selects between the levels last shown |
| Via.EnabledByLastWrite | libs/hardware/6522_VIA/src/6522_via.cpp:296-313 | after any run an interrupt is enabled if and only if the last write to IER that selected it had bit 7 set |
| ViaChip.Via6522.RaiseIrq | libs/hardware/6522_VIA/src/6522_via.cpp:525-532 | raising a flag that is not raised recomputes the cache |
| ViaChip.Via6522.ClearIrq | libs/hardware/6522_VIA/src/6522_via.cpp:534-540 | clearing the last flag clears bit 7 |
| ViaChip.Via6522.WriteInterruptFlags | libs/hardware/6522_VIA/src/6522_via.cpp:448-455 | the loop over the seven bits |
| ViaChip.Via6522.WriteIrqEnable | libs/hardware/6522_VIA/src/6522_via.cpp:296-313 | bit 7 says whether the ones enable or disable |
| ViaChip.Via6522.WriteTimer1CounterHigh | libs/hardware/6522_VIA/src/6522_via.cpp:399-405 | a write to T1C-H makes the byte the high half of latch and counter over the latch's low half, and serves the flag (`Via.TimerOneFromBus` times it) |
| ViaChip.Via6522.CheckTimers | libs/hardware/6522_VIA/src/6522_via.cpp:546-573 | one tick of both timers |
| ViaChip.Via6522.TickAll | libs/hardware/6522_VIA/src/6522_via.cpp:597-601 | timers, then CA1, then CA2 |

## Left out

- Windows, widgets, sound, the ADC, the video ULA's pixels, the CRT, the keyboard matrix, teletext, light pen, disassembler, breakpoints and watches: user interface, stubs or finite tables.
- Logging, file and UEF reading, gzip: tapes start as parsed chunks, vectors of bytes as sequences.
- Uninitialised fields (the serial ULA's counters, the ACIA's shift register, VIA timer 2): runs start from states in which they have a value.
- Explicit raw chunks (&0102) are in the flat stream (`TapeStreams.UefTapeStream.BuildSegments`) but not in the tape's text: their bits need not be framed.
- Gap lengths in seconds as floating point: a gap is a number of bit times.
- CassetteLoad.BytesOnTapeAreBytesRead: the CPU polls, reads and sends, but writes no control byte or reset in mid-tape; a tape of fewer than 2^32 bits.
- CassetteWindow.TimelyReadsLoadTheTape: the same.
- CassetteWindow.WindowIsExact: for up to 2^32 - 120 trailing bits, as many as a tape of fewer than 2^32 bits can have behind its leader and two bytes.
- SerialLink.WhatIsSentArrives: assumes no break, no master reset and no control write on either chip, and CTS low.
- CrtcFrames.CharacterAt: assumes constant registers with R0 >= 2, R1 <= R0, R8 mode other than 3 and, in mode 1, 1 <= R6 <= R4; interlace sync and video (mode 3) has its rows in `CrtcRows.RowsInTwos` but no closed form of its frames.
- CrtcDisplay.DisplayEnabledAt: under the same assumptions; the first frame, which may begin with the display off or a line open, is not covered.
- CrtcDisplay.SyncFollowsR2: a pulse longer than the line has its length in `CrtcDisplay.SyncLasts`, but not its period.
- TransmitDeadline.SentOnTime: a write to the SCR or the control register restarts the count that it sets, so that writes often enough keep a byte from being sent at all.
- TapeRecording.UndividedIsSent: the CPU writes no control byte, reset or break while it records, and only SCR bytes that keep the motor on and the cassette selected.
- RawLoading.RawTapeDelivers: of the receiver; the CPU's reading of it is as for the other tapes.
- CrtcRows.SyncOnceAFrame: with R4 = 127 the adjust lines count as row 0, which may be R7.
- The CRTC's cursor, its light pen and register reads: they feed nothing that is modelled.
- NMI and a reset taken through the break handlers: nothing in the source sets those flags. The uint16 stack pointer is a byte, since only its low byte is ever used.
- CpuCycles.HandlersRefine: memory answers every cycle; a byte above `ram` is read-only, as the ROMs are.
- Undocumented opcodes: they have no handlers, and the machine stops.
- Board.EveryRunIsExact: devices are any function from the accesses so far to the byte read, and the interrupt line any function of time; the CRTC's own memory phase and the 16MHz devices of `beeb.cpp` are not on this board.
- BeebBoard.Beeb.DoTick: the CRTC's memory phase, the 16MHz devices and the devices' own 1MHz ticks are absent; the cached interrupt is the line, any function of time, where the source changes it only on the 1MHz line's falling edge.
- CrtcResets.ResetStartsFrame: with one row or one line a row (R4 or R9 zero) the short frame's lines can meet the picture's end again; those registers are not covered, nor is mode 3.
- PendingEntry.PendingShowsExactly: for a stack page that can be written; on read-only memory the pushed address is lost either way.
- CrtcPulses.InterlacedPulse: for pulses whose lines fit above the frame's end; one that runs into the next frame is in the class only.
- Stepping.StepExecutes: an instruction that reads one address outside memory twice and is answered differently has no such memory (`Stepping.SomeOverlayReplies`).
- BeebBoard.ExecutionEngine.TickOneInstruction: recording history, callbacks, watches and breakpoints around it are not modelled.
- AcornBlocks.ReadBlock: the source reads past the end of its vector unchecked; here there are zeros there. Indices are unbounded rather than 32-bit.
- Via.EveryRunIsConsistent: port data, handshakes and the shift register are not modelled; what a read of a timer returns is not either.
