# UUT command-frame engine, modelled in Dafny

A test station drives a unit under test (UUT) through an FPGA. A console
turns a typed command into a five-word command frame: a header word, a
control word, a relay word, the relay word's 16-bit complement and a
footer. The frame goes into a block RAM (BRAM), and the seven status
words the UUT answers with are read back and decoded. Around this sit
the Raspberry Pi drivers for the station's boards: an AMC131M0x ADC, an
AD5593 ADC/DAC/GPIO, a BarGraph-2 LED bar and a Buzz 3 buzzer.

The model covers these parts:

- **Zynq console** (`zynq_uart_cli.dfy`, `line_assembler.dfy`,
  `zynq_bram_cmd.dfy`, on the shared `uut_frame.dfy` and
  `uut_status.dfy`):
  - the line reader of `uart_cli_poll`;
  - the command table and `process_uart_cmd`;
  - the dispatcher `cli_cmd_handler`, as a function from command index
    and fields to fields;
  - `cmd_bram_write`: the control word, the relay word, the five BRAM
    writes and the sample-hold counter `SHnum`;
  - `cmd_bram_read`: which status groups each query decodes, and how.
- **Vic session loop** (`vic_session.dfy`): the `main` loop reads a line,
  looks it up, handles `exit`, `debug`, `-help` and unknown commands, then
  pulses the FPGA reset, writes a frame and reads the status for every
  other command. The proofs use a ghost replay of the commands.
- **Base console** (`base_main.dfy`): the key state machine of the
  earlier console. `'1'` starts a session. The keys `0`, `2`-`8`, `a`,
  `s`, `d`, `f`, `g`, `z` and `x` change the command fields. Every frame
  writes the five words, reads back the CPLD pair and all status groups,
  and advances the counter.
- **Earlier Vic revision** (`vic_uut_cmd.dfy`, `vic_uart_cli.dfy`):
  - a `process_uart_cmd` that classifies a line only as read or write;
  - `cmd_bram_write`, which uses an OR on the previous relay word;
  - `cmd_bram_read`, which chooses the groups by comparing strings.
- **Python drivers** (`amc13x.dfy`, `ad5593.dfy`, `bargraph2.dfy`,
  `buzz3.dfy`):
  - the drivers become classes whose fields are what the source mutates:
    the AD5593's three-byte buffer as an `array`, the pins and the PWM
    settings;
  - hardware traffic becomes a log: the I2C transfers, the SPI bytes, and
    the pin writes and pauses;
  - what a device answers to a read is a parameter.

How the model represents the hardware:

- Hardware writes (GPIO, BRAM, I2C, SPI, pins) are appended to a `trace`
  or `log` field.
- Hardware reads (BRAM status words, UART bytes, I2C and SPI answers) are
  parameters.
- C `u32` fields are integers below 2^32. The frame words are `bv32`.
  A relay toggle, `^= 1 << n` in the source, is `UutFrame.FlipBit`: it
  adds or removes the bit. It is proved to flip that bit and to keep
  every bit below and above it.
- Python's `|` on the BarGraph-2 tables is `BarGraph2.BitOr`, on
  non-negative integers. On the AMC frames the OR is the sum, because
  the two operands share no bit (`Amc13x.HeaderOrIsSum`).

Where the code departs from a plain reading, the model follows the code:

- `cmd_bram_read` masks every status word with `0xFFFF`, but reads the
  CPLD pair unmasked from offsets 8 and 12 (Zynq/bram_cmd.c:88-92).
- The line assembler keeps a NUL byte as an ordinary character. The
  command lookup reads the stored line as a C string, so the lookup stops
  at the first NUL (`LineAssembler.CString`).
- The command-error mask is `0x5000`. It covers the coil-error bit 12, so
  a coil error is always reported as a command error as well
  (`UutStatus.CoilErrorIsCommandError`).
- The threshold codes are written as 33 V = `0b10` and 84 V = `0b01`
  (Zynq/bram_cmd.h:35-36). The status decoder reads bit 10 (`0b01`) as
  33 V and bit 11 (`0b10`) as 84 V (Zynq/bram_cmd.c:118-119). A threshold
  command's code therefore reads back as the other voltage
  (`ZynqBramCmd.ThresholdEchoSwaps`). The status word is the UUT's, and
  its encoding is not visible in this code, so this is stated as a
  property and not as a defect.
- The Vic loop passes the initial fields to every `cmd_bram_write`, so a
  relay toggle never carries over to the next command
  (`VicSession.RelayToggleDoesNotPersist`).
- In the Base console, key `'8'` writes the packed fields without the
  counter into the header slot, at offset 0 (Base/main.c:533-540). The
  frame itself is split into three methods: `WriteCommand`, `ReadBack`
  and `AdvanceCounter`. Base/main.c:384 tests `(data2 & 0) == 0`, which
  always holds, so the last threshold branch is 166 V.
- The earlier Vic `process_uart_cmd` has two paths that return no value:
  help (Vic/uart_cli.c:13) and an unknown line (36-37). Both are `None`.
  At line 29, `return CMD_WRITE` lacks its `;`; the model gives the
  intended `Some(CmdWrite)` there (`VicCli.TableNameClassified`). The
  bare `return` at line 32 follows two returns and cannot be reached. The table
  declares 28 slots for 27 entries, and the scan stops at the empty
  sentinel before it reaches the unset slot.
- `set_3_state` with an unknown state writes whatever the buffer's LSB
  held from the previous call (`Ad5593.Adac.Set3State`).

`LineAssembler.LineReader.Poll` models both line readers. Zynq/uart_cli.c
and Vic/uart_cli.c have the same `uart_cli_poll` line by line.

## Model

| member | source | states |
|---|---|---|
| UutFrame.FlipBit | Zynq/bram_cmd.c:249-273 | toggling a relay field flips exactly its own bit: set after iff clear before, every lower bit (`r % m`) and every higher bit (`r / 2m`) kept, so off goes to the bit and the bit goes to off |
| UutFrame.FlipBitTwice | Zynq/bram_cmd.c:249-273 | toggling a relay twice restores the field |
| UutFrame.ControlWord | Zynq/bram_cmd.c:37-43 | the control word's low byte is the counter, and every field that fits its width reads back from its bit position |
| UutFrame.FieldBits | Zynq/bram_cmd.c:37-41 | the five shifted fields OR-ed read back field by field at positions 14, 12, 10, 9 and 8 |
| UutFrame.RelayWord | Zynq/bram_cmd.c:45-50 | the relay word keeps bits 8-15 of the previous word and has the OR of the relay fields in its low byte |
| UutFrame.Complement16 | Base/main.c:278 | the inverse word is the exact 16-bit complement: disjoint from the low half of the word and together covering 0xFFFF |
| UutFrame.FrameEvents | Zynq/bram_cmd.c:53-57 | a frame is five BRAM writes, words 1 to 5 at offsets 0x00 to 0x10, in that order |
| UutFrame.ConstantInverseWord | Zynq/bram_cmd.h:57 | the constant frame word 4 is 0xBFFF |
| UutFrame.RelayWordFromBase | Zynq/bram_cmd.c:31-50 | from 0x4000, any relay OR below 0x100 keeps the high byte 0x40, and its complement has high byte 0xBF |
| UutFrame.FieldMasksTile | Zynq/bram_cmd.h:25-29 | the fields at positions 14, 12, 10, 9 and 8, with widths 2, 2, 2, 1 and 1, are pairwise disjoint and tile bits 8-15 |
| UutFrame.RelayWordKeepsBase | Vic/uut_cmd.c:19-24 | OR-ing relays into a previous word with high byte 0x40 gives 0x4000 OR the relays, so the high byte survives every write |
| UutFrame.InverseTracksRelays | Base/main.c:277-278 | the complement of the relay word is 0xBFFF iff every relay is off |
| UutFrame.NextShNum | Zynq/bram_cmd.c:69-73 | the counter becomes 0 at 128 or on sync, otherwise it grows by one, and it never exceeds 128 |
| UutFrame.ControlWordThreshold | Zynq/bram_cmd.c:37-43 | bits 11:10 of a frame's control word hold the threshold field |
| UutFrame.ShNumCycle | Zynq/bram_cmd.c:69-73 | without sync the counter, started at 0, is n mod 129 after n writes: 0..128, then it starts over |
| UutFrame.ShAfterFrom | Zynq/bram_cmd.c:69-73 | without sync, from any start sh the counter after n writes is (sh + n) mod 129 |
| UutStatus.Mask16 | Zynq/bram_cmd.c:95-106 | a read word masked with 0xFFFF keeps exactly its bits 0-15 |
| UutStatus.FrameError | Zynq/bram_cmd.c:109 | a frame error is reported iff bit 15 of status word 2 is set |
| UutStatus.CommandError | Zynq/bram_cmd.c:112 | a command error is reported iff bit 14 or bit 12 of status word 2 is set |
| UutStatus.RailOff | Zynq/bram_cmd.c:137 | the 12 V relay rail is reported off iff bit 13 is set |
| UutStatus.CoilError | Zynq/bram_cmd.c:139 | a coil error is reported iff bit 12 is set |
| UutStatus.DryOf | Zynq/bram_cmd.c:124-127 | dry is reported iff bit 9 is set, wet otherwise |
| UutStatus.SyncOf | Zynq/bram_cmd.c:130-133 | sync is reported iff bit 8 is set |
| UutStatus.ThresholdOf | Zynq/bram_cmd.c:116-121 | each threshold is reported for exactly one combination of bits 10 and 11: both is 17 V, only 10 is 33 V, only 11 is 84 V, neither is 166 V |
| UutStatus.ThresholdOfBits | Zynq/bram_cmd.c:116-121 | the threshold decoder depends on bits 11:10 alone |
| UutStatus.RelaysOf | Zynq/bram_cmd.c:143-149 | relay i (AA, AB, CA, CB, CC) is on iff bit i of status word 3 is set |
| UutStatus.InputsOf | Zynq/bram_cmd.c:152-160 | input k is on iff bit k-1 of status word 4 is set |
| UutStatus.CoilErrorIsCommandError | Zynq/bram_cmd.c:112-139 | every coil error is also reported as a command error |
| UutStatus.DecodersIgnoreHighBits | Zynq/bram_cmd.c:95-160 | masking a read word to 16 bits changes no decoded flag, threshold, relay or input |
| ZynqCli.Scan | Zynq/uart_cli.c:20-39 | the scan from i returns the first index at or after i whose name equals the line, or -1 iff no name from i on equals it |
| ZynqCli.ProcessUartCmd | Zynq/uart_cli.c:11-41 | the lookup returns the first table index whose name is the line, and -1 iff no command has that name |
| ZynqCli.TableShape | Zynq/uart_cli.h:8-47 | the table has 30 entries, 29 with names and then the empty sentinel, which is CMD_UNKNOWN |
| ZynqCli.IndexesMatchNamesLow | Zynq/uart_cli.h:52-57 | the index constants 0-5 name their own table entries |
| ZynqCli.IndexesMatchNamesQueries | Zynq/uart_cli.h:58-61 | the index constants 6-9 name their own table entries |
| ZynqCli.IndexesMatchNamesMid | Zynq/uart_cli.h:62-71 | the index constants 10-19 name their own table entries |
| ZynqCli.IndexesMatchNamesHigh | Zynq/uart_cli.h:72-80 | the index constants 20-28 name their own table entries |
| ZynqCli.NamesFitBuffer | Zynq/uart_cli.h:7 | every command name fits the line buffer with its NUL, and the longest has 14 characters |
| ZynqCli.QueryMarkOnlyLast | Zynq/uart_cli.h:17-48 | a '?' occurs in a command name only as its last character |
| ZynqCli.NamesDistinct | Zynq/uart_cli.h:17-48 | the command names are pairwise distinct, so the first match is the only one |
| ZynqCli.LookupFindsName | Zynq/uart_cli.c:11-41 | looking up any table name gives back its own index |
| ZynqCli.HelpShortcutAgrees | Zynq/uart_cli.c:13-18 | the "-help" shortcut returns what the scan alone would return |
| LineAssembler.Assemble | Zynq/uart_cli.c:58-82 | a poll takes at most the input and keeps at most 17 characters; it returns a line only at a terminator with something buffered, then with nothing pending; lines and leftovers contain no terminator |
| LineAssembler.LineComesBack | Zynq/uart_cli.c:58-82 | characters followed by a terminator come back as exactly the pending text plus those characters, truncated to 17 |
| LineAssembler.EmptyLineSkipped | Zynq/uart_cli.c:67-76 | a terminator with nothing buffered is skipped and the poll goes on reading |
| LineAssembler.CString | Zynq/uart_cli.c:77-79 | the C string of a buffer is its longest prefix without a NUL, ending at the first NUL when there is one |
| LineAssembler.LineReader.Poll | Zynq/uart_cli.c:58-82 | the buffer array and its index move as Assemble says, and a returned line sits in the buffer followed by its NUL |
| ZynqBramCmd.ThresholdCodeOf | Zynq/bram_cmd.c:188-207 | each threshold command writes a two-bit code |
| ZynqBramCmd.ActionOf | Zynq/bram_cmd.c:169-320 | every case of the switch writes only codes that fit their fields; which code each command writes is stated by HandlerSetsField and HandlerFlipsRelay |
| ZynqBramCmd.Handler | Zynq/bram_cmd.c:169-320 | cli_cmd_handler returns a changed copy of the fields and never changes the module id; its lemmas below state what each command writes, what it leaves alone and the command type it sets |
| ZynqBramCmd.HandlerGpio | Zynq/bram_cmd.c:178-184 | the handler writes GPIO only for cpld_rev_? (a 0 then 1 reset pulse) and for reset |
| ZynqBramCmd.WriteEvents | Zynq/bram_cmd.c:26-75 | one write logs the handler's GPIO writes followed by the five frame words |
| ZynqBramCmd.Engine.CmdBramWrite | Zynq/bram_cmd.c:26-75 | frame words 2 and 3 are built from the handled fields and the counter before the write, the log grows by exactly that frame, and the counter advances by NextShNum |
| ZynqBramCmd.CmdBramRead | Zynq/bram_cmd.c:80-163 | error flags are always decoded; each status group is decoded iff the command is its query or uut_status_?, and the CPLD pair is read iff the command is cpld_rev_? |
| ZynqBramCmd.Touched | Zynq/bram_cmd.c:169-320 | any command that changes a field also sets the command type, and none changes the module id |
| ZynqBramCmd.ToggleFacts | Zynq/bram_cmd.c:249-273 | a relay toggle XORs the relay's own bit into its field, so a relay that is off comes on and one that is on goes off; it keeps relays at their own bits, changes only that relay's field, and undoes itself |
| ZynqBramCmd.ApplyFacts | Zynq/bram_cmd.c:169-320 | each case keeps the fields in range, changes only the fields it names, and leaves the command type as the case says |
| ZynqBramCmd.ActionTouchesTable | Zynq/bram_cmd.c:169-320 | the field each switch case may change is exactly the field its command is declared to change |
| ZynqBramCmd.HandlerKeepsRange | Zynq/bram_cmd.c:169-320 | the dispatcher keeps every field within its width and each relay at its own bit |
| ZynqBramCmd.HandlerTouchesOnly | Zynq/bram_cmd.c:169-320 | the dispatcher changes at most its command's fields, and the no-op commands change nothing |
| ZynqBramCmd.HandlerCommandType | Zynq/bram_cmd.c:169-320 | write commands set WriteRequest, queries set ReadRequest, cpld_rev_? sets CPLDRev, and no-ops keep the type |
| ZynqBramCmd.ToggleTwice | Zynq/bram_cmd.c:249-273 | the same relay command applied twice restores every field except the command type |
| ZynqBramCmd.HandlerSetsField | Zynq/bram_cmd.c:176-281 | thresh_17/33/84/166 write WriteRequest and the codes 3, 2, 1 and 0; dry_wet_d writes Dry and dry_wet_w Wet; sync_yes writes Sync and sync_no NoSync; relay_12v_rl writes only WriteRequest and cpld_rev_? only CPLDRev; no other field changes |
| ZynqBramCmd.HandlerFlipsRelay | Zynq/bram_cmd.c:249-273 | relay_aa, relay_ab, relay_ca, relay_cb and relay_cc write WriteRequest and XOR bit 1, 2, 4, 8 and 16 into their own relay, and change no other field |
| ZynqBramCmd.RelayCommandSwitches | Zynq/bram_cmd.c:249-273 | with every relay off or at its own bit, each relay command switches its relay from off to its bit and from its bit to off |
| ZynqBramCmd.CmdFrame4IsBaseComplement | Zynq/bram_cmd.h:57 | frame word 4 is the complement of the relay base 0x4000, that is 0xBFFF |
| ZynqBramCmd.RelaysOnOffWords | Zynq/bram_cmd.c:290-307 | relays_on sends relay word 0x401F and relays_off sends 0x4000 |
| ZynqBramCmd.ThresholdEcho | Zynq/bram_cmd.c:188-207 | a threshold command's frame reads back as the commanded threshold with 33 V and 84 V exchanged |
| ZynqBramCmd.CodeReadsSwapped | Zynq/bram_cmd.h:34-37 | each threshold code decodes as its threshold with 33 V and 84 V exchanged |
| ZynqBramCmd.ThresholdEchoSwaps | Zynq/bram_cmd.c:116-121 | threshold_33 reads back as 84 V and threshold_84 as 33 V |
| ZynqBramCmd.SyncResetsCounter | Zynq/bram_cmd.c:226-236 | after sync_yes the counter goes back to 0, from any value |
| VicSession.RouteOf | Vic/main.c:102-116 | exit ends the loop, debug toggles, -help and unknown lines are ignored, and every other index sends a frame |
| VicSession.FrameOf | Vic/main.c:120-135 | a sent command is the reset write, then the handler's GPIO writes, then the five words of the initial fields |
| VicSession.ShAfterSent | Vic/main.c:125 | the counter stays within 0..128 over any run of sent commands |
| VicSession.SentOf | Vic/main.c:100-125 | the commands that send frames, in order, are exactly those routed to Send |
| VicSession.DebugParity | Vic/main.c:106-109 | the debug flag ends flipped iff debug was entered an odd number of times |
| VicSession.ReportsOf | Vic/main.c:135 | one report per sent command |
| VicSession.Session.Dispatch | Vic/main.c:102-135 | exit is reported only for the exit index, debug flips only on debug, and a sent command appends its frame and its report and advances the counter |
| VicSession.Session.Step | Vic/main.c:96-135 | one line is looked up as the C string in the buffer and dispatched, and the state is the replay of all commands so far |
| VicSession.Session.Run | Vic/main.c:93-139 | after the loop, the log, counter, reports and debug flag are the replay of the commands before exit, and an exit ends the list |
| VicSession.LastStep | Vic/main.c:100-116 | one more command extends the sent list and the debug flag by that command alone |
| VicSession.SentStep | Vic/main.c:120-135 | one more sent command extends the log, the counter and the reports by that command's frame alone |
| VicSession.FrameRelayWord | Vic/main.c:125 | in a frame without GPIO writes, the relay word is the fourth event |
| VicSession.RelayAAFromInitial | Vic/main.c:56-67 | relay_aa from the initial fields sends relay word 0x4001 and writes no GPIO |
| VicSession.RelayToggleDoesNotPersist | Vic/main.c:125 | two relay_aa commands in a row both send relay AA on |
| BaseMain.NextThreshold | Base/main.c:485-500 | key '2' steps 17 V to 33 V to 84 V to 166 V and back to 17 V, and keeps any other value |
| BaseMain.ToggleReset | Base/main.c:526-531 | key '7' turns the reset level 1 into 0 and 0 into 1 |
| BaseMain.FirstOne | Base/main.c:224-236 | the start key is the first '1' of the input, with no '1' before it |
| BaseMain.Console.StartSession | Base/main.c:239-259 | a session starts from the initial fields, relay word 0x4000, its complement 0xBFFF and counter 0, and writes nothing |
| BaseMain.Console.AwaitStart | Base/main.c:224-236 | the console passes iff a '1' arrives, reads up to it, and starts the session only then |
| BaseMain.Console.WriteCommand | Base/main.c:273-285 | the frame logs header, control word, relay word, its complement and footer, leaving fields and counter alone |
| BaseMain.Console.ReadBack | Base/main.c:299-302 | the CPLD pair is re-read only when the command type is CPLDRev, and the status is decoded with that pair |
| BaseMain.Console.AdvanceCounter | Base/main.c:465-471 | the counter advances as NextShNum says |
| BaseMain.Console.Key | Base/main.c:474-583 | the fields change as KeyFields says (what each key does is stated by KeyToggles, KeyFlipsRelay, KeySetsCommandType, NextThreshold and AllRelayKeysWords), '7' toggles reset, '0' ends the pass and clears the CPLD pair, the key's writes are logged, and the frame words and counter remain unchanged |
| BaseMain.ReadStatus | Base/main.c:304-461 | every frame decodes all status groups and reports the CPLD pair, with the same error flags as the Zynq read |
| BaseMain.KeyKeepsRange | Base/main.c:474-583 | every key keeps the fields in range |
| BaseMain.KeyTouchesOnly | Base/main.c:474-583 | each key changes only its own fields, and keys without a case change nothing |
| BaseMain.KeyToggles | Base/main.c:502-565 | with the fields in range, '3' swaps Dry and Wet, '4' swaps Synch and NoSynch, and 'a', 's', 'd', 'f' and 'g' switch relay AA, AB, CA, CB and CC between off and their bit; each sets ChangeRequest and changes no other field |
| BaseMain.KeyFlipsRelay | Base/main.c:542-565 | 'a', 's', 'd', 'f' and 'g' set ChangeRequest and XOR bit 1, 2, 4, 8 and 16 into relay AA, AB, CA, CB and CC, and change no other field |
| BaseMain.KeySetsCommandType | Base/main.c:516-540 | '5' sets DataUpdate, '6' ChangeRequest and '8' CPLDRev, and no other field changes |
| BaseMain.ThresholdKeyCycle | Base/main.c:485-500 | four presses of '2' pass through the four thresholds and return to the start |
| BaseMain.KeyTwiceRestores | Base/main.c:502-565 | '3', '4' and the relay keys undo themselves when pressed twice, except for the command type |
| BaseMain.AllRelayKeysWords | Base/main.c:567-583 | 'x' sends relay word 0x401F with complement 0xBFE0, and 'z' sends 0x4000 with 0xBFFF |
| BaseMain.CpldWordIsControlWord | Base/main.c:533-540 | the word key '8' writes is the control word of its fields with the counter at 0 |
| BaseMain.DecodeAgreesWithZynq | Base/main.c:355-461 | a Base frame decodes the status words exactly as the Zynq uut_status_? does, and also reports the CPLD pair |
| VicUutCmd.Code | Vic/uut_cmd.h:47-56 | the read-kind enumerators are below 8, and only the unknown kind is 0 |
| VicUutCmd.CmdIdOf | Vic/uut_cmd.c:51-68 | a known kind is returned exactly when the string is its name, and unknown only when no name matches |
| VicUutCmd.CodesDistinct | Vic/uut_cmd.h:47-56 | two kinds have the same enumerator iff they are the same kind |
| VicUutCmd.IdOfName | Vic/uut_cmd.c:51-68 | each kind's name is classified as that kind |
| VicUutCmd.TableStatusNameUnknown | Vic/uut_cmd.c:51-68 | the console's "uut_status_?" is classified unknown, while "uut_status" is classified full status |
| VicUutCmd.CpldReadClassifiedAsWrite | Vic/uart_cli.c:24-31 | "cpld_rev_r" is a write command to the console but a CPLD read to the status decoder |
| VicUutCmd.StatusQueryDecodesUnknown | Vic/uut_cmd.c:51-68 | "uut_status_?" is a read command to the console, but the decoder treats it as unknown |
| VicUutCmd.Encoder.CmdBramWrite | Vic/uut_cmd.c:9-42 | command2 carries the fields and counter, with a low byte of 0 here; command3 ORs the relays into the previous word, which keeps its high byte 0x40; word 4 written is 0xBFFF |
| VicUutCmd.CmdBramRead | Vic/uut_cmd.c:47-145 | the status is the decoding the command string's kind selects |
| VicUutCmd.ReadStatus | Vic/uut_cmd.c:71-142 | the status is the decoding of the read words for the given kind |
| VicUutCmd.DecodeStatusGroups | Vic/uut_cmd.c:92-142 | error flags always; each group iff its kind or full status; the CPLD pair and the rail flags go with their own kinds |
| VicUutCmd.FullStatusAgreesWithZynq | Vic/uut_cmd.c:71-142 | the full status equals the later uut_status_? decoding, plus the CPLD pair |
| VicUutCmd.UnknownReportsErrorsOnly | Vic/uut_cmd.c:92-96 | an unknown command string reports the two error flags and nothing else |
| VicCli.Scan | Vic/uart_cli.c:16-34 | the scan from i returns the first matching index at or after i, or none iff no name from i on matches |
| VicCli.Classify | Vic/uart_cli.c:24-31 | a line is a read iff it contains '?', and a write otherwise |
| VicCli.ProcessUartCmd | Vic/uart_cli.c:10-37 | there is a result iff the line is a table name other than -help, and then it is read iff the line contains '?' |
| VicCli.TableShape | Vic/uart_cli.h:20-48 | 27 entries in 28 declared slots, ending with the sentinel, with -help at index 25 and no other empty name |
| VicCli.NamesDistinct | Vic/uart_cli.h:20-48 | the command names are pairwise distinct |
| VicCli.NamesFitBuffer | Vic/uart_cli.h:7 | every name fits the line buffer with its NUL |
| VicCli.QueryMarkOnlyLast | Vic/uart_cli.h:20-48 | a '?' occurs in a name only as its last character |
| VicCli.HelpOnlyAtItsIndex | Vic/uart_cli.h:20-48 | only the entry at index 25 is -help |
| VicCli.TableNameClassified | Vic/uart_cli.c:16-31 | each table name except -help is a read iff it ends in '?' |
| VicCli.UnknownHasNoResult | Vic/uart_cli.c:11-14 | -help and unknown lines have no result |
| VicCli.QueryNames | Vic/uart_cli.h:20-48 | the names ending in '?' are exactly those at indexes 6, 9, 12, 13, 23 and 24 |
| Amc13x.Zeros | AMC130M01_131M03.py:71 | the padding is n zero bytes |
| Amc13x.ReadFrame | AMC130M01_131M03.py:65-71 | an address outside 0..63 is an error; otherwise the read command is a 15-byte frame: byte 0 is 0xA0 + addr >> 1, byte 1 is (addr & 1) << 7, and zero from byte 2 on |
| Amc13x.WriteFrame | AMC130M01_131M03.py:78-86 | a bad address or a value outside 16 bits is an error; otherwise a 15-byte frame: byte 0 is 0x60 + addr >> 1, byte 1 is (addr & 1) << 7, byte 2 zero, bytes 3 and 4 the value's high and low byte, and zero from byte 5 on |
| Amc13x.ReadFrameDecodes | AMC130M01_131M03.py:71 | a read frame carries opcode 0b101 and decodes back to its address |
| Amc13x.WriteFrameDecodes | AMC130M01_131M03.py:86 | a write frame carries opcode 0b011 and decodes back to its address and value |
| Amc13x.CommandsDistinguishable | AMC130M01_131M03.py:65-86 | no read frame equals a write frame, and neither is the all-zero frame |
| Amc13x.HeaderOrIsSum | AMC130M01_131M03.py:71-86 | OR-ing the opcode bits with addr >> 1 is the sum |
| Amc13x.BigEndian | AMC130M01_131M03.py:62-76 | a word from two bytes is below 65536 and gives the high and low byte back |
| Amc13x.ReadReg | AMC130M01_131M03.py:65-76 | a bad address fails before anything is sent; otherwise two frames are sent and the value is the first two received bytes, big-endian |
| Amc13x.GetGain | AMC130M01_131M03.py:138-140 | reading the gain sends a read of register 4 |
| Amc13x.ReadRawAdc | AMC130M01_131M03.py:56-63 | the three channel words are bytes 3-4, 6-7 and 9-10, each big-endian |
| Amc13x.Channel | AMC130M01_131M03.py:92-109 | a channel 0..2 is kept and any other falls back to 0 |
| Amc13x.ChannelSample | AMC130M01_131M03.py:93-121 | a sample is the selected channel's word of one raw read |
| Ad5593.PinMask | AD5593.py:48 | the mask of a pin is 1 << pin, a single set bit |
| Ad5593.PinMasksDisjoint | AD5593.py:48 | different pins have disjoint masks |
| Ad5593.ValidatePin | AD5593.py:215-218 | a pin is accepted iff it is 0..7, and then returned unchanged |
| Ad5593.SetKeepsOthers | AD5593.py:48 | OR-ing a mask sets its bits and keeps every other bit |
| Ad5593.ClearKeepsOthers | AD5593.py:115 | AND-NOT with a mask clears its bits and keeps every other bit |
| Ad5593.FlipChangesMask | AD5593.py:192 | XOR with a mask changes exactly the mask's bits |
| Ad5593.Vref | AD5593.py:152-156 | the reference is 5000 iff bit 5 of the LSB is set, and 2500 otherwise |
| Ad5593.RawAdc | AD5593.py:146 | a sample is 12 bits: the low nibble of the first byte, then the second byte |
| Ad5593.RawSamples | AD5593.py:143-146 | one sample per readback, in order |
| Ad5593.SumBounds | AD5593.py:147 | n twelve-bit samples sum to at most 4095 n |
| Ad5593.AverageBounds | AD5593.py:147 | the integer average of at least one twelve-bit sample is again twelve bits |
| Ad5593.HighByte | AD5593.py:125 | the MSB is (v >> 8) & 0xFF, with Python's floor shift |
| Ad5593.LowByte | AD5593.py:126 | the LSB is v & 0xFF |
| Ad5593.DacBytesRoundTrip | AD5593.py:125-126 | the two bytes of any 16-bit code give the code back |
| Ad5593.PinIndex | AD5593.py:124 | the pin number in the DAC command byte is the pin |
| Ad5593.Adac.Flush | AD5593.py:240-245 | a write sends the first buffer byte as command and the other two as payload |
| Ad5593.Adac.Rewrite | AD5593.py:45-49 | a read-modify-write reads the register back, fills the buffer with the new bytes, and writes them |
| Ad5593.Adac.constructor | AD5593.py:35-41 | the reference becomes 2500 with the internal reference, otherwise the given value; then a soft reset is sent |
| Ad5593.Adac.Reset | AD5593.py:209-213 | a soft reset writes [0x0F, 0x0D, 0] |
| Ad5593.Adac.ConfPin | AD5593.py:43-105 | a bad pin changes nothing; otherwise the readback LSB gets the pin's bit, the MSB is kept, and the register is read back before that |
| Ad5593.Adac.ConfOutput | AD5593.py:43-50 | a bad pin changes nothing; otherwise the pin's bit is set in GPIO_W_CONF and the rest of the readback is kept |
| Ad5593.Adac.ConfInput | AD5593.py:52-59 | a bad pin changes nothing; otherwise the pin's bit is set in GPIO_R_CONF and the rest of the readback is kept |
| Ad5593.Adac.ConfDac | AD5593.py:61-68 | a bad pin changes nothing; otherwise the pin's bit is set in DAC_PIN_CONF and the rest of the readback is kept |
| Ad5593.Adac.Conf3State | AD5593.py:98-105 | a bad pin changes nothing; otherwise the pin's bit is set in IO_3STATE_PIN and the rest of the readback is kept |
| Ad5593.Adac.ConfAdc | AD5593.py:70-96 | a bad pin changes nothing; otherwise the pin's bit is set in ADC_PIN_CONF; with the internal reference, the reference is enabled too and the range bit is set for gain 2 and cleared for any other gain; the data buffer afterwards holds the last register written and its two bytes |
| Ad5593.Adac.Set3State | AD5593.py:107-118 | HIGH sets the pin's bit, LOW and high impedance clear it, and any other state resends the stale LSB |
| Ad5593.Adac.SetOutput | AD5593.py:176-185 | the output bit is set for a true value and cleared otherwise; the MSB is 0 |
| Ad5593.Adac.Toggle | AD5593.py:186-193 | the written LSB differs from the readback in exactly the pin's bit |
| Ad5593.Adac.SetVref | AD5593.py:158-170 | bit 1 of the reference MSB is set to activate and cleared to deactivate, and the LSB is kept |
| Ad5593.Adac.PowerAll | AD5593.py:195-207 | bit 2 of the MSB is cleared to power up and set to power down, and the LSB is kept |
| Ad5593.Adac.GetVref | AD5593.py:152-156 | the reference is read back from GP_CONTR_REF and decoded by Vref |
| Ad5593.Adac.GetInputState | AD5593.py:129-133 | a bad pin sends nothing; otherwise the result is 1 iff the pin's bit of the second byte is set, and 0 otherwise |
| Ad5593.Adac.SetDac | AD5593.py:120-127 | the DAC write names the pin and carries the code's MSB and LSB, and a bad pin changes nothing |
| Ad5593.Adac.TakeSamples | AD5593.py:143-146 | one ADC block read per sample, and the samples are the readbacks decoded |
| Ad5593.Adac.ReadAdc | AD5593.py:135-147 | a bad pin changes nothing; zero samples fail; otherwise the pin is selected with repetition on and the result is the integer average of the samples, in 0..4095 |
| BarGraph2.BitOrSplit | BarGraph2.py:149-151 | an OR's lowest bit is set iff either operand's is, and the rest is the OR of the rest |
| BarGraph2.BitOrCommutes | BarGraph2.py:149-151 | OR commutes |
| BarGraph2.BitOrIdempotent | BarGraph2.py:181-183 | OR-ing a value with itself gives it back |
| BarGraph2.BitOrAssociates | BarGraph2.py:181-183 | OR is associative |
| BarGraph2.BitOrBelow | BarGraph2.py:149-151 | the OR of two values below 2^k is below 2^k |
| BarGraph2.Table | BarGraph2.py:27-29 | each colour table has one entry per LED, ten in all |
| BarGraph2.ColourOf | BarGraph2.py:121-124 | "green", "red" and "yellow" select their tables, and any other name is the ValueError |
| BarGraph2.OrGrows | BarGraph2.py:149-151 | OR-ing keeps what was lit and adds the new entry |
| BarGraph2.WithinReflexive | BarGraph2.py:181-183 | every state lights what it lights |
| BarGraph2.OrWithin | BarGraph2.py:181-183 | a state lighting both a and b lights their OR |
| BarGraph2.WithinTransitive | BarGraph2.py:181-183 | lighting is transitive |
| BarGraph2.OrBytes | BarGraph2.py:149-151 | the OR of two byte states is a byte state |
| BarGraph2.TablesShape | BarGraph2.py:27-29 | each green and red entry lights one bit, the two never share one, each yellow entry is exactly green OR red, and every entry is bytes |
| BarGraph2.EntryShape | BarGraph2.py:27-29 | the table facts for one LED |
| BarGraph2.EntryBytes | BarGraph2.py:27-29 | every table entry is bytes |
| BarGraph2.Bytes | BarGraph2.py:57-59 | segment_switch sends reg3, then reg2, then reg1 |
| BarGraph2.LedColorRegs | BarGraph2.py:82-86 | an LED in 1..10 shows its table entry, and any other index shows nothing lit |
| BarGraph2.LevelEntry | BarGraph2.py:175-180 | LEDs up to the green count are green, up to green + yellow are yellow, and those after are red |
| BarGraph2.LevelMonotone | BarGraph2.py:174-183 | a higher level lights every bit a lower level does |
| BarGraph2.LevelLightsEach | BarGraph2.py:174-183 | every LED up to the level is lit in its colour |
| BarGraph2.LevelBytes | BarGraph2.py:174-183 | a level graph sends bytes |
| BarGraph2.Visit | BarGraph2.py:125-126 | the loop visits start to end inclusive, one step at a time, upward or downward |
| BarGraph2.AccumulateStepIn | BarGraph2.py:147-153 | an index in 1..10 is OR-ed in and the running state sent |
| BarGraph2.AccumulateStepOut | BarGraph2.py:147 | an index outside 1..10 is skipped and nothing is sent |
| BarGraph2.AccumulateLightsEach | BarGraph2.py:146-154 | every in-range index visited stays lit at the end |
| BarGraph2.AccumulateOnlyThose | BarGraph2.py:146-154 | nothing but the visited in-range entries is lit |
| BarGraph2.AccumulateMonotone | BarGraph2.py:146-153 | each step only adds bits |
| BarGraph2.AccumulateBytes | BarGraph2.py:146-154 | led_range_all sends bytes |
| BarGraph2.Display.WriteByte | BarGraph2.py:40-48 | one byte goes out over SPI |
| BarGraph2.Display.SegmentSwitch | BarGraph2.py:50-59 | the three register bytes go out, reg3 first |
| BarGraph2.Display.LightsOff | BarGraph2.py:61-65 | three zero bytes go out |
| BarGraph2.Display.LedColor | BarGraph2.py:75-86 | the LED's entry goes out, or all off for an index outside 1..10 |
| BarGraph2.Display.LedRange | BarGraph2.py:112-129 | a bad colour sends nothing; otherwise each visited LED is shown in turn and then all go off |
| BarGraph2.Display.Sweep | BarGraph2.py:126-129 | the loop of led_range over the visited indices |
| BarGraph2.Display.LedRangeAll | BarGraph2.py:131-154 | a bad colour sends nothing; otherwise the running OR is sent after each in-range index and once more at the end |
| BarGraph2.Display.SweepAll | BarGraph2.py:144-154 | the loop of led_range_all, returning the final OR |
| BarGraph2.Display.LevelGraph | BarGraph2.py:156-184 | a level outside 1..10 turns all off; otherwise LEDs 1..level are sent lit in their segment colours |
| BarGraph2.LevelLoop | BarGraph2.py:171-183 | the loop's OR is the OR of the level entries of LEDs 1..level |
| Buzz3.Pins | buzz3.py:18-23 | each volume drives EN1 and EN2 to 0 or 1 |
| Buzz3.VolumeOf | buzz3.py:40-42 | a known name selects the volume of that name, and any other name is the ValueError |
| Buzz3.FindFrom | buzz3.py:78-81 | the first table entry from i on whose pins match, or none iff none of them does |
| Buzz3.PinsInjective | buzz3.py:18-23 | different volumes drive different pins |
| Buzz3.PinsCover | buzz3.py:72-81 | every 0/1 pin pair names a volume, so "unknown" never comes from such pins |
| Buzz3.NameRoundTrip | buzz3.py:18-42 | a volume's name selects that volume |
| Buzz3.LevelOfPins | buzz3.py:72-81 | reading a volume's pins back gives its name |
| Buzz3.ToneEvents | buzz3.py:46-58 | frequency 0 or below is silence at 1000 Hz, and any other is that frequency at the duty cycle |
| Buzz3.NoteEndsSilent | buzz3.py:98-102 | each note ends with the tone off, then its pause if it has one |
| Buzz3.Buzzer.constructor | buzz3.py:25-33 | the buzzer starts silent and muted |
| Buzz3.Buzzer.SetVolume | buzz3.py:35-44 | a known level drives its pins and is logged; a bad name changes nothing |
| Buzz3.Buzzer.SetTone | buzz3.py:46-58 | a frequency 0 or below stops the tone at 1000 Hz, and any other sets frequency and duty |
| Buzz3.Buzzer.Sleep | buzz3.py:68 | a pause is logged |
| Buzz3.Buzzer.GetVolumeLevel | buzz3.py:72-81 | the name of the level the pins show, or "unknown" |
| Buzz3.Buzzer.Beep | buzz3.py:60-70 | a bad volume changes nothing; otherwise the beep ends silent with the previous volume restored |
| Buzz3.Buzzer.PlayNote | buzz3.py:93-102 | one note: tone, duration, silence, and the pause if positive |
| Buzz3.Buzzer.PlayNotes | buzz3.py:91-102 | the notes in order, with the volume pins unchanged |
| Buzz3.Buzzer.PlayRiff | buzz3.py:83-103 | a bad volume changes nothing; otherwise the riff is played at that volume and the previous volume is restored |
| Buzz3.Restore | buzz3.py:70 | the volume the pins show is restored |
| Buzz3.RestoreNames | buzz3.py:65-70 | the saved name selects the volume the pins showed, so restoring it cannot fail |

## Left out

- Console output is not modelled: `xil_printf` and `print`, the help
  listings, and the verbose messages. Only the values they would print
  are modelled.
- Timing and bring-up are not modelled: the `usleep`, `sleep` and
  `sleep_ms` calls (kept only as a logged pause in the buzzer), LED
  blinks, and the UART, GPIO, BRAM, SPI and I2C initialisation.
- The hardware reads have no device behind them. The UART bytes, BRAM
  words and I2C/SPI answers are parameters.
- ZynqBramCmd.CmdBramRead: does not model the pause between the write
  and the read, or what the UUT answers; the status words are a
  parameter.
- VicSession.Session.Run: models only the loop over the bytes received
  so far. Where the source would block waiting for more, the model stops.
- BaseMain.Console: the frame loop is split into `WriteCommand`,
  `ReadBack`, `AdvanceCounter` and `Key` in source order. The loop itself
  and the wait for a key byte are not separate members.
- Floating point is not modelled: the DAC code `int(value / vref *
  4095)`, the ADC millivolt and volt conversions, and the AMC's averaged
  millivolt and volt readings. The integer parts before them are
  modelled.
- Amc13x: set_gain (it raises `KeyError` on an unknown gain, through a
  dictionary), reset, device_sync and read_funct_regs are not modelled.
  They are a single register write, a pin pulse and a loop of read_reg
  that add nothing to the frame encoding.
- Ad5593: read_reg (which only formats a result as a binary string),
  write_reg and readValues (raw pass-throughs) are not modelled.
  readVoltage is not modelled either (a float division of readADCmVolt).
- Ad5593.Adac: the I2C exceptions `_read` and `_write` catch and print
  are not modelled; every transfer succeeds. If a read did fail, the
  source would index the `None` it returns, which is an error the model
  does not represent.
- BarGraph2.Display: reset and power (single pin writes), the CS pulses
  around each byte, and the delays between LEDs are not modelled.
- BarGraph2.Display.LevelGraph: always uses the driver's own colour
  tables, whereas `level_graph` takes them as its `Graph` argument
  (BarGraph2.py:156, 168). Other tables, including ones whose entries
  are not three-byte triples, are not modelled.
- pi5gpio.py and the `main` demos of the Python drivers are not part of
  this model.
