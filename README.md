# z80-debug: the simulated Z80 core and the debug console's argument handling

This project models two parts of the z80-debug VS Code debug adapter for ZX Spectrum
programs and proves properties of them in Dafny.

**The simulated Z80 CPU** (`Z80Cpu`, module `Z80`). It wraps the instruction interpreter
of the `z80js` library. After every instruction it
- charges the instruction's T-states to a countdown of 70000 T-states (20 ms at 3.5 MHz);
  when the countdown runs out, it re-arms it and delivers the vertical maskable interrupt;
- keeps the CPU-load statistics: T-states outside HALT against all T-states, averaged over
  a window of `cpuLoadRange` interrupts.

The interrupt response pushes the return address (stepping over a HALT the CPU is sitting
on). IM 1 then jumps to 0038h and IM 2 jumps through the vector table at I·256. Any other
mode throws, after the push. The CPU can be serialized to a 33-byte snapshot and restored
from it. Some `z80js` instructions are replaced by corrected versions:
`LD (IX/IY+d),r`, `LD (IX/IY+d),n` and the PC fix-up after `BIT b,(IX/IY+d)`.
The modules `Bytes`, `MemBuffers`, `Snapshots` and `CpuTiming` hold:
- the machine integers;
- the snapshot buffer;
- the snapshot byte layout;
- the countdown/load arithmetic as pure functions, with lemmas over whole runs of
  instructions.

**The debug console** (module `DebugConsole`). A line typed into the console is:
1. trimmed;
2. split at every space;
3. dispatched on its first word: `-help`, `-LOGPOINT`, `-ASSERT`, `-eval`, `-exec`,
   `-label`, `-md`, `-patterns`, `-WPMEM`, `-sprites`, `-state` or `-dbg`, with their
   aliases.

The model covers the argument checks of these commands. It covers the `index[+count|-end]`
range parser of `-sprites`/`-patterns`, the address/size pairing of `-md` and the search
of a disassembly listing for the line of an address. Module `JsStrings` gives exact
definitions of the JavaScript built-ins these rely on: `trim`, `split`, `join`,
`parseInt(s, 16)` and `Number.prototype.toString(radix)`.

Expression evaluation (`Utility.evalExpression`, `Utility.parseValue`) and label lookup
are not part of this model. They enter as function parameters that return an optional
integer. For `-eval` and `-md`, `None` stands for an evaluation that threw. For the range
and slot words of `-sprites` and `-patterns`, `None` stands for "not a number", which the
source tests with `isNaN` and turns into its own error messages.

## Model

| member | source | states |
|---|---|---|
| Bytes.Signed8 | src/remotes/zxsimulator/z80cpu.ts:9-14 | the result lies in [-128, 127], is non-negative exactly when the byte is below 128, and its low byte is the byte again |
| Bytes.Signed8Unique | src/remotes/zxsimulator/z80cpu.ts:9-14 | `signed8` is the only reading of a byte in [-128, 127] with that low byte (two's complement) |
| Bytes.LE16RoundTrip | src/remotes/zxsimulator/z80cpu.ts:218-229 | a 16-bit value written as two little-endian bytes reads back unchanged |
| Bytes.LE32RoundTrip | src/remotes/zxsimulator/z80cpu.ts:238 | a 32-bit value written as four little-endian bytes reads back unchanged |
| MemBuffers.MemBuffer.constructor | src/remotes/zxsimulator/z80cpu.ts:200 | a new buffer is empty with its cursor at 0 |
| MemBuffers.MemBuffer.Write8 | src/remotes/zxsimulator/z80cpu.ts:231-235 | appends exactly the one byte; the cursor stays |
| MemBuffers.MemBuffer.Write16 | src/remotes/zxsimulator/z80cpu.ts:218-229 | appends exactly the two little-endian bytes of the value |
| MemBuffers.MemBuffer.Write32 | src/remotes/zxsimulator/z80cpu.ts:238 | appends exactly the four little-endian bytes of the value |
| MemBuffers.MemBuffer.Read8 | src/remotes/zxsimulator/z80cpu.ts:264-268 | returns the byte at the cursor and advances it by one; the data stays |
| MemBuffers.MemBuffer.Read16 | src/remotes/zxsimulator/z80cpu.ts:251-262 | returns the little-endian word at the cursor and advances it by two |
| MemBuffers.MemBuffer.Read32 | src/remotes/zxsimulator/z80cpu.ts:271 | returns the little-endian 32-bit value at the cursor and advances it by four |
| Snapshots.Encode | src/remotes/zxsimulator/z80cpu.ts:212-239 | a snapshot is 33 bytes: twelve 16-bit registers, five single bytes, one 32-bit countdown |
| Snapshots.DecodeEncode | src/remotes/zxsimulator/z80cpu.ts:245-271 | reading back what was written, followed by anything, restores every register, both flip-flops and the countdown |
| Snapshots.EncodeInjective | src/remotes/zxsimulator/z80cpu.ts:212-239 | different CPU states give different snapshots |
| CpuTiming.CloseWindow | src/remotes/zxsimulator/z80cpu.ts:90-98 | each interrupt counts once; the window closes exactly when the count reaches the range and some time has passed; then load·total = busy and all three counters restart at 0; otherwise nothing but the counter changes |
| CpuTiming.RatioBounds | src/remotes/zxsimulator/z80cpu.ts:93 | busy/total lies in [0, 1] when busy ≤ total and total > 0 |
| CpuTiming.TickFires | src/remotes/zxsimulator/z80cpu.ts:83-86 | an instruction raises the interrupt exactly when its cost reaches the remaining countdown |
| CpuTiming.TickInvariants | src/remotes/zxsimulator/z80cpu.ts:76-98 | one instruction keeps busy ≤ total and the load in [0, 1], leaves a positive countdown and keeps a countdown in (0, 70000] there |
| CpuTiming.RunInvariants | src/remotes/zxsimulator/z80cpu.ts:44-105 | over any run of instructions from a balanced state the load stays a proportion, and a countdown started by the constructor stays in (0, 70000] |
| CpuTiming.QuietRun | src/remotes/zxsimulator/z80cpu.ts:76-83 | between interrupts the countdown drops by exactly the T-states spent, busy grows by the non-HALT T-states, total by all of them, and the T-states spent stay below the starting countdown |
| Z80.Poke16 | src/remotes/zxsimulator/z80cpu.ts:129 | a 16-bit store reads back as stored and changes only its two bytes |
| Z80.ReturnAddress | src/remotes/zxsimulator/z80cpu.ts:122-126 | the pushed address differs from PC exactly when the byte at PC is HALT (76h) |
| Z80.InterruptTouches | src/remotes/zxsimulator/z80cpu.ts:111-117 | nothing changes while IFF1 is clear or acceptance is deferred; an accepted interrupt changes at most PC, SP, IFF1 and IFF2 among the registers |
| Z80.InterruptPushes | src/remotes/zxsimulator/z80cpu.ts:121-129 | an accepted interrupt moves SP down by 2 and stores the return address there, touching no other byte |
| Z80.InterruptJumps | src/remotes/zxsimulator/z80cpu.ts:130-147 | it succeeds exactly in IM 1 and IM 2, and then both flip-flops are cleared; IM 1 jumps to 0038h, IM 2 to the word at I·256 read after the push; any other mode fails with "IM n not supported." after the push, with nothing but SP changed |
| Z80.Z80Cpu.constructor | src/remotes/zxsimulator/z80cpu.ts:41-57 | interrupt mode 0, a full 70000 T-state countdown, load 1.0 and zero counters; the invariant holds |
| Z80.Z80Cpu.RunDecoded | src/remotes/zxsimulator/z80cpu.ts:73 | the base interpreter's instruction: its cost is added to the T-states, its byte stores reach memory in order, and its register file and deferral flag take over |
| Z80.StoredUntouched | src/remotes/zxsimulator/z80cpu.ts:73 | a byte the instruction does not store to keeps its value |
| Z80.StoredLast | src/remotes/zxsimulator/z80cpu.ts:73 | a byte the instruction stores to holds the value of its last store there |
| Z80.Z80Cpu.SetMemory16 | src/remotes/zxsimulator/z80cpu.ts:129 | memory becomes the 16-bit little-endian store at the wrapped address |
| Z80.Z80Cpu.Execute | src/remotes/zxsimulator/z80cpu.ts:64-105 | deferral is cleared before the instruction runs; busy time grows unless the byte at the old PC, read before the instruction, is HALT; registers and memory are the instruction's result;  total time and the countdown change by the cost; the result is true exactly when the countdown reaches 0; then the countdown is re-armed, the interrupt is delivered on the memory the instruction left and the load window is counted; an interrupt failure is passed on before the window is counted; the invariant (busy ≤ total, load in [0, 1]) is kept and a countdown in (0, 70000] stays there |
| Z80.Z80Cpu.Account | src/remotes/zxsimulator/z80cpu.ts:76-83 | the cost goes to total and countdown, and to busy only outside HALT |
| Z80.Z80Cpu.CountInterrupt | src/remotes/zxsimulator/z80cpu.ts:90-98 | the window counters change as `CloseWindow` says, keeping the load in [0, 1] |
| Z80.Z80Cpu.InjectInterrupt | src/remotes/zxsimulator/z80cpu.ts:111-148 | registers, memory and outcome are those of the interrupt response `Z80.Interrupt` described by the three lemmas above |
| Z80.Z80Cpu.PushReturnAddress | src/remotes/zxsimulator/z80cpu.ts:121-129 | SP drops by 2 and the return address (past a HALT) is stored there |
| Z80.Z80Cpu.JumpToVector | src/remotes/zxsimulator/z80cpu.ts:130-147 | IM 1 and IM 2 jump and clear both flip-flops; other modes fail with the mode in the message |
| Z80.Z80Cpu.FetchByte | src/remotes/zxsimulator/z80cpu.ts:299 | returns the byte at PC and advances PC by one, nothing else changes |
| Z80.Z80Cpu.Write8 | src/remotes/zxsimulator/z80cpu.ts:300 | exactly one byte changes: the low byte of the value at the wrapped address |
| Z80.Z80Cpu.LdIndexed | src/remotes/zxsimulator/z80cpu.ts:296-380 | 19 T-states, PC one further, and exactly one byte written: register r at IX/IY + signed8(d) |
| Z80.Z80Cpu.LdIndexedImmediate | src/remotes/zxsimulator/z80cpu.ts:386-399 | 19 T-states, PC two further, and exactly one byte written: the immediate byte (through `signed8`) at IX/IY + signed8(d) |
| Z80.Z80Cpu.DoBitIndexed | src/remotes/zxsimulator/z80cpu.ts:284-289 | the base bit test's flags are kept and PC ends one further than the base leaves it |
| Z80.Z80Cpu.Serialize | src/remotes/zxsimulator/z80cpu.ts:212-239 | appends exactly the snapshot encoding of the current state |
| Z80.Z80Cpu.WriteMain | src/remotes/zxsimulator/z80cpu.ts:218-223 | appends PC, SP, AF, BC, DE, HL in that order |
| Z80.Z80Cpu.WriteIndexShadow | src/remotes/zxsimulator/z80cpu.ts:224-229 | appends IX, IY and the shadow pairs in that order |
| Z80.Z80Cpu.WriteControl | src/remotes/zxsimulator/z80cpu.ts:231-238 | appends I, R, IM, IFF1, IFF2 as one byte each, then the countdown |
| Z80.Z80Cpu.GetSerializedSize | src/remotes/zxsimulator/z80cpu.ts:198-206 | the size is the snapshot length, 33 |
| Z80.Z80Cpu.Deserialize | src/remotes/zxsimulator/z80cpu.ts:245-277 | the state becomes the decoded snapshot at the cursor, which moves 33 bytes on; busy and total restart at 0 and the load at 1.0; the window counter, T-states and deferral stay |
| Z80.ReadRegisters | src/remotes/zxsimulator/z80cpu.ts:251-268 | reads the register part of the snapshot, 29 bytes |
| JsStrings.TrimIdempotent | src/debugadapter.ts:1396 | trimming a trimmed line changes nothing |
| JsStrings.Split | src/debugadapter.ts:1397 | at least one part, no part holds the separator, and joining the parts with it gives the string back |
| JsStrings.SplitJoin | src/debugadapter.ts:1397 | splitting parts joined by a separator they do not contain gives them back |
| JsStrings.DigitsRoundTrip | src/debugadapter.ts:1646-1650 | the digits `toString(radix)` writes denote the number again |
| JsStrings.HexTextParses | src/debugadapter.ts:906 | `parseInt(s, 16)` reads back any integer from its upper-case hexadecimal text followed by anything that is not a hex digit or `x` |
| DebugConsole.CommandForAliases | src/debugadapter.ts:1400-1436 | a word selects a command exactly when it is one of that command's spellings |
| DebugConsole.ParseCommand | src/debugadapter.ts:1395-1441 | an unknown first word throws "Unknown command: '…'" quoting the trimmed line; otherwise the arguments hold no space and the line is a spelling of the command followed by the arguments |
| DebugConsole.ParseCommandTrimmed | src/debugadapter.ts:1396 | white space around a line makes no difference |
| DebugConsole.ParseCommandWords | src/debugadapter.ts:1396-1398 | a spelling followed by space-separated words selects that command with exactly those words |
| DebugConsole.SwitchArg | src/debugadapter.ts:1797-1810 | only enable, disable and status are accepted, as the first word; anything else, a missing word included, throws "Unknown argument: '…'" |
| DebugConsole.SwitchArgAccepts | src/debugadapter.ts:1797-1810 | each of the three words is accepted whatever follows |
| DebugConsole.SwitchCommand | src/debugadapter.ts:1797-1817 | accepted exactly when the switch is; the setting becomes on for enable, off for disable and stays for status; the reply names the new setting |
| DebugConsole.LogpointCommand | src/debugadapter.ts:1766-1780 | accepted exactly when the switch is; the group is the second word when there is one |
| DebugConsole.StateCommand | src/debugadapter.ts:2012-2077 | an accepted action is spelled by the first words; save, restore and clear always carry a non-empty name; the missing-name error comes exactly when the first word is save, restore or clear and the second is empty or missing; the unknown-argument error comes exactly when the first word is none of the five actions |
| DebugConsole.StateCommandWords | src/debugadapter.ts:2012-2073 | the words of each action are read back as that action, whatever words follow them |
| DebugConsole.StateNameMissing | src/debugadapter.ts:2015-2017 | save, restore or clear followed by an empty or missing name throws the missing-name error, whatever follows |
| DebugConsole.DebugCommand | src/debugadapter.ts:2086-2091 | `-dbg` always throws |
| DebugConsole.ExecCommand | src/debugadapter.ts:1664-1672 | the output goes to a view exactly when the first word is `-view`; the command line passed on, with `-view` in front when it was given, is the joined words again; `-view` alone passes on the empty command line |
| DebugConsole.EvalCommand | src/debugadapter.ts:1633-1655 | an empty expression throws "Expression expected."; the command succeeds exactly when the expression is non-empty and evaluates |
| DebugConsole.EvalShowsValue | src/debugadapter.ts:1642-1654 | the reply starts with the decimal value and a comma, and the hexadecimal field after it reads back as the value |
| DebugConsole.DescribeShowsValue | src/debugadapter.ts:1645-1654 | the same for the formatted value on its own |
| DebugConsole.SplitRange | src/debugadapter.ts:1886 | the match is a prefix of the token; the start part holds no sign; a sign is captured exactly when the token holds one; the tail runs up to the first line terminator after the sign, or to the end of the token |
| DebugConsole.ParseRange | src/debugadapter.ts:1886-1904 | an accepted range has a positive count and starts at the parsed start text; a start text that does not parse throws "Expected slot but got: '…'" with it; after a sign, a count text that does not parse throws "Can't parse: '…'" with it |
| DebugConsole.RangeSingle | src/debugadapter.ts:1890-1894 | `a` is the single entry (a, 1) |
| DebugConsole.RangePlus | src/debugadapter.ts:1895-1904 | `a+n` is (a, n), refused with "Not allowed count" unless n > 0; a line break after n ends the match, and the text after it is ignored |
| DebugConsole.RangeMinus | src/debugadapter.ts:1895-1904 | `a-b` is (a, b+1-a), refused with "Not allowed count" unless b ≥ a; a line break after b ends the match, and the text after it is ignored |
| DebugConsole.TrailingCheck | src/debugadapter.ts:1910-1921 | succeeds exactly when the first following word (or `0`) and the second (or `1`) are both values; otherwise "Expected slot but got: '…'" for the first, and "Expected count but got: '…'" for the second when the first is a value |
| DebugConsole.RangeListOk | src/debugadapter.ts:1880-1921 | an accepted list has one pair per token before the first empty one, in token order, each with a positive count, and the trailing words passed their check |
| DebugConsole.RangeListAccepts | src/debugadapter.ts:1880-1921 | when every token before the first empty one parses and the trailing check passes, the list is accepted |
| DebugConsole.RangeListFirstError | src/debugadapter.ts:1880-1904 | the first token that fails decides the error |
| DebugConsole.RangeListIgnoresRest | src/debugadapter.ts:1880-1921 | words beyond the two after the first empty token are never looked at |
| DebugConsole.Flatten | src/debugadapter.ts:1906-1907 | twice as many numbers as ranges; start and count of range i at 2i and 2i+1 |
| DebugConsole.ParseRanges | src/debugadapter.ts:1880-1921 | the loop's result is the flattened range list |
| DebugConsole.SpritesCommand | src/debugadapter.ts:1938-2004 | only on a ZX Next; without arguments the title is 'Visible Sprites' and no list is given; otherwise the title repeats the arguments and the list is the parsed ranges |
| DebugConsole.PatternsCommand | src/debugadapter.ts:1863-1930 | only on a ZX Next; without arguments the title is 'Sprite Patterns: 0-63' with the list [0, 64]; otherwise the title repeats the arguments and the list is the parsed ranges |
| DebugConsole.MemDumpArgs | src/debugadapter.ts:1723-1747 | no words and an odd number of words are errors, the latter naming the last word; otherwise it succeeds exactly when every word evaluates, giving one value per word in word order; else the first word that cannot be evaluated fails |
| DebugConsole.SearchLines | src/debugadapter.ts:899-911 | -1 exactly when no line's leading hex number is the address; otherwise the last such line |
| DebugConsole.NoLeadingHex | src/debugadapter.ts:906-907 | a line without a leading hex number, after white space and a sign, never matches |

## Left out

- The instruction decoder of the `z80js` base class is not part of this model. One
  instruction is a `Step` value. It carries a cost in T-states, the register file the
  instruction leaves, the bytes it stores in order, and whether it defers interrupts.
  Any register file and any stores are allowed, so `Execute` says nothing about which
  instruction does what. Reads of I/O ports are not modelled.
- `ZxMemory` and `MemBuffer` are not part of this model. Memory is an array of 65536
  bytes. A 16-bit access is little-endian and its second byte wraps at 10000h. A byte
  store keeps the low 8 bits, as a `Uint8Array` does. The buffer is a byte sequence with
  a read cursor. Reading past its end is excluded by a precondition.
- Z80.Z80Cpu.FetchByte: `pc++` is taken modulo 10000h. The same holds for `sp-=2` in
  `Z80.Interrupt`, the HALT step-over `pc++` in `Z80.ReturnAddress` and `pc++` in
  `Z80.Z80Cpu.DoBitIndexed`. The source does not mask
  these in the lines shown; whether the base class does is not known here.
- Z80.Z80Cpu.LdIndexed and Z80.Z80Cpu.LdIndexedImmediate: the source passes the raw sum
  `ix+offset` to `write8`, which can lie below 0 or above FFFFh. The model wraps it
  modulo 10000h (in Z80.Z80Cpu.Write8). How the base class treats such an address is
  not known here.
- Z80.Z80Cpu.DoBitIndexed: the flags the base bit test computes are a parameter. The
  bit test itself is in the base class.
- Snapshots.Decode and Z80.Z80Cpu.Deserialize: IFF1 and IFF2 are booleans, so a snapshot
  byte other than 0 or 1 restores as "set" and is saved again as 1. The source keeps the
  raw byte and writes it back unchanged. Only a hand-made snapshot holds such a byte.
- Z80.Z80Cpu.constructor: the registers the base class initialises start at zero. The
  load-window size is a parameter instead of the launch setting.
- `getRegisterData` and `getHistoryData` are left out. Their layout belongs to a
  register class that is not part of this model.
- `INTERRUPT_TIME` is the floating-point product 0.02·3500000. It is modelled as the
  integer 70000. `cpuLoad` is an exact real, so floating-point rounding is not modelled.
- JavaScript numbers are modelled as unbounded integers. Precision loss above 2^53 is not
  modelled.
- The comment at src/remotes/zxsimulator/z80cpu.ts:230 says the one-byte registers take
  two bytes. The code writes one byte each, and the model follows the code.
- `evalHelp` is left out: it returns a fixed help text.
- `evalLabel` is left out: it searches the label store, which is not part of this model.
- DebugConsole.SwitchCommand: the list of WPMEM watchpoints appended to the `-WPMEM`
  reply is not modelled. The setting after enable/disable is assumed to be the one
  requested.
- DebugConsole.LogpointCommand: the per-group status listing of the reply is not modelled.
- DebugConsole.StateCommand: the file operations and the replies of save, restore, list,
  clear and clearall are not modelled. Only which action is chosen, and the errors, are.
- DebugConsole.ExecCommand: the call to the remote and the text view are not modelled.
- DebugConsole.MemDumpArgs: opening the memory-dump view with the blocks is not modelled.
- DebugConsole.EvalCommand and DebugConsole.MemDumpArgs: `None` from the evaluator means
  the evaluation threw. An evaluation that yields NaN without throwing is not modelled;
  the source would show or use NaN there.
- DebugConsole.SpritesCommand and DebugConsole.PatternsCommand: the views themselves are
  not modelled. The regular expression always matches, so its "Can't parse" branch for a
  non-match cannot happen and is left out.
- The rest of the debug adapter is left out: stack, scopes, variables, stepping,
  disassembly display and `evaluateRequest`. These talk to VS Code or the remote.
  The CSpect remote and the remote factory are left out too. They hold socket I/O,
  timers and a constructor table.
- The frame reassembly of the DZRP buffer remote is not part of this model.
