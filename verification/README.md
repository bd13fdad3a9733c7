# bangbang host tooling, verified

A Dafny model of the parts of bangbang's host tooling that are easiest to get wrong, with proofs that hold for
every input, every interleaving or every run.

- **Guest programs.** The AArch64 encoders, the label assembler, the two-pass ELF layout and the chunked writes
  (`A64`, `Machine`, `Assembler`, `Syscalls`, `Layout`, `GuestElf`). On top of them one whole program, serial
  receive, is proved correct instruction by instruction on its assembled bytes, under every kernel that keeps the
  Linux call convention (`Blocks`, `Templates`, `SerialRx`, `SerialRun`, `SerialImage`). What a kernel makes of an
  image is a loader over its bytes alone (`ElfLoader`); every program starts as that loader leaves it (`LoadedImage`).
- **Two-CPU guest programs.** Hotplug and progress are transition systems over their shared accesses and system calls
  (`Hotplug`, `Progress`), with invariants over every interleaving. Their emitted instructions, executed by two CPUs
  over one memory, refine these systems, so the guarantees hold of the shipped bytes (`Duo`, `DuoOps`, `DuoCode`,
  `HotplugPieces`, `HotplugTable`, `HotplugCode`, `HotplugRun`, `HotplugImage`, `ProgressCode`, `ProgressRun`,
  `ProgressImage`, data in `SmpData`, `PairImage`). Every system call of every run is logged with its arguments and
  the memory it was made in, and the logs are what a script of literal numbers and bytes says (`Calls`, `HotplugCalls`,
  `HotplugLog`, `ProgressCalls`, `ProgressLog`).
- **Archives.** The newc writer and the parser of written archives, with Python's reading of hexadecimal (`Cpio`,
  `PythonInt`).
- **Elevated handoff.** Wire records and argument vectors, sequenced sessions, process groups and the signals sent to
  them, the supervisor that owns them, and its agreement with the controller (`Wire`, `Session`, `ProcessGroup`,
  `Handoff`).
- **Artifacts.** The crash-safe recipe cache and no-clobber publication (`RecipeCache`, `Publication`).
- **Certification.** The case matrix and its result document (`Certification`), the staged barrier on both sides of
  the control file (`StagedSector`, `StagedBarrier`, `StagedRun`), and the output observer with the supervision of
  the signed process (`Observer`, `Supervision`).

`Bytes` holds bytes, words and integer codecs. Each source object that updates fields in place is a class proved
against functions of its old state; protocols and threads are transition systems whose runs are sequences of events.
`dafny verify dfyconfig.toml` takes all files together.

Instruction semantics follow chapter C6 of the Arm Architecture Reference Manual, DDI 0487. What the operating
system does is a parameter or an arbitrary choice: results of system calls, process death, crashes, scheduling.
For the two-CPU programs the kernel's conventions are spelled out in `Duo.Replies`: a call changes x0 only, `getcpu`
changes at most the word it is given and no other call changes memory, `clone` returns no 0 to its caller, and `openat`
returns no descriptor that is already open. SHA-256 is a parameter; the recipe cache and publication assume that
digests do not collide, so that files with equal digests have equal bytes, the wire formats assume only its length.

Five properties one would expect turn out to hold only under a condition. Each has a counterexample and its exact
condition.

- The archive parser does not halt on every input: `int(field, 16)` accepts a sign, and a negative file size moves
  the offset back (`Cpio.ParserCanLoop`). It halts exactly when no offset is visited twice (`Cpio.HaltsExactly`), and
  on all bytes whose headers point forward (`Cpio.ForwardHeadersHalt`).
- The recipe cache returns an image built for the caller's own record in every history exactly for callers that name
  the eight caller keys and no others, or that no sidecar can satisfy; the comparison ignores keys the caller leaves
  out (`RecipeCache.OtherRecordReturned`, `RecipeCache.AlwaysOwnExactly`).
- The observer's window agrees with the whole stream for markers of 1 to 65537 bytes and for no other length
  (`Observer.IndependentExactly`).
- Terminating a provider whose group is seen alive does not always start with TERM: the probe made just before the
  signal may say otherwise, and then a wait that runs out leads to KILL alone (`ProcessGroup.TermSkipped`). TERM comes
  first exactly when that probe sees the group alive too (`ProcessGroup.FirstSignal`).
- The staged protocol is safe for every timing if and only if publications and commands alternate; all three shipped
  scenarios publish twice in a row once, so they rely on the host polling in time (`StagedRun.SafeExactly`,
  `StagedRun.ShippedScriptsCanFail`).

## Model

| member | source | states |
|---|---|---|
| `A64.DecodeEncode` | scripts/build-guest-boot-initrd.py:183-299 | Every instruction the encoders can produce decodes back to itself, so no two instructions share a word |
| `Machine.ConditionsMean` | scripts/build-guest-boot-initrd.py:319-324 | What every condition code means after a comparison of any width, in unsigned and in signed terms, stated without the flags |
| `Assembler.StepAgrees` | scripts/build-guest-boot-initrd.py:331-359 | One machine step on the assembled bytes is one step of the labelled program: every branch lands on its label |
| `Assembler.AssemblyPreservesRuns` | scripts/build-guest-boot-initrd.py:302-359 | From every state and under every kernel, the assembled bytes and the labelled program pass through the same states for any number of steps |
| `Assembler.CodeBuilder.constructor` | scripts/build-guest-boot-initrd.py:303-307 | An empty builder describes the empty program |
| `Assembler.CodeBuilder.Emit` | scripts/build-guest-boot-initrd.py:309-312 | Whole words are appended to the program; a partial word is refused and changes nothing |
| `Assembler.CodeBuilder.Label` | scripts/build-guest-boot-initrd.py:314-317 | A new label names the next word; a known one is refused and keeps its place |
| `Assembler.CodeBuilder.BranchCond` | scripts/build-guest-boot-initrd.py:319-324 | A conditional branch is recorded at the next word exactly when its condition fits four bits |
| `Assembler.CodeBuilder.Branch` | scripts/build-guest-boot-initrd.py:326-329 | An unconditional branch is recorded at the next word |
| `Assembler.CodeBuilder.Build` | scripts/build-guest-boot-initrd.py:331-359 | Returns the assembled program exactly when every branch names a known label in reach; otherwise the defect of the first broken branch, conditional ones first; never a misaligned target |
| `Assembler.CodeBuilder.PatchConditional` | scripts/build-guest-boot-initrd.py:332-345 | The in-place pass over conditional branches patches each exactly once and nothing else, or stops at the first broken one |
| `Assembler.CodeBuilder.PatchUnconditional` | scripts/build-guest-boot-initrd.py:346-359 | The in-place pass over unconditional branches patches each exactly once and nothing else, or stops at the first broken one |
| `Assembler.ResolveItem` | scripts/build-guest-boot-initrd.py:333-358 | Because labels sit on words, the alignment test never fires: a branch is refused exactly when its label is unknown or out of reach |
| `Syscalls.MovImmLoads` | scripts/build-guest-boot-initrd.py:195-203 | The four-instruction constant load leaves the value modulo 2^64 in its register and touches nothing else, for every integer |
| `Syscalls.WriteSyscallTraps` | scripts/build-guest-boot-initrd.py:362-371 | Executing one emitted write traps exactly once, with number, descriptor, address and length in place |
| `Syscalls.ChunksCover` | scripts/build-guest-boot-initrd.py:374-381 | The chunks of a marker are non-empty, at most 16 bytes, and concatenate to the marker with no gap or overlap |
| `Syscalls.WriteSyscalls` | scripts/build-guest-boot-initrd.py:374-381 | The emitting loop produces exactly one write per chunk, in order |
| `Syscalls.ChunkCallsTrace` | scripts/build-guest-boot-initrd.py:362-381 | Executing the emitted code makes exactly those writes in order, whatever each write returns |
| `Layout.Addresses` | scripts/build-guest-boot-initrd.py:579-585 | The address loop gives every datum the load base plus everything before it |
| `Layout.ImageHolds` | scripts/build-guest-boot-initrd.py:588-626 | In the finished image the address of each datum holds exactly its bytes and the bytes at the code offset are the code; where a kernel maps and enters it is the row of `ElfLoader.ElfLoads` |
| `ElfLoader.ElfLoads` | scripts/build-guest-boot-initrd.py:588-626 | For every code and data, a loader that reads only the bytes of the image accepts it as a 64-bit little-endian AArch64 executable, maps exactly the image at 0x400000 to be read, written and executed, and enters at 0x400100, where the code lies |
| `ElfLoader.ElfRest` | scripts/build-guest-boot-initrd.py:588-626 | The header bytes no loader reads are those of an image without sections, flags or a special ABI, and only zeros lie between headers and code |
| `LoadedImage.EntersCode` | scripts/build-guest-boot-initrd.py:588-626 | As that loader leaves them, the program counter is at the first instruction and memory holds the image and, at the code address, the code |
| `Layout.DataDisjoint` | scripts/build-guest-boot-initrd.py:579-585 | Data never overlap each other or the code |
| `Layout.ShapeIndependent` | scripts/build-guest-boot-initrd.py:401-553 | Two address assignments give programs of the same length with the same branches and labels; only constants differ |
| `Layout.EmitOp` | scripts/build-guest-boot-initrd.py:401-553 | One builder call appends exactly the items it stands for, and fails only on a repeated label |
| `Layout.BuildCode` | scripts/build-guest-boot-initrd.py:401-553 | A program function returns the assembly of its builder calls exactly when its labels are distinct and its branches resolve |
| `GuestElf.SizingPassIsFixedPoint` | scripts/build-guest-boot-initrd.py:629-638 | The size measured with placeholder addresses is the one code size whose own layout yields code of that size, even when data lengths depend on it |
| `GuestElf.BuildElf` | scripts/build-guest-boot-initrd.py:2764-2777 | The size-changed error is unreachable; failure means a bad label, a bad branch or a misaligned stack, and success is the image of the fixed-point program, whose every header field `ElfLoader.ElfLoads` and `ElfLoader.ElfRest` fix |
| `GuestElf.LoadedAddressHoldsDatum` | scripts/build-guest-boot-initrd.py:2414-2427 | Running the final bytes from any address load leaves the address at which the final image holds that datum |
| `SmpData.StackAligned` | scripts/build-guest-boot-initrd.py:2430-2453 | For every code size the padded child stack starts and ends on a 16-byte boundary |
| `SmpData.HotplugWordsAligned` | scripts/build-guest-boot-initrd.py:2430-2453 | Every word the hotplug CPUs share with LDAR and STLR is four bytes on a four-byte boundary |
| `SmpData.ProgressWordsAligned` | scripts/build-guest-boot-initrd.py:2222-2238 | The same for the progress program |
| `SmpData.StackedWellNamed` | scripts/build-guest-boot-initrd.py:2456-2462 | Stack padding changes lengths with the code size but never names, so the two-pass layout applies |
| `SmpData.StackCheckPasses` | scripts/build-guest-boot-initrd.py:2773-2777 | The stack alignment error of the two-CPU images is unreachable |
| `Hotplug.RunInv` | scripts/build-guest-boot-initrd.py:2510-2761 | The inductive invariant of both CPUs, shared words and registers over every interleaving and every kernel answer |
| `Hotplug.NeverThawed` | scripts/build-guest-boot-initrd.py:2591-2627 | The freeze comparison never reaches the failure path, in any run |
| `Hotplug.FrozenStep` | scripts/build-guest-boot-initrd.py:2591-2749 | From the quiesced flag until the parent stores 3, no step of either CPU changes the progress word |
| `Hotplug.ProgressFrozen` | scripts/build-guest-boot-initrd.py:2591-2749 | Over any frozen stretch of a run progress is the same at both ends |
| `Hotplug.StartStep` | scripts/build-guest-boot-initrd.py:2510-2761 | Although both CPUs write it, the start word only ever moves up by one |
| `Hotplug.StartCountsUp` | scripts/build-guest-boot-initrd.py:2510-2761 | The start word takes 0, 1, 2, 3, 4 each at most once and in order |
| `Hotplug.OneIncrementAfterThree` | scripts/build-guest-boot-initrd.py:2683-2749 | After reading 3 the child increments progress at most once; it has done so exactly when it stored 4 and left the counting code, and then only past its second affinity test |
| `Hotplug.RunOutput` | scripts/build-guest-boot-initrd.py:2510-2761 | Markers come out in the order READY, OFF, DONE, each at most once, in every run |
| `Hotplug.DoneOnlyAfterReentry` | scripts/build-guest-boot-initrd.py:2638-2749 | DONE implies that CPU 1 was confirmed again, stored 4, and progress is the frozen baseline plus one |
| `Hotplug.RunMarkers` | scripts/build-guest-boot-initrd.py:2510-2761 | What each marker stands for in the shared words, also after a failure: CPU 0 where it was pinned, progress at the baseline plus the one increment, CPU 1 confirmed before 4 is stored |
| `HotplugPieces.MoveCompare` | scripts/build-guest-boot-initrd.py:2621-2627 | The second load of a comparison and the branch after it go where equality of progress and baseline says |
| `HotplugPieces.MoveQuiesce` | scripts/build-guest-boot-initrd.py:2608-2620 | One yield of the quiescence loop counts down by one and leaves the loop exactly at the end |
| `HotplugCode.ChildDispatches` | scripts/build-guest-boot-initrd.py:2683-2701 | The child’s load of the start word and its three comparisons are one load and one decision of the transition system |
| `HotplugRun.Refines` | scripts/build-guest-boot-initrd.py:2510-2761 | Every interleaved run of the emitted instructions by two CPUs is a run of the transition system, with the same words and the same output |
| `HotplugRun.HotplugRuns` | scripts/build-guest-boot-initrd.py:2510-2761 | In every interleaving nothing faults, the terminal shows a prefix of READY, OFF, DONE, and from OFF on the progress word is the saved baseline or, once 4 is stored, one past it |
| `HotplugRun.HotplugAsks` | scripts/build-guest-boot-initrd.py:2430-2761 | In every interleaving the calls of each CPU, with all arguments and the bytes they point to, are a prefix of its literal script, cut short only by a failure message and exit; yields come only where the script waits |
| `HotplugLog.ParentCallsStep` | scripts/build-guest-boot-initrd.py:2510-2681 | Each call of the parent is the one its place in the script names, made with the start word that place requires |
| `HotplugLog.ChildCallsStep` | scripts/build-guest-boot-initrd.py:2683-2761 | The same for the child |
| `HotplugImage.BuildHotplugElf` | scripts/build-guest-boot-initrd.py:2764-2777 | Building the hotplug image never fails and yields exactly the image the next row loads and executes |
| `HotplugImage.HotplugBarrier` | scripts/build-guest-boot-initrd.py:2430-2777 | The same for the shipped bytes as the loader enters them, executed by two CPUs in any interleaving under any kernel that keeps the call conventions; DONE means that 4 is stored, CPU 1 was confirmed and progress is the baseline plus one; and every system call of either CPU is the next of its literal script, with number, arguments and bytes: mount of sysfs, both affinity masks, clone, the online file opened and 0x30 written before start becomes 2, 0x31 before it becomes 3, each marker |
| `HotplugImage.SettingExists` | scripts/build-guest-boot-initrd.py:2764-2777 | Such kernels, CPUs and memories exist |
| `Progress.RunInv` | scripts/build-guest-boot-initrd.py:2250-2411 | The inductive invariant of the progress program over every interleaving |
| `Progress.StartBarrier` | scripts/build-guest-boot-initrd.py:2250-2411 | No token of either CPU precedes READY, READY comes once, and only after both CPUs passed their own affinity tests, each with its own CPU read |
| `Duo.AssemblyPreservesPairs` | scripts/build-guest-boot-initrd.py:302-359 | Assembling preserves every interleaved run of two CPUs over one memory, from every state and under every kernel |
| `Duo.OnItsWay` | scripts/build-guest-boot-initrd.py:302-359 | Between memory accesses and system calls an instruction changes nothing the other CPU can see |
| `DuoCode.PrintingIsWriteSyscalls` | scripts/build-guest-boot-initrd.py:362-381 | A marker of at most 16 bytes is one write of five instructions, as the chunked writer emits it |
| `DuoCode.MoveGetCpu` | scripts/build-guest-boot-initrd.py:2271-2283 | The getcpu call changes at most the observed word and goes on exactly when it returns 0 |
| `DuoCode.MoveCheckCpu` | scripts/build-guest-boot-initrd.py:2284-2287 | The affinity test goes on exactly when the word read is the expected CPU |
| `ProgressRun.Refines` | scripts/build-guest-boot-initrd.py:2314-2411 | Every interleaved run of the emitted instructions by two CPUs is a run of the transition system, with the same words and the same output |
| `ProgressRun.StartBarrierRuns` | scripts/build-guest-boot-initrd.py:2314-2411 | In every interleaving nothing faults, the terminal shows nothing or READY and then tokens, and then both CPUs’ own readings in memory are 0 and 1 |
| `ProgressRun.ProgressAsks` | scripts/build-guest-boot-initrd.py:2222-2411 | In every interleaving the calls of each CPU, with all arguments and the bytes they point to, follow its literal script: affinity masks 1 and 2, clone, getcpu, READY, tokens and one-millisecond sleeps |
| `ProgressImage.BuildProgressElf` | scripts/build-guest-boot-initrd.py:2414-2427 | Building the progress image never fails and yields exactly the image the next row loads and executes |
| `ProgressImage.ProgressBarrier` | scripts/build-guest-boot-initrd.py:2222-2427 | The same for the shipped bytes as the loader enters them, executed by two CPUs in any interleaving under any kernel that keeps the call conventions, with every call of either CPU the next of its literal script |
| `ProgressImage.SettingExists` | scripts/build-guest-boot-initrd.py:2414-2427 | Such kernels, CPUs and memories exist |
| `Blocks.AssemblyPreservesLogs` | scripts/build-guest-boot-initrd.py:331-359 | Assembling preserves the log of system calls, with their data and results, of every run |
| `Blocks.PrintRuns` | scripts/build-guest-boot-initrd.py:374-381 | Executing an emitted marker sends the marker whole and in order in pieces of at most 16 bytes, whatever the writes return, and keeps memory and x9 to x30 |
| `Templates.OpRuns` | scripts/build-guest-boot-initrd.py:309-312 | Straight-line builder output runs from its own place to the next call’s place, logging exactly its own system calls |
| `Templates.JumpRuns` | scripts/build-guest-boot-initrd.py:319-329 | A branch leads to its label’s place when taken and to the next call otherwise |
| `Templates.TemplateLinked` | scripts/build-guest-boot-initrd.py:331-359 | Code under 2^18 words whose branches name its labels always builds |
| `SerialRun.JudgeExactly` | scripts/build-guest-boot-initrd.py:1572-1645 | The verdict of the reads is success exactly when no read failed and the bytes delivered, in order, are the expected input, and waiting exactly when none failed and bytes are missing |
| `SerialRun.Opening` | scripts/build-guest-boot-initrd.py:1529-1542 | The first instructions make one openat of the terminal path for reading and writing, relative to the working directory, and go to the failure path exactly on a negative result |
| `SerialRun.Configuring` | scripts/build-guest-boot-initrd.py:1543-1556 | Then one TCSETS ioctl on that descriptor with the termios of the data, keeping the descriptor, with failure exactly on a non-zero result |
| `SerialRun.Announcing` | scripts/build-guest-boot-initrd.py:1557-1572 | The ready marker is sent and the read loop entered with nothing received and everything missing |
| `SerialRun.ReadCall` | scripts/build-guest-boot-initrd.py:1572-1584 | Each read asks for exactly the missing bytes at exactly their place; a short read extends the received prefix in the buffer and changes no other byte |
| `SerialRun.Advancing` | scripts/build-guest-boot-initrd.py:1587-1596 | Address and count advance by the bytes delivered without wrapping; the loop repeats exactly while bytes are missing |
| `SerialRun.CompareTurn` | scripts/build-guest-boot-initrd.py:1606-1627 | One compared byte leads to failure, to the next byte, or out of the loop, by equality and position |
| `SerialRun.CompareRun` | scripts/build-guest-boot-initrd.py:1597-1627 | The byte loop reaches the success path exactly when the whole buffer equals the expected input |
| `SerialRun.ReadTurn` | scripts/build-guest-boot-initrd.py:1572-1645 | One turn of the read loop: its single request, and where it leads for every answer |
| `SerialRun.ReadLoop` | scripts/build-guest-boot-initrd.py:1572-1645 | After any number of answers the machine is still reading exactly when they leave it waiting, and has otherwise sent exactly the right marker |
| `SerialRun.FromEntry` | scripts/build-guest-boot-initrd.py:1527-1646 | The same from the first instruction, including the failures of setup |
| `SerialRun.EndIsFinal` | scripts/build-guest-boot-initrd.py:1644-1646 | At the end the machine stays put and makes no further call, for any number of steps |
| `SerialImage.AlwaysLinks` | scripts/build-guest-boot-initrd.py:1527-1646 | The serial program builds for all its texts under 4096 bytes |
| `SerialImage.WorldLoaded` | scripts/build-guest-boot-initrd.py:1506-1524 | Loading the image puts every datum at its computed address, with the buffer apart from the constants |
| `SerialImage.SizeIsFixed` | scripts/build-guest-boot-initrd.py:1649-1660 | The sizing pass of the serial program gives its fixed point |
| `SerialImage.BuildSerialElf` | scripts/build-guest-boot-initrd.py:1649-1660 | Building the serial image never fails and yields exactly the image the next row loads and executes |
| `SerialImage.SerialReceive` | scripts/build-guest-boot-initrd.py:1506-1660 | Executing the shipped bytes as the loader enters them, under any kernel keeping the Linux call convention: the log starts with openat and ioctl with literal arguments whose addresses hold the path and the termios, then come only reads and writes of 1 to 16 bytes to descriptor 1; the ready marker precedes the first read; requests never underflow, the buffer holds exactly the bytes delivered and no other memory changes, the success marker is sent exactly when no read failed and the bytes delivered are the input, and afterwards nothing more happens |
| `SerialImage.SettingExists` | scripts/build-guest-boot-initrd.py:1649-1660 | The conditions of that row can be met: some kernel keeps the convention, and some CPU and memory are as the loader leaves them |
| `SerialImage.ShippedIsValid` | scripts/build-guest-boot-initrd.py:1506-1515 | The shipped path, termios, 104-byte input and markers, byte for byte, are among the texts covered |
| `Cpio.Parse` | scripts/build-guest-boot-initrd.py:2971-3032 | The parser’s loop computes the turn-by-turn specification on every byte string, including Python’s signed, spaced and underscored hexadecimal and negative slices |
| `PythonInt.HexIntExactly` | scripts/build-guest-boot-initrd.py:2998-3001 | The scanner accepts exactly the texts that denote an integer to Python, stated without scanning: space, a sign, a prefix, digits with single underscores, space; and gives that integer |
| `Cpio.TurnStarts` | scripts/build-guest-boot-initrd.py:2975-3001 | At every offset a turn fails for want of a header exactly when 110 bytes are not there, for its magic exactly when that is not 070701, for a field exactly when one denotes no integer |
| `Cpio.TurnExactly` | scripts/build-guest-boot-initrd.py:3002-3032 | With sizes that are not negative, what a turn comes to, for every byte string: which error, which name and payload at which offsets, where the next turn starts, and when the trailer ends the archive |
| `Cpio.HexFieldRoundTrip` | scripts/build-guest-boot-initrd.py:2811-2837 | Every field that fits eight characters, negative ones included, reads back as itself |
| `Cpio.FitsExactly` | scripts/build-guest-boot-initrd.py:2811-2837 | A written field is eight characters exactly for the stated range |
| `Cpio.HeaderRoundTrip` | scripts/build-guest-boot-initrd.py:2811-2865 | A written header parses to the fields written |
| `Cpio.EntryLayout` | scripts/build-guest-boot-initrd.py:2811-2865 | A written entry, byte by byte: the magic, eight hexadecimal digits of inode, mode, links, data size, device numbers and name length at their offsets, the digit zero in every other field, the name and its NUL at 110, the data at the next multiple of four, zeros elsewhere |
| `Cpio.EntryTurn` | scripts/build-guest-boot-initrd.py:2840-2865 | At any aligned offset one parser turn consumes exactly one written entry and yields its name, its data and, field by field, inode, mode, links, sizes and device numbers |
| `Cpio.ArchiveRoundTrip` | scripts/build-guest-boot-initrd.py:2803-2865 | Parsing a padded archive returns exactly the files written, in order, with every header field as given, and then the trailer |
| `Cpio.NonNegativeSizesHalt` | scripts/build-guest-boot-initrd.py:2971-3032 | The parser halts, within one turn per byte, on every input in whose bytes no header carries a negative size |
| `Cpio.ParserCanLoop` | scripts/build-guest-boot-initrd.py:2971-3032 | A 111-byte input with a negative file size keeps the parser in its loop for ever |
| `Cpio.HaltsExactly` | scripts/build-guest-boot-initrd.py:2971-3032 | For every input the parser halts if and only if its chain of headers visits no offset twice |
| `Cpio.HaltsInTime` | scripts/build-guest-boot-initrd.py:2971-3032 | And if it halts, it does so within twice the input length plus one turns |
| `Cpio.ForwardHalts` | scripts/build-guest-boot-initrd.py:2971-3032 | If every turn it takes moves forward it halts within one turn per byte |
| `Cpio.ForwardHeadersHalt` | scripts/build-guest-boot-initrd.py:2971-3032 | A condition on the bytes alone: if every header in them, reached or not, points forward, the parser halts |
| `Wire.DecodeEncode` | scripts/elevated_vmnet_handoff.py:918-1008 | Encoding accepts exactly the records within the field limits, and decoding inverts it |
| `Wire.EncodeDecode` | scripts/elevated_vmnet_handoff.py:961-1008 | Every accepted byte string is the one encoding of the record it decodes to |
| `Wire.RecordLayout` | scripts/elevated_vmnet_handoff.py:929-958 | An encoded record, byte by byte: which records are accepted, every field big-endian at its offset, the digest over prefix and payload, the payload, zeros |
| `Wire.EncodeArguments` | scripts/elevated_vmnet_handoff.py:1169-1185 | The encoding loop accepts exactly the valid vectors and produces their payload |
| `Wire.DecodeArguments` | scripts/elevated_vmnet_handoff.py:1188-1213 | The decoding loop computes the payload grammar on every byte string |
| `Wire.ArgumentsDecodeEncode` | scripts/elevated_vmnet_handoff.py:1169-1213 | Decoding an encoded vector gives it back |
| `Wire.ArgumentsEncodeDecode` | scripts/elevated_vmnet_handoff.py:1169-1213 | Every accepted payload is the encoding of the vector it decodes to |
| `Wire.ArgumentsFitRecord` | scripts/elevated_vmnet_handoff.py:1169-1185 | A vector accepted for encoding always fits one record |
| `Session.SessionSocket.constructor` | scripts/elevated_vmnet_handoff.py:1103-1110 | A socket starts at sequence 1 in both directions |
| `Session.SessionSocket.Send` | scripts/elevated_vmnet_handoff.py:1112-1141 | A send numbers the record and advances, closing at 2^64 - 1; anything refused changes nothing |
| `Session.SessionSocket.Receive` | scripts/elevated_vmnet_handoff.py:1143-1166 | A record is accepted exactly with the peer’s role, the next number and the bound session, or as the first welcome; anything else changes nothing |
| `Session.OrderedDelivery` | scripts/elevated_vmnet_handoff.py:1102-1166 | Over a channel that drops, repeats and reorders, what a side accepted is always a prefix of what its peer sent |
| `Session.SendsExactly` | scripts/elevated_vmnet_handoff.py:1112-1141 | In every run a side is closed exactly once it sent or accepted 2^64 - 1 records, and an open side that knows the session sends exactly the encodable messages the transport takes, numbered next |
| `Session.AcceptsExactly` | scripts/elevated_vmnet_handoff.py:1143-1166 | In every run an open side accepts exactly the next record its peer sent, the first one of an unbound side only if it is an allowed welcome |
| `Session.WelcomeFirst` | scripts/elevated_vmnet_handoff.py:1143-1166 | An unbound side accepts the welcome first and sends nothing before it |
| `Session.TerminalIsFinal` | scripts/elevated_vmnet_handoff.py:1112-1166 | After the last sequence number an endpoint never sends or accepts again |
| `ProcessGroup.Provider.Absent` | scripts/elevated_vmnet_handoff.py:1723-1732 | Absence is reported only of a group with no live process |
| `ProcessGroup.Provider.SendCleanup` | scripts/elevated_vmnet_handoff.py:1735-1744 | At most the one signal asked for is sent, exactly when one more probe sees the group alive, and only while the leader is unreaped |
| `ProcessGroup.Provider.SignalProvider` | scripts/elevated_vmnet_handoff.py:1747-1788 | A log of every identity check, probe, wait, signal and collected status of the call: each signal is sent exactly when due, and the call ends only where nothing is due; a normal return, exactly after a final probe found no such process, means reaped and gone, and for KILL the status -9; a reaped provider is refused |
| `ProcessGroup.Provider.TerminateProvider` | scripts/elevated_vmnet_handoff.py:1791-1828 | The same log: TERM exactly when two probes see our own group alive, KILL exactly when a wait ran out once and a probe still does; a normal return, exactly after a final probe found no such process, means the leader is reaped and the group gone, and reports force exactly when the first probe saw the group alive or a wait ran out; a reaped provider is never signalled |
| `ProcessGroup.Provider.Quell` | scripts/elevated_vmnet_handoff.py:1763-1775 | After the requested signal come at most TERM, for a KILL request only, then KILL, each after a wait that ran out |
| `ProcessGroup.TerminationOrder` | scripts/elevated_vmnet_handoff.py:1810-1817 | In every termination KILL directly follows a wait that ended with the group alive and a probe that sees it alive; TERM is sent exactly when the first two probes of our own group do |
| `ProcessGroup.QuietIsFinal` | scripts/elevated_vmnet_handoff.py:1763-1817 | A group that a wait of the call saw quiet is sent nothing more by that call |
| `ProcessGroup.FirstSignal` | scripts/elevated_vmnet_handoff.py:1735-1817 | If the first probe sees our group alive, the first signal of a termination is TERM if and only if the next probe does too |
| `ProcessGroup.TermSkipped` | scripts/elevated_vmnet_handoff.py:1735-1817 | A log in which it is not: alive, then not, then alive until the wait runs out, then KILL |
| `Handoff.ProviderSupervisor.Start` | scripts/elevated_vmnet_handoff.py:1890-1956 | A child that does not lead its own group is terminated and gets no handle, leaving the table as it was; past eight live providers or the last handle nothing is spawned; every child is remembered |
| `Handoff.ProviderSupervisor.ServeSpawnRequest` | scripts/elevated_vmnet_handoff.py:2020-2038 | A spawn answers with the next handle of a new child in the table, or leaves the table as it was |
| `Handoff.ProviderSupervisor.ServePollRequest` | scripts/elevated_vmnet_handoff.py:1958-1965 | A status told is the one the leader died with, of a leader reaped and a group gone; a poll that raises may have reaped |
| `Handoff.ProviderSupervisor.ServeWaitRequest` | scripts/elevated_vmnet_handoff.py:1967-1978 | A status told after waiting is the one the leader died with; a lost lease raises |
| `Handoff.ProviderSupervisor.ServeSignalRequest` | scripts/elevated_vmnet_handoff.py:2057-2062 | The status told after TERM or KILL is the one the leader died with; exactly one call is made on the named provider, which sends exactly what is due |
| `Handoff.ProviderSupervisor.ServeCloseRequest` | scripts/elevated_vmnet_handoff.py:2063-2077 | A handle is dropped only when its leader is reaped and its group gone, and CLOSED carries the status the leader died with; the named provider is terminated by exactly one call, which sends exactly what is due |
| `Handoff.ProviderSupervisor.ServeRequest` | scripts/elevated_vmnet_handoff.py:2003-2084 | One served request answers as the request-reply specification says for what the operating system did, or raises; the table changes only as the answer says, and only owned providers change |
| `Handoff.ProviderSupervisor.ServeAll` | scripts/elevated_vmnet_handoff.py:2003-2090 | Over every session, however processes and the kernel behave, every signal ever sent to any child ever started went to a group pinned by its unreaped leader and was due in its call, and a normal finish leaves every child that ever got a handle reaped and its group gone |
| `Handoff.ProviderSupervisor.Cleanup` | scripts/elevated_vmnet_handoff.py:1996-2001 | Providers are popped and terminated, highest handle first, up to the first failure, each by exactly one call that sends exactly what is due, and no other is touched; without a failure the table is empty, every provider reaped and gone, and force is reported exactly when some group was seen alive or outlasted a wait |
| `Handoff.ControllerProxy.Accept` | scripts/elevated_vmnet_handoff.py:2154-2237 | The proxy takes exactly the well-formed reply to its call |
| `Handoff.ExchangeCases` | scripts/elevated_vmnet_handoff.py:2135-2237 | What each completed kind of exchange does to both tables at once |
| `Handoff.ExchangeExactly` | scripts/elevated_vmnet_handoff.py:1958-2237 | In every run an exchange completes if and only if the proxy may make the call and the table and the operating system allow it, call by call; so no check of either side, of the session or of the proxy refuses a well-formed request or its reply |
| `Handoff.TablesAgree` | scripts/elevated_vmnet_handoff.py:1890-2237 | After every completed exchange of every run both sides hold the same handles, at most eight, and handles given out are 1, 2, 3 and so on, never reused |
| `Handoff.ClosedStatusAgrees` | scripts/elevated_vmnet_handoff.py:2206-2220 | A CLOSED status equals every status reported for that handle before, so the proxy’s own comparison never fails |
| `Handoff.FinishedMeansEmpty` | scripts/elevated_vmnet_handoff.py:2222-2237 | FINISHED is exchanged only with both tables empty |
| `RecipeCache.ReuseIsMatched` | scripts/guest_artifact_policy.py:1186-1226 | An image that passes the reuse test is, byte for byte, one a checked build made, for this record or for a full record whose sidecar agrees with it, whatever happened in between |
| `RecipeCache.FullRecordIsOwn` | scripts/guest_artifact_policy.py:1159-1226 | For a caller that names the eight keys, agreement means the image was built for exactly its own record |
| `RecipeCache.RunInv` | scripts/guest_artifact_policy.py:761-1271 | The invariant of image, sidecar, lock and processes over every history of concurrent calls, crashes and power losses |
| `RecipeCache.ReturnedWasBuilt` | scripts/guest_artifact_policy.py:1186-1271 | Whenever a call that named the eight keys returns, the image in place was built for exactly its own record and passed the filesystem test, even after a crash between the two replaces |
| `RecipeCache.OtherRecordReturned` | scripts/guest_artifact_policy.py:1159-1226 | For every other record that some sidecar can satisfy there is a history in which the call returns an image built for another record |
| `RecipeCache.SecondCall` | scripts/guest_artifact_policy.py:1186-1271 | Such a history: a first caller builds, a second whose partial record agrees gets the first one’s image |
| `RecipeCache.AlwaysOwnExactly` | scripts/guest_artifact_policy.py:1159-1271 | Every history returns only images built for the caller’s own record if and only if the caller names the eight keys and no others, or asks what no sidecar can say |
| `RecipeCache.MutualExclusion` | scripts/guest_artifact_policy.py:761-800 | At most one process is ever past the lock |
| `RecipeCache.CacheDirectory.Ensure` | scripts/guest_artifact_policy.py:1186-1271 | One call, stopped anywhere, keeps every sidecar owned by some checked build; it returns exactly when the image is reusable or a good build met no fault, and image, sidecar and builds afterwards are told for every place it may have stopped |
| `RecipeCache.CallPrepares` | scripts/guest_artifact_policy.py:1197-1252 | A call run alone on the machine returns the image it finds exactly when it is reusable and passes the check, else stages its checked build, else is over; no file has changed |
| `RecipeCache.CallPublishes` | scripts/guest_artifact_policy.py:1253-1259 | Publishing puts the image in place before the sidecar; a process that dies in between leaves only the image |
| `Publication.FileSystem.UnlinkOwned` | scripts/guest_artifact_policy.py:746-758 | A name is removed only while it is still our inode |
| `Publication.FileSystem.Rollback` | scripts/guest_artifact_policy.py:972-982 | Undoing removes the destination exactly when it is still our inode |
| `Publication.FileSystem.PublishStagedAbsent` | scripts/guest_artifact_policy.py:918-982 | Published means a free name now holds the staged inode and the stage name is gone; reused means identical bytes already there; failure restores the names unless the rollback itself failed; an existing destination is never altered. Without a fault of the system a regular stage is published exactly at a free name and reused exactly when allowed and identical, and every success met no fault |
| `Publication.FileSystem.WriteStage` | scripts/guest_artifact_policy.py:903-915 | A staged file holds exactly the data under a new inode and disturbs no other |
| `Publication.FileSystem.PublishGenerated` | scripts/guest_artifact_policy.py:985-1016 | Success means the destination holds exactly the bytes that matched the manifest; bytes that do not match fail and change nothing; an existing destination keeps its inode and bytes; without a fault the call publishes, reuses or collides by what is there, and leaves no stage behind |
| `Publication.FileSystem.PublishResult` | scripts/production_vmnet_certification.py:1108-1315 | Committed, exactly when the name was free and nothing failed, means it now holds the document and the stage name is gone; otherwise the names are as before, unless taking the file back failed, and then the document stays in place although the call raises; nothing else is ever altered |
| `Publication.FileSystem.Confirm` | scripts/production_vmnet_certification.py:1244-1276 | The checks between link and commit drop at most the stage name, and pass exactly when nothing failed |
| `Certification.ValidateCases` | scripts/production_vmnet_certification.py:896-949 | The validator accepts exactly the documents whose names, gating and verdict agree with their outcomes |
| `Certification.DocumentIsAcceptable` | scripts/production_vmnet_certification.py:4259-4346 | Every document the run makes is one the validator accepts |
| `Certification.RunCases` | scripts/production_vmnet_certification.py:4612-4666 | Up to the first case that raises, a case is gated exactly when it may be and its switch is off, and passed exactly when it is mandatory or switched on and ran; the first that raises, because its switch cannot be read or it was due and did not run, failed; none after it is decided |
| `Certification.Run` | scripts/production_vmnet_certification.py:4590-4712 | The run returns exactly when its document was committed and nothing it called raised; the outcomes are those of the previous row, or the last case is charged with the recheck after cleanup, and all blocked if setup broke; the document is committed exactly when setup completed, its other fields are valid, the name is free and nothing fails; one in place is acceptable, and says passed exactly on return unless publication raised and could not take its file back |
| `Certification.FinalRecheck` | scripts/production_vmnet_certification.py:4683-4696 | If only the recheck after cleanup fails, the last case is charged; otherwise the outcomes stay those of the case loop |
| `StagedSector.DecodeEncode` | scripts/guest/staged_vmnet_certification.py:193-255 | Encoding accepts exactly the valid records, and decoding inverts it |
| `StagedSector.EncodeDecode` | scripts/guest/staged_vmnet_certification.py:226-255 | A sector that decodes to a record is its only encoding, and only zeros read as empty |
| `StagedSector.RecordLayout` | scripts/guest/staged_vmnet_certification.py:193-223 | A record sector, byte by byte: which records are accepted, magic, version, role, scenario, kind, big-endian sequence, nonce, digest, zeros |
| `StagedSector.HeaderLayout` | scripts/guest/staged_vmnet_certification.py:151-162 | The header sector, byte by byte, with the cycles of each scenario |
| `StagedSector.HeaderExactly` | scripts/guest/staged_vmnet_certification.py:151-184 | A sector decodes to this scenario’s header exactly when it is the one the host writes |
| `StagedBarrier.WatchAcceptsExactly` | scripts/production_vmnet_elevated.py:1342-1400 | Against a guest that writes anything, a wait accepts exactly when some poll shows the one encoding of the expected status and all earlier polls showed nothing new; it times out exactly when no poll did |
| `StagedBarrier.RecordNumbers` | scripts/guest/staged_vmnet_certification.py:40-116 | Every status and command record of the three scenarios in numbers, the command counts and the failure kinds |
| `StagedBarrier.Barrier.constructor` | scripts/production_vmnet_elevated.py:1198-1231 | A new barrier has accepted nothing and issued nothing |
| `StagedBarrier.OpenExisting` | scripts/production_vmnet_elevated.py:1218-1231 | An existing control file is taken as it is exactly when it has the right size |
| `StagedBarrier.Barrier.Command` | scripts/production_vmnet_elevated.py:1270-1325 | Commands reach the file as 1, 2, 3 and so on, each at most once; a write that lands but is reported failed leaves every later call refused |
| `StagedBarrier.Barrier.Wait` | scripts/production_vmnet_elevated.py:1327-1400 | The statuses accepted are always a prefix of the scenario graph; a refused call or poll accepts nothing |
| `StagedBarrier.Barrier.AssertTerminal` | scripts/production_vmnet_elevated.py:1402-1464 | Passes exactly when the file is byte for byte that of the finished scenario and host state agrees; then the whole graph was accepted once in order and exactly the allowed commands were issued |
| `StagedBarrier.Drive` | scripts/production_vmnet_elevated.py:1198-1464 | Over any sequence of host calls, good or bad, with the guest writing anything in between, accepted statuses only grow along the graph and commands only count up, and a final pass means the whole graph and all commands once |
| `StagedRun.RunKeepsInv` | scripts/guest/staged_vmnet_certification.py:329-430 | Over every interleaving of host and guest, the sectors hold what was written last and neither side overtakes what it waits for |
| `StagedRun.StepFailsExactly` | scripts/guest/staged_vmnet_certification.py:329-430 | In every run of every script a side’s next step fails exactly when a record meant for it was overwritten unread |
| `StagedRun.AlternatingProgress` | scripts/guest/staged_vmnet_certification.py:329-430 | With publications and commands alternating, no run fails and some side can always advance until both are done |
| `StagedRun.SafeExactly` | scripts/guest/staged_vmnet_certification.py:329-430 | No run of a script fails if and only if publications and commands alternate |
| `StagedRun.ScriptCounts` | scripts/guest/staged_vmnet_certification.py:584-640 | The three shipped scripts publish exactly their graph and await exactly their command count |
| `StagedRun.ShippedScriptsCanFail` | scripts/guest/staged_vmnet_certification.py:596-598 | Each shipped scenario publishes twice in a row once, so a host slow to poll fails a faithful guest |
| `Observer.ChunkIndependence` | scripts/run-macos-guest-workflow.py:656-669 | For every cutting of a stream into chunks, a marker of 1 to 65537 bytes is found exactly when it occurs in the whole stream |
| `Observer.IndependentExactly` | scripts/run-macos-guest-workflow.py:656-669 | The sliding window agrees with searching the whole stream for exactly those marker lengths |
| `Observer.OutputObserver.constructor` | scripts/run-macos-guest-workflow.py:637-654 | A new observer has seen nothing |
| `Observer.OutputObserver.Feed` | scripts/run-macos-guest-workflow.py:656-670 | A feed extends one stream and keeps the windows and all three flags |
| `Observer.OutputObserver.FlagsMean` | scripts/run-macos-guest-workflow.py:656-682 | Each flag is set exactly when its marker occurs in everything fed to one stream |
| `Supervision.RunInv` | scripts/run-macos-guest-workflow.py:685-800 | Between writer, pipe, pump and observer no byte is lost or reordered, and the supervisor’s view stays true while it holds the lock, over every interleaving |
| `Supervision.ReturnMeansSuccess` | scripts/run-macos-guest-workflow.py:744-800 | Once the wait has returned, the process exited with 0, both streams are closed, the success marker occurs in everything they carried and the failure marker does not |
| `Supervision.DecisionExactly` | scripts/run-macos-guest-workflow.py:744-800 | With the lock held, check, poll and decision raise on a pump error or an observed failure marker, wait until exit and both pumps’ ends, and then return exactly for status 0 and an observed success marker |
| `Supervision.SomeRunReturns` | scripts/run-macos-guest-workflow.py:685-800 | Some run does return: the process writes the success marker, closes its streams and exits with 0 |
| `Supervision.ReturnIsFinal` | scripts/run-macos-guest-workflow.py:773-800 | Nothing is written after that |

## Left out

- The other guest init programs: they use the same builder, layout and write loops and would add easy members.
- Instruction fetch: the code executed is the assembled code, apart from the memory that holds the image, so a program that overwrote itself would not be seen to.
- `_BoundedCapture`: a bounded append with two flags.
- Wall-clock deadlines: loops that poll until a deadline poll any number of times, and timeouts may strike at any poll.
- Asynchronous signals and the interruption boundary of the certification run.
- Register 31 of the A64 encodings: the generator never uses it, and it stands for two different registers.
- Weak memory: shared words are read with LDAR and written with STLR, so accesses interleave one at a time; the observed-CPU words are read with LDR by the CPU that wrote them.
- SerialImage.SerialReceive: covers every expected input of 1 to 65535 bytes and every other text under 4096 bytes, not only the shipped 104-byte input.
- Cpio.Parse: bounds the number of turns, because the source's loop need not halt; `Cpio.HaltsInTime` says which bound decides.
- UTF-8 validity of entry names is a parameter of the archive parser.
- GuestElf.LoadedAddressHoldsDatum: asks for distinct datum names; proved for the data of the three programs executed here.
- File modes, owners and link counts in the recipe cache and the control file appear as one outcome of opening them.
- The managed-cache branch of `publish_generated_bytes`, which goes through the recipe cache instead.
- Fields of the certification document other than cases, cleanup and verdict, whose validation is one parameter.
- Credentials, process identity capture and package staging of the elevated handoff.
- The JSON text of sidecars: serialising and parsing are parameters that invert each other.
