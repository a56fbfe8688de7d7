# Ultrasight trace session: a Dafny model

Ultrasight traces a child process through CoreSight. The main thread starts the hardware, waits for
the child and shuts everything down; a fetcher thread watches the trace buffer (ETB/ETR), stops the
child when the buffer fills, switches the sinks off, copies the bytes to a growing host buffer,
switches the sinks on again and lets the child go on. At the end the host buffer is written to a
file. This project models that session and proves what it guarantees.

`dafny verify dfyconfig.toml` checks everything.

| file | contents |
|---|---|
| `TraceProtocol.dfy` | both threads, the child and the kernel as one transition system; every lock, unlock, condition wait, broadcast, kill, waitpid and device call is a label, and a run is a sequence of labels |
| `ProtocolInvariant.dfy` | the inductive invariant, clause by clause, and its preservation by every label |
| `ProtocolTheorems.dfy` | what holds in every reachable state and in every continuation |
| `ProtocolReads.dfy` | over every run, what the fetches deliver is what the reads returned; retries; the end of polling |
| `ProtocolEnding.dfy` | from which states an export can still be reached, both directions |
| `ProtocolWitnesses.dfy` | concrete runs: a complete session, a missed start, a fetcher stuck for ever, a failed round, an unclean exit, short and failed reads |
| `Common.dfy` | optional values and shared constants |
| `Chunks.dfy` | the exported file as a list of chunks |
| `AddressArithmetic.dfy` | `ALIGN_UP` as wrap-around addition and bit mask |
| `HostBuffer.dfy`, `TraceFetch.dfy`, `KsightDrain.dfy` | the host buffers: alignment, doubling, relocation, reads, errors |
| `Devices.dfy`, `DeviceSafety.dfy`, `CoreSight.dfy` | sources and sinks behind CSAL calls that may fail; enable, disable, retries |
| `Polling.dfy` | threshold and trigger of the polling loop |
| `CpuChoice.dfy` | the CPU list parser, the preferred CPU, the fallback |

## How the session is modelled

- The environment is closed: only the fetcher sends SIGSTOP and SIGCONT, `init_trace` and
  `start_trace` succeed, and a stopped child does not die. The child may exit with status 0, exit
  or die in any other way, or run for ever.
- `kill` fails with ESRCH exactly when the child has been reaped; on a zombie it succeeds and does
  nothing. It may also fail for another reason.
- After a SIGCONT, waitpid may or may not report a stop with signal SIGCONT. `WIFCONTINUED` does
  nothing.
- Condition waits may wake spuriously. Device calls and mremap may fail; a read may be short, or fail
  with a code from -1 to -7 that moves the cursor back.
- The unread bytes of the ETB are a sequence without a capacity; the hardware adds to it at any
  moment while the sink is on.
- mremap, read, CSAL and the topology files are function parameters, so a theorem for all their
  values is a theorem for every behaviour of theirs. The first and the last page of the address
  space are never mapped.

## Where the code differs from what it says

- The event slot holds one event. A short-lived child overwrites the start event before the fetcher
  looks (`MissedStart`), and a resume event can be overwritten by the stop event (`StuckAfterCont`).
- A SIGSTOP sent to a zombie succeeds, and the fetcher then waits for a suspend event that never
  comes (`StuckAfterStop`). `JoinReturnsIff` says exactly when `pthread_join` can return.
- A round that fails leaves the child stopped and the session open (`AbortIsFinal`,
  `AbortedSession`). A child that does not exit with status 0 keeps the parent in its loop
  (`UncleanIsFinal`, `UncleanSession`). `ExportReachableIff` says exactly from which states an export
  can still be reached: not after a failed round, an unclean exit, a SIGSTOP to a dead child, or a
  lost resume event, and from all others.
- `fetch_trace` adds a negative read result to the cursor and still returns 0. A code above -8 does
  no harm to the file unless it comes in the last fetch (`FetchAndExport`, `RealignIff`), where it
  takes bytes away (`LastBytesLost`, `MisreadExport`) or makes the size of the export negative
  (`NegativeExport`).
- The ksight path compares the result of mremap with NULL; a failure is not noticed. `DrainKsight`
  says exactly when that happens, and `MappingCanBeLost` that it can.
- `enable_cs_trace` never resets the error count: once an error is counted every further call fails
  until `disable_cs_trace` runs (`ErrorsBlockEnable`).
- `preferred_cpu = find_free_cpu() < 0` stores the comparison (`FallbackIff`), and the CPU list
  parser reads a range as its lower end (`ParseExactIff`), a number above 32 bits as its low bits
  (`CastWraps`) and the last number of a list without newline without its last digit
  (`UnterminatedLosesDigit`).
- With no ETF, or a large one, the polling threshold is the whole ETR, so the child is stopped only
  after the write pointer has wrapped (`LargeEtfFiresOnlyAfterWrap`).

## Model

| member | source | states |
|---|---|---|
| `ProtocolTheorems.InvAlways` | src/cs-trace.c:87-175 | the invariant holds after every run of parent, fetcher, child and kernel |
| `ProtocolTheorems.RoundSafety` | src/common.c:241-275 | in every interleaving, from the end of the suspend wait to SIGCONT, the child is stopped, the trace suspended, the parent's full disable not begun, and as many suspend events were written as stops sent |
| `ProtocolTheorems.SwitchSafety` | src/common.c:244-264 | the fetcher switches the sinks only while the child is stopped, the trace suspended and the shutdown not begun |
| `ProtocolTheorems.FetchSafety` | src/common.c:251-302 | the ETB is read only in a round with its sink off, or after the parent's disable has ended |
| `ProtocolTheorems.NeverRunsUntraced` | src/common.c:241-282 | from detach to its end the child never runs with the sinks off |
| `ProtocolTheorems.FreshSuspend` | src/common.c:231-242 | from a successful SIGSTOP to the end of its suspend wait exactly one suspend event is written: no stale event satisfies the wait |
| `ProtocolTheorems.StateEventCoherence` | src/common.c:164-199 | outside the state mutex the state/event pair is one of seven, and the unexpected-transition branch is never taken |
| `ProtocolTheorems.LockNesting` | src/common.c:141-199 | the only nesting of mutexes is state then event; a thread wanting any other mutex holds none |
| `ProtocolTheorems.NothingHeld` | src/common.c:289-308 | a fetcher that wants a mutex, sleeps on the condition or has ended, and a parent in waitpid, join or export, hold no mutex |
| `ProtocolTheorems.HolderMoves` | src/common.c:505-594 | a thread holding a mutex the other one wants can take a step, so threads never wait on each other in a cycle |
| `ProtocolTheorems.NoLostWakeup` | src/common.c:141-159 | a sleeper whose event is in the slot has been notified or the broadcast is the parent's next step |
| `ProtocolTheorems.FiniBound` | src/common.c:219-311 | after the fini event every fetcher step lowers a measure on its program counter, no other step raises it, and the two stuck waits are closed |
| `ProtocolTheorems.FetcherFinishes` | src/common.c:346-361 | after the fini event the fetcher takes at most 19 more steps in any continuation, unless it is in the suspend or resume wait, which it never leaves |
| `ProtocolTheorems.ByteConservation` | src/common.c:657-718 | bytes produced are, in order, fetched chunks and dropped remainders followed by the unread bytes; the host buffer is the layout of the fetched chunks, through failed reads too; with no remainders nothing is lost |
| `ProtocolReads.FetchesAsRead` | src/common.c:689-710 | over every run the fetched chunks have, in order, the lengths the reads returned, none for a negative result or a failed mremap, and the cursor stands before the end of the data by the code of the last fetch if that was negative, else not at all |
| `ProtocolReads.FetchEmpties` | src/common.c:708-712 | a fetch that returns 0 with the sink off leaves nothing in the ETB, so what a short read did not take is gone |
| `ProtocolReads.ParentTriesEight` | src/common.c:564-588 | in every interleaving the parent's disable is still being tried after seven failures and given up after the eighth |
| `ProtocolReads.FetcherTriesEight` | src/common.c:564-588 | the same for the fetcher's sinks-only disable in a round |
| `ProtocolReads.KillFailureEndsPolling` | src/common.c:219-239 | after kill fails in the polling loop, for whatever reason, no continuation sends another SIGSTOP or runs another round |
| `ProtocolTheorems.ExportDichotomy` | src/common.c:960-971 | at export the fetcher has ended, no round failed, and either it never saw the start and the buffer is empty, or it polled once and its last fetch is done, with nothing left in the ETB if the disable and that fetch succeeded; the export is the buffer up to where the last read left the cursor |
| `ProtocolTheorems.ExportComplete` | src/common.c:431-459 | with complete reads the fetched chunks are exactly the bytes produced, and with whole eight-byte words so is the export, short only of what a failed last read took back |
| `ProtocolTheorems.LastFetchAfterDisable` | src/common.c:289-302 | polling is entered at most once, and the last fetch starts only after the parent's disable has ended |
| `ProtocolEnding.ExportReachableIff` | src/cs-trace.c:126-175 | from every reachable state, an export can still be reached if and only if no round has failed, the child has not ended other than with status 0, no SIGSTOP waits on a dead child, and no resume event the fetcher waits for is lost |
| `ProtocolEnding.JoinReturnsIff` | src/common.c:960-968 | after the fini event the fetcher can reach its end if and only if it is not in the suspend or the resume wait |
| `ProtocolEnding.AbortIsFinal` | src/common.c:246-264 | after a failed round, in every continuation the child stays stopped, the trace suspended and nothing is exported |
| `ProtocolEnding.UncleanIsFinal` | src/cs-trace.c:134-155 | after an exit other than status 0, in every continuation the parent never stops, finalises or exports the trace |
| `ProtocolWitnesses.MissedStart` | src/common.c:346-358 | for any bytes produced there is a session that ends with an empty file |
| `ProtocolWitnesses.StuckAfterStop` | src/common.c:219-242 | there is a session in which the fetcher probes a child that is already a zombie, and a continuation to a join that waits for it in the suspend wait |
| `ProtocolWitnesses.StuckAfterCont` | src/common.c:268-279 | there is a session in which the resume event is in the slot while the fetcher waits for it, and a continuation to the join in which the fetcher still waits |
| `ProtocolWitnesses.ContinuedIgnored` | src/cs-trace.c:156-157 | there is a session in which WIFCONTINUED is collected for a running child and the trace stays suspended, the fetcher waiting |
| `ProtocolWitnesses.AbortedSession` | src/common.c:251-257 | for any bytes produced there is a session whose round fails |
| `ProtocolWitnesses.UncleanSession` | src/cs-trace.c:134-155 | for any bytes produced there is a session whose child was reaped with another status |
| `ProtocolWitnesses.NegativeExport` | src/common.c:701-710 | there is a session whose last fetch returns 0 and whose export has a negative size |
| `ProtocolWitnesses.ShortRead` | src/common.c:702-710 | for any bytes produced and any n there is a session whose file is their first n bytes and which reports success |
| `ProtocolWitnesses.MisreadExport` | src/common.c:701-710 | for any bytes and any code from 1 to 7 there is a session whose file is those bytes, padded, without the last code bytes, or has a negative size |
| `ProtocolWitnesses.CompleteSession` | src/cs-trace.c:87-175 | there is a session with one round and a last fetch whose file is the layout of both chunks |
| `Chunks.ChunkIntact` | src/common.c:678-710 | every chunk sits intact at an offset that is a multiple of eight, whatever is fetched later |
| `Chunks.LayoutLength` | src/common.c:678-710 | padding removes nothing and adds at most seven bytes a fetch |
| `Chunks.PlainIff` | src/common.c:678-710 | the file is the plain concatenation exactly when every chunk but the last ends at a multiple of eight |
| `Chunks.MultiplesOfEight` | src/common.c:678-710 | and so when all chunk lengths are multiples of eight |
| `AddressArithmetic.AlignUpExact` | include/utils.h:22 | for every word size and power of two, the masked sum is the least multiple at or above its argument exactly when the addition does not overflow, else 0 |
| `AddressArithmetic.AlignEight` | src/common.c:678 | on a 64-bit address above a page-aligned base, aligning moves the offset to the next multiple of eight |
| `AddressArithmetic.AlignUpRelocates` | src/common.c:694-698 | aligning commutes with moving the buffer between page-aligned bases |
| `HostBuffer.Buffer.constructor` | src/common.c:368-380 | a fresh mapping is empty, zero and of the default size |
| `HostBuffer.Buffer.Align` | src/common.c:677-678 | aligning the cursor, also one a failed read left up to seven bytes below the buffer, keeps the bytes before it, zero-padded, and stays inside the mapping |
| `HostBuffer.Buffer.Double` | src/common.c:685-698 | a successful mremap keeps offset and contents, doubles the size and zero-fills |
| `HostBuffer.Buffer.Write` | src/common.c:701-710 | bytes written at the cursor are appended to the contents |
| `TraceFetch.GrowthIsLeast` | src/common.c:683-699 | the final size is the smallest power-of-two multiple of the old one that fits, the old size or less than twice the need |
| `HostBuffer.DoubledIsPower` | src/common.c:685 | k doublings multiply the size by 2^k |
| `HostBuffer.ValidIsUsable` | src/common.c:678 | without a failed read the next fetch starts after the contents, zero-padded |
| `TraceFetch.Grow` | src/common.c:680-699 | the loop ends, never underflows the remaining room, keeps offset and contents, and succeeds exactly when every mremap it needs does; a failure leaves a well-formed buffer at the size reached |
| `TraceFetch.MoveBack` | src/common.c:701-710 | after a negative read the next fetch finds the same bytes exactly when the code is above -8, and the earlier contents stay below the cursor exactly when it is within the alignment gap |
| `TraceFetch.FetchTrace` | src/common.c:657-718 | the return code, the new size and the new contents of a fetch in every case: success, short read, failed mremap, read error, and after a read error |
| `TraceFetch.RealignIff` | src/common.c:678-710 | after a read error the next fetch starts at the same offset exactly when the code is above -8 |
| `TraceFetch.FetchOnce` | src/common.c:657-718 | a fetch returns 0 exactly when every doubling it needs is granted, else -1; what it adds, the new size and where the cursor is left |
| `TraceFetch.FetchAndExport` | src/common.c:431-463 | for any sequence of fetches with reads above -8: the return code of each, the size after each, and the export as the layout of what each took, cut short exactly by a failed last read |
| `TraceFetch.GenerousKernel` | src/common.c:684-712 | with a kernel that grants every size below twice the demand all fetches return 0 and the chunks are exactly what the reads delivered |
| `TraceFetch.ExportTrace` | src/common.c:455 | the export is everything before the cursor, or a negative size when a failed read left the cursor below the buffer |
| `TraceFetch.LastBytesLost` | src/common.c:701-710 | a read of one word followed by a read error of -code exports the word without its last code bytes |
| `KsightDrain.MakeRoom` | src/common.c:745-757 | one doubling always makes room for a 72-byte event and keeps the contents; it fails exactly when room is short and mremap refuses, and then changes nothing |
| `KsightDrain.ReadAll` | src/common.c:744-777 | the loop ends and appends everything read, in order; it loses the mapping exactly when a doubling it asks for is refused; otherwise its result is negative exactly when the last read failed |
| `KsightDrain.DrainKsight` | src/common.c:723-785 | the buffer ends as its padded old contents followed by all reads, on errors too; every read had room for an event; the drain returns exactly when no doubling it asks for is refused |
| `KsightDrain.GrantedNeverLoses` | src/common.c:744-757 | a kernel that grants one doubling before each read never loses the mapping |
| `KsightDrain.MappingCanBeLost` | src/common.c:748-749 | there are a kernel and a device with whole events that lose the mapping |
| `KsightDrain.EventsStayWhole` | include/ksight.h:28-41 | with whole-event reads a buffer of whole events is never padded and stays a multiple of 72 bytes |
| `DeviceSafety.EnableStepsSafe` | src/config.c:325-404 | at every step of a full enable from sources off, early returns included, a source is on only if all sinks are on or an error is counted |
| `DeviceSafety.DisableStepsSafe` | src/config.c:409-461 | the same at every step of a full disable from sinks on |
| `DeviceSafety.SinkFailureSparesSources` | src/config.c:334-371 | a failed call for the ETR, the TPIU or an ETF ends enable_trace at that call with the sources as they were |
| `DeviceSafety.StmFailureSparesStm` | src/config.c:373-384 | if a set-up call of the STM is the first to fail, enable_trace ends there with the ETMs on and the STM as it was |
| `DeviceSafety.EnableSinkOrder` | src/config.c:334-371 | at every step of both enables an ETF is on only if the ETR is on or an error is counted |
| `DeviceSafety.DisableSinkOrder` | src/config.c:417-444 | at every step of both disables the ETR is off only if all ETFs are off or an error is counted |
| `DeviceSafety.SourcesKept` | src/config.c:466-563 | whatever fails, a routine without source operations leaves the sources as they were |
| `Devices.NoErrorIdeal` | src/config.c:396-403 | a routine that ends with the error count at zero performed every switch it set out to perform, and started at zero |
| `Devices.GatePassed` | src/config.c:453-460 | a routine that returns 0 ends with the error count at zero and the ideal state |
| `Devices.IdealEnable` | src/config.c:334-386 | the ideal full enable switches every source and sink on, for all CPU and sink counts |
| `Devices.IdealDisable` | src/config.c:417-444 | the ideal full disable switches every source and sink off |
| `Devices.IdealSinksOn` | src/config.c:475-506 | the ideal sinks-only enable switches exactly the sinks on |
| `Devices.IdealSinksOff` | src/config.c:533-552 | the ideal sinks-only disable switches exactly the sinks off |
| `CoreSight.Session.EnableTrace` | src/config.c:325-404 | the routine executes the enable script, early error returns included, and returns -1 exactly when it halts |
| `CoreSight.Session.DisableTrace` | src/config.c:409-461 | the same for the full disable |
| `CoreSight.Session.EnableTraceSinksOnly` | src/config.c:466-519 | the same for the sinks-only enable |
| `CoreSight.Session.DisableTraceSinksOnly` | src/config.c:524-563 | the same for the sinks-only disable |
| `CoreSight.Session.ConfigureTrace` | src/config.c:246-320 | the routine executes the configure script, with the sticky error check after every ETM and at the end, and returns -1 exactly when it halts |
| `CoreSight.ConfigureView` | src/config.c:256-319 | a successful configuration leaves the ETR and the TPIU off, everything else as it was and the error count at zero |
| `CoreSight.ConfigureQuiet` | src/config.c:256-259 | from its third call on, the configuration runs with the ETR and the TPIU off and all else unchanged unless an error is counted |
| `CoreSight.RangeFailureStops` | src/config.c:288-302 | if the address range of a CPU is the first call to fail, configure_trace returns without another call |
| `CoreSight.FirstEnableSafe` | src/common.c:513-524 | at every step of configure and full enable from sources off, early returns included, a source is on only if all sinks are on or an error is counted |
| `CoreSight.RoundRestores` | src/common.c:556-594 | a sinks-only disable, however many attempts it took, and a sinks-only enable put the devices back exactly |
| `CoreSight.RoundsRestore` | src/config.c:466-563 | so does any number of successful rounds |
| `CoreSight.SessionDevices` | src/config.c:325-563 | full enable, any rounds, full disable: the rounds leave exactly the state of the enable with everything on, the disable everything off |
| `CoreSight.StaleCountCostsOneAttempt` | src/common.c:566-588 | with only a stale error count in the way the first attempt fails and the second succeeds |
| `CoreSight.Session.DisableCsTrace` | src/common.c:556-594 | exactly min(first successful attempt, 8) attempts, negative if and only if all eight fail, error count always zero; a success leaves everything off, or exactly the sinks with the flag false, and then no attempt touches a source |
| `CoreSight.FlushFirst` | src/config.c:417-460 | with the ETR on the first call of both disables is the flush, whose failure alone fails the attempt while everything is still switched off; the number of calls |
| `CoreSight.NoFlushWhenOff` | src/config.c:34-54 | with the ETR off there is no flush |
| `CoreSight.Session.EnableCsTrace` | src/common.c:505-551 | the first success switches everything on; a later call touches no source, makes only the sinks-only calls and on success switches exactly the sinks on; when is_first_trace drops; it fails exactly when errors are counted |
| `CoreSight.EnableRun` | src/common.c:513-532 | how many calls each path makes when all work, and what it leaves |
| `CoreSight.EnableFailsIff` | src/common.c:505-551 | a call fails exactly when it leaves errors counted, and always when it finds some |
| `CoreSight.ErrorsBlockEnable` | src/common.c:505-551 | once errors are counted every further call fails on the same path, however often it is repeated |
| `CoreSight.FailureBlocksEnable` | src/common.c:505-551 | so one failed call makes all later ones fail until the count is reset |
| `CoreSight.SinksOnlyAfterPair` | src/common.c:513-532 | over any sequence of calls the sinks-only path runs only after a configure and full-enable pair succeeded |
| `CoreSight.NoPairYet` | src/common.c:513-524 | while is_first_trace holds, no pair has succeeded and the sinks-only path never ran |
| `CoreSight.NeverAgain` | src/common.c:513-532 | once a pair has succeeded every later call is sinks-only |
| `Polling.FiresIff` | src/common.c:217-227 | inside the ETR window the unsigned test fires exactly when the pointer moved forward by more than the threshold or lies below its start |
| `Polling.ThresholdFitsIff` | src/common.c:322-341 | the threshold exceeds the ETR exactly when an ETF is smaller than the ETR and larger than half of it |
| `Polling.PowersOfTwoFit` | src/common.c:322-341 | with power-of-two sizes the threshold never exceeds the ETR |
| `Polling.SmallEtfFires` | src/common.c:329-331 | with a smaller ETF the test fires exactly past twice its size or after a wrap |
| `Polling.HalfEtfFiresOnlyAfterWrap` | src/common.c:329-331 | with an ETF of at least half the ETR it fires only after a wrap |
| `Polling.LargeEtfFiresOnlyAfterWrap` | src/common.c:332-341 | without a smaller ETF the test fires only after the pointer wrapped |
| `CpuChoice.SetCoreCpus` | src/utils.c:471-487 | the token loop computes the parsed set, or fails on overflow |
| `CpuChoice.ParsedIs` | src/utils.c:471-487 | on any file the parser fails exactly when a token saturates strtol, and else adds exactly the CPUs its tokens name |
| `CpuChoice.DecimalValue` | src/utils.c:479 | a decimal number is read exactly, or saturates |
| `CpuChoice.CastWraps` | src/utils.c:484 | a number above 32 bits counts as its low bits |
| `CpuChoice.UnterminatedLosesDigit` | src/utils.c:475-478 | a list without newline loses the last digit of its last number |
| `CpuChoice.ParsePrinted` | src/utils.c:471-487 | parsing a printed kernel CPU list gives the lower ends of its entries |
| `CpuChoice.ParseExactIff` | src/utils.c:471-487 | which is the set the list denotes exactly when it has no ranges |
| `CpuChoice.RangeLosesSiblings` | src/utils.c:479-484 | the list 0-3 is read as CPU 0 alone |
| `CpuChoice.CoreCpusIs` | src/utils.c:539-546 | the core set fails exactly when a list of the mask cannot be opened or overflows, and else is exactly what those lists name |
| `CpuChoice.GetPreferredCpu` | src/utils.c:504-570 | -1 if a set or the affinity is missing or any list of the mask is unreadable; else the least CPU that no list of the mask names, -1 if and only if there is none |
| `CpuChoice.PreferredIsLeastAlone` | src/utils.c:535-558 | with range-free lists that is the least CPU sharing no core with the mask, and -1 if and only if there is none |
| `CpuChoice.FallbackIff` | src/common.c:874-884 | the chosen CPU is the intended one exactly when it was given, preferred, or CPU 0 is the free one |
| `CpuChoice.FallbackCpu` | src/common.c:878-883 | without option and preferred CPU, CPU 0 is taken when a free CPU was found and CPU 1 when none was |

## Left out

- CSAL registers, ETMv4 comparators and flush bits: each call is an operation that works or counts an error.
- `cs_shutdown`: what it does to the devices after a failed enable is not modelled; the view stays as it was.
- A missing (NULL) trace sink: every registered sink is present. Unsupported ETM versions are not modelled.
- Restarting a session after `stop_trace(true)`: one session is modelled, as the parent runs it.
- Runs with the fetcher off: one thread, one fetch after the disable, no new claim beyond `FetchTrace`.
- ByteConservation: reads in the session fail with codes from -1 to -7 only; from -8 on a failed read moves the next fetch back over fetched data, as `MoveBack` and `FetchTrace` state.
- Overflow of the ETR between polls: it depends on time and hardware rates.
- find_free_cpu: the walk over /proc; its result is a parameter of the fallback.
- `setup_map_info` and the mapping of executables, u-dma-buf and ksight sysfs files, STM mapping: plumbing.
- Option parsing, printing, timing, fork, exec and ptrace set-up before the first stop.
- Failure of `export_trace` to create its file.
- A child killed while it is stopped: the fetcher is the only sender of signals.
