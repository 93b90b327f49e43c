# UmbralShift, modelled and proved

UmbralShift is a small preemptive kernel for the i386. Every kernel entry is atomic: it saves the
running process's registers, runs one service routine, and lets the scheduler pick who runs next.
This project models that machine and proves what holds of every step and of every run.

The model has four layers.

* **The kernel.** `KernelState` holds the whole kernel as a value (process table, queues,
  semaphores, mailboxes, page owners, clock, serial port) and one kernel entry as a function `Step`.
  `Partition`, `Pages`, `Invariant` and `Lifecycle` prove the kernel invariant; `Runs`, `Fairness`,
  `WakeUp`, `ChildExit`, `Semaphores`, `Mailboxes`, `Bystanders` and `Callers` prove what follows for
  each entry and over whole runs. `Queues`, `Tables` and `Kernel` are the same kernel in place, arrays and queues updated step
  by step as the source does, each routine proved to do to the abstract state what `KernelState` says.
* **Memory.** `Paging` models physical memory as bytes and the processor's two-level page walk (Intel
  SDM volume 3A, section 4.3), and Fork's writes in their order. `PageTables` proves what the tables
  it builds mean, and `ChildMemory` that they keep meaning it in every run.
* **The terminal.** `Port`, `Serial`, `SerialTraffic` and `SerialStall`: the IRQ3 handler against StdoutProc and
  StdinProc, each a step machine with a program point, interleaved in any order. `TerminalLink` and
  `TerminalRuns` show that kernel runs in which processes 4 and 5 follow those programs are runs of it.
* **The file service.** `Paths` resolves names over the cyclic directory graph, `Descriptors` serves
  requests of several clients over one descriptor table, `FileService` is the service in place, and
  `ShippedFiles` shows it, and its two failures, on the directories the kernel ships with.

`Step` takes a variant. `AsWritten` is the source. `Repaired` differs only in `WaitISR`: the scan
skips unowned pages, and the reap loop compares with the saved PID and clears its record. Every run
theorem holds for both variants over `SoundRun`s, which for `AsWritten` exclude a Wait that reaps.

## Where the code falls short, and exactly when

* `WaitISR` (isr.c:297-306) compares with an owner field it has just overwritten. A kernel entry
  keeps the invariant if and only if it is not a Wait whose scan finds a page
  (`Lifecycle.AsWrittenExactly`); `ReapRun.ReachableBreak` is a ten-event run from boot that breaks
  it; the same exit is then reported twice (`ChildExit.AsWrittenReportsTwice`).
* `Sleep` (isr.c:61): 32-bit wake times. `Sleep(n)` lasts 100 n ticks if and only if
  1 <= n <= 42949672 (`WakeUp.SleepLasts`); `Sleep(0)` sleeps for 2^32 ticks.
* `TX` (isr.c:159-176) takes a NUL character for an empty queue. "Idle means nothing is left to
  send" holds after a handler call if and only if no NULs strand the queue (`Serial.IdleExactly`).
  After any run that leaves StdoutProc blocked, the port is idle with no interrupt to come if and only
  if the last handler call of the run stranded something (`Serial.StallsExactly`). Two received NULs
  can bring that about (`SerialStall.NulsStall`), and it lasts until another character is received
  (`SerialStall.CharacterRevives`).
* `WaitISR` reads a dead child's exit value, and `ExitISR` writes a waiting parent's registers,
  through the address saved in that process's record, under the other process's page directory
  (isr.c:293-294, isr.c:324-325). For a frame on a forked process's stack this reaches the frame if
  and only if that directory is the kernel's and maps the address there (`PageTables.FrameSeenFrom`).
* `MyMemcpy` (toolfunc.c:85-92) writes a zero at index `size + 1` although its comment says it copies
  `size` bytes. In Fork that zero never leaves the child's block if and only if the image has at
  most 8190 bytes (`PageTables.SpillsExactly`), so a 4096-byte image is safe.
* `OpenObj` (FileService.c:194-211) keeps the descriptor of a failed open if and only if the name
  was unknown and a descriptor was free (`Descriptors.OpenLeaksExactly`); twenty misses leave none to
  open anything with (`ShippedFiles.TwentyMisses`).
* `FindNameSub` (FileService.c:346-373) takes a file's bytes for a directory if and only if a component
  before the last names a regular file (`Paths.WildExactly`), as in "help.txt/x"
  (`ShippedFiles.ThroughHelp`).
* Comments that the code does not bear out: FileService.c:341 promises a case-insensitive compare,
  the code compares characters and accepts any entry the component is a prefix of; FileService.c:296
  says "else -1", the code returns -103; FileService.h:68 says -1 marks an unused descriptor, the
  code uses -100. The model follows the code.

## Model

| member | source | states |
|---|---|---|
| Lifecycle.StepKeeps | main.c:134-213 | every kernel entry keeps the whole invariant: each PID 1..19 in at most one queue and in the one its state names, pages in whole blocks with zombies owning theirs, no blocked receiver with mail, no waiting parent with a dead child; and afterwards PID 0 runs only if nobody is ready |
| Lifecycle.AsWrittenExactly | isr.c:273-308 | with WaitISR as written, the invariant survives a kernel entry if and only if the entry is not a Wait whose scan finds a page |
| Lifecycle.ReapAsWrittenBreaks | isr.c:297-306 | after such a Wait the free queue holds a PID that is not free |
| Lifecycle.ScanFindsZombies | isr.c:280-285 | scanning page owners finds every dead child of the caller, because each still owns a page |
| Lifecycle.ForkGives | isr.c:210-240 | the child is the first free PID, whose record is blank and whose mailbox nobody waits on; it gets the lowest free block, and its record that block's address |
| Lifecycle.ExitKeeps | isr.c:310-339 | Exit keeps the invariant both as a zombie and when a waiting parent is released |
| ReapRun.ReachableBreak | isr.c:281-306 | a concrete run from boot after which WaitISR as written leaves a zombie's PID in the free queue, for any memory below the process table |
| Runs.ReachableInv | main.c:35-56 | the invariant holds in every state reachable from boot |
| Bystanders.ServeBystander | isr.c:16-339 | all that one entry can do to a process other than its caller: nothing, grant, birth, reaping by its parent, being told of a child's exit, waking at its time |
| Callers.StepAnswers | isr.c:56-308 | what a call other than Exit leaves its caller: the registers its service answers in, all others as they were, and a record in which only a tick counts time and only Sleep sets the alarm |
| Callers.ForkAnswers | isr.c:210-239 | Fork answers -1 if and only if no PID is free, and otherwise the PID of a process that did not exist before and is now the caller's ready child, owning the block that changed hands |
| Callers.ForksAreBirths | isr.c:195-270 | over every run, the PIDs that a process's Forks return are the children born to it, in order |
| Callers.YieldsExactly | main.c:118-132 | the running process keeps the processor if and only if its quantum lasts and its call neither blocks nor ends it; otherwise the head of the ready queue runs |
| Callers.TotalCounts | isr.c:42-54 | over every run, total_runtime grows by exactly the ticks that came while the process was running |
| Callers.StartStarts | main.c:170-177 | StartProc makes the first free PID a ready process without a parent, last in the ready queue and under the kernel's directory, or changes nothing |
| Callers.StartedSeeKernel | isr.c:16-40 | in every reachable state a live process without a parent uses the directory found at boot |
| Callers.IdleKept | main.c:118-132 | an entry changes of PID 0's record only its state and, if it was running, the registers saved |
| Callers.QueuesInOrder | toolfunc.c:16-44 | PIDs are reused in the order they were given back, and sleepers queue in the order they went to sleep |
| Callers.PortKept | main.c:134-213 | no entry but the serial interrupt changes the port record |
| Partition.QueueNeverFull | toolfunc.c:16-26 | no queue of PIDs ever fills, so EnQ's "queue is already full" is never reached for a PID |
| Partition.Pigeonhole | toolfunc.c:16-26 | distinct PIDs below n number less than n |
| Pages.LowestFiveAreABlock | isr.c:214-220 | the lowest five free pages are always one aligned block, the lowest free one |
| Pages.PoolOutlastsPids | isr.c:210-223 | Fork fails exactly when no PID is free: the "no free DRAM space" branch is dead |
| Pages.ClaimBlock | isr.c:232-234 | claiming those pages changes the owner of that block only |
| Pages.ReleaseBlock | isr.c:326-332 | giving back a process's pages frees its block and no other |
| Fairness.BoundedWaiting | isr.c:42-54 | a process at index k of the ready queue runs within (k + 1) * TIME_LIMIT ticks, whatever other interrupts occur |
| Fairness.StepProgress | main.c:118-132 | every step dispatches it or does not raise its measure, and each tick lowers the measure |
| Fairness.FullQuantum | isr.c:42-54 | a process that makes no call keeps the processor, its runtime counting the ticks, until the quantum is used up |
| Fairness.QuantumEnds | isr.c:47-53 | the tick that uses it up puts it behind the ready queue, ahead of the sleepers woken by that tick, with a new quantum, and the head of the queue runs |
| WakeUp.ExactWakeUp | main.c:140-153 | a process that called Sleep(n) stays asleep until the Delay(n)-th tick, which wakes it, and no earlier one does |
| WakeUp.SleepLasts | isr.c:60-65 | the delay is 100 n ticks if and only if 1 <= n <= 42949672 |
| WakeUp.DueKeepsOrder | main.c:144-153 | the pass over the sleep queue is stable: the woken, and those left asleep, keep their order |
| ChildExit.EveryExitReportedOnce | isr.c:273-339 | over every run, the exits of a process are the reports naming it to the process named as its parent, with its exit value, in order, plus the one still pending |
| ChildExit.ReportsFollowExits | isr.c:310-339 | from boot no exit is reported twice and at most one is unreported |
| ChildExit.WaitBlocksExactly | isr.c:287-292 | Wait, repaired, blocks if and only if the caller has no dead child |
| ChildExit.WaitReturnsChild | isr.c:293-306 | otherwise the PID and value it returns are those of a child it has just reaped |
| ChildExit.AsWrittenReportsTwice | isr.c:297-306 | as written a Wait reports a dead child with its exit value but gives back one page and keeps its record, and the next Wait reports it again and frees its PID again |
| ChildExit.AsWrittenReapsNobody | isr.c:281-306 | as written, a record below the table that looks like a dead child has an unowned page reported and freed as PID -1 |
| Semaphores.FirstComeFirstGranted | isr.c:78-98 | over every run of an allocated semaphore, waiters and requests are, in order, grants and waiters; count plus grants is count plus posts |
| Semaphores.StepConserves | isr.c:78-98 | the same account for one kernel entry, posts by the serial handler included |
| Semaphores.IdsAreDistinct | isr.c:67-76 | the free ids at the start of a run are those handed out, in order, then those still free |
| Semaphores.IdsFromBoot | isr.c:67-76 | from boot SemGet hands out 0, 1, 2, ..., each once, twenty at most |
| Mailboxes.ExactlyOnceInOrder | isr.c:100-140 | for each life of a process, messages held and then accepted are, in order, messages delivered and then held; a direct hand-off never overtakes |
| Mailboxes.BoxWaiterIsOwner | isr.c:123-140 | only the owner of a mailbox waits at it, alone, and only while it is empty |
| Mailboxes.RebornEmpty | isr.c:235-240 | a new process starts with an empty mailbox |
| Mailboxes.InboxKept | isr.c:100-140 | a message buffer changes only when its process receives |
| PageTables.ForkBuildsTables | isr.c:225-266 | after Fork the child's directory and sub-tables hold the entries intended, the stray zero notwithstanding |
| PageTables.WindowsMean | isr.c:251-266 | the walk maps 0x80000000..0x80000FFF to the code page and 0xBFFFF000..0xBFFFFFFF to the stack page, offset for offset |
| PageTables.ElsewhereAsKernel | isr.c:251-258 | at any other directory index the child sees what the kernel's directory maps |
| PageTables.WindowsDisjoint | isr.c:225-234 | windows of children in different blocks share no byte |
| PageTables.FrameSeenFrom | isr.c:293-294 | under another directory, a child's saved frame address reaches its frame if and only if that directory is the kernel's and maps it there |
| PageTables.FrameFound | isr.c:241-250 | the saved address 0xbfffffbc walks to the trap frame built at the top of the stack page, which holds the entry point, eflags, cs and the four data segment registers |
| PageTables.ImageLoaded | isr.c:242 | an image of at most one page appears in the code window byte for byte, unless it begins before the code page and reaches into it |
| PageTables.SpillsExactly | toolfunc.c:85-92 | Fork leaves every byte outside the child's block alone, for all memories, if and only if the image has at most 8190 bytes |
| ChildMemory.StepSpaces | isr.c:195-339 | one step of kernel and memory keeps every live child's tables right |
| ChildMemory.RunSpaces | isr.c:195-339 | so does every run |
| ChildMemory.ChildrenIsolated | isr.c:225-266 | in every reachable state the windows of two live children meet in no byte of memory |
| ChildMemory.OwnPagesSeen | isr.c:225-266 | in every reachable state a live child's code and stack windows mean the fourth and fifth page of the block it owns, offset for offset, and the rest of its space is the kernel's |
| Paging.MyMemcpy | toolfunc.c:85-92 | copies size bytes first to last, overlapping or not, writes one zero at size + 1, and changes nothing else; where no byte is overwritten before it is read the copy is exact |
| Paging.BuildChild | isr.c:242-266 | the writes of ForkISR, in its order, have the memory effect that the page-table theorems are about |
| Serial.OutputFaithful | proc.c:203-234 | every run keeps the account of the wire and of the credits |
| Serial.OutputIsText | proc.c:203-234 | over every run from start-up, what was sent for StdoutProc and then TX_buffer are the text passed, each '\n' as "\n\r", with what is in hand; free places, queued characters and the unused grant make Q_LEN |
| SerialTraffic.OutputIsGiven | proc.c:203-234 | and that text is the front part of the texts StdoutProc was given, all of them whenever it waits for the next |
| Serial.NeverDrops | proc.c:215-221 | when StdoutProc queues a character there is room for it |
| Serial.IdleExactly | isr.c:142-176 | when IRQ3ISR returns, TXRDY means both transmit buffers are empty, if and only if no NULs strand the queue |
| Serial.NoStall | isr.c:142-176 | from start-up, as long as no handler call strands anything, a blocked StdoutProc has the port busy and a transmit interrupt due |
| Serial.NoNulsNoStrand | isr.c:159-192 | no handler call strands anything while no NUL is received with the echo on |
| Serial.StallsExactly | isr.c:142-176 | after any run from start-up that leaves StdoutProc blocked, the port is idle with nothing due if and only if the last handler call of the run stranded something, a test on the port before that call; otherwise it is busy with an interrupt due |
| SerialStall.NulsStall | isr.c:159-192 | a concrete possible run from start-up, with two NULs received, ends blocked, idle and with no interrupt due |
| SerialStall.CharacterRevives | isr.c:142-192 | a received character ends such a stall unless it is itself an echoed NUL |
| Serial.InputFaithful | isr.c:178-192 | over every run receive credits match buffered characters, and nothing buffered is lost or reordered |
| Serial.GetFindsCharacter | proc.c:192-193 | StdinProc's DeQ returns -1 only after an overrun |
| Serial.LinesAreInput | proc.c:183-201 | without an overrun, the lines sent back, each with its '\r', the line being gathered and the buffer are exactly the characters received |
| SerialTraffic.InputIsLines | proc.c:183-201 | the same for the characters the device delivered, seven bits each, and no line sent back holds a '\r' |
| SerialTraffic.EchoIsInput | isr.c:178-192 | over every run from start-up in which the echo buffer does not overrun, the echoes on the wire and then those in the buffer are, NULs aside, each received '\r' as "\r\n" and each other received character if and only if the echo was on when it came, in order |
| TerminalLink.Irq3Shows | isr.c:142-192 | the kernel's IRQ3 service is the protocol machine's interrupt step |
| TerminalLink.WaitShows | isr.c:78-86 | the kernel's SemWait by the two processes is the protocol machine's wait |
| TerminalLink.OthersShow | isr.c:67-98 | semaphore calls on other ids leave the protocol's picture alone |
| TerminalRuns.KernelRunsShow | proc.c:183-234 | a kernel run in which processes 4 and 5 follow their programs, interleaved with any other entries, is a run the kernel may take and shows a possible run of the protocol |
| TerminalRuns.ShellPrepares | proc.c:58-65 | after the shell's two SemGet calls and its port record, kernel and protocol agree on the protocol's start |
| TerminalRuns.TerminalWorks | proc.c:183-234 | so in every such kernel run the output is the text given, a blocked StdoutProc finds the port idle exactly when the last handler call stranded something, and without overruns the echo is what was to be echoed and the lines are the input |
| Queues.IntQueue.EnQ | toolfunc.c:16-26 | appends to the queue's contents, or leaves a full queue alone |
| Queues.IntQueue.DeQ | toolfunc.c:28-44 | takes the first element off, -1 if there is none, and fills the unused places with -1 |
| Queues.MsgRing.MsgEnQ | toolfunc.c:46-57 | appends to the sequence the ring stands for, keeping tail == (head + len) mod Q_LEN |
| Queues.MsgRing.MsgDeQ | toolfunc.c:59-75 | takes the first element of that sequence off |
| Kernel.Kernel.InitKernelData | main.c:63-95 | whatever the kernel's data held, empties the queues, fills the free and semaphore queues in order, blanks process table and mailboxes, frees every page, and leaves semaphores and port alone |
| Kernel.StartUp | main.c:35-54 | builds in memory the state that every run starts from |
| Kernel.Kernel.KernelMain | main.c:134-213 | one entry in place changes the abstract state by Step and memory as a step of a memory run |
| Kernel.Kernel.WakePass | main.c:142-153 | dequeuing and requeuing each sleeper once, in place, is the stable split of the sleep queue |
| Kernel.Kernel.Schedule | main.c:118-132 | the scheduler in place |
| Kernel.Kernel.ForkISR | isr.c:195-270 | Fork in place, on kernel state and on memory, through its search, claims and page writes |
| Kernel.Kernel.FindFive | isr.c:214-220 | the search stops with the five lowest free pages, or at the end when there are fewer |
| Kernel.Kernel.WaitISR | isr.c:273-308 | WaitISR as written, its scan and its reap loop; if it reaps, the record just below the process table is cleared |
| Kernel.Kernel.ReapLoop | isr.c:298-305 | as written the loop gives back exactly one page and clears only the record below the table |
| Kernel.Kernel.WaitISRRepaired | isr.c:273-308 | the repaired one gives back every page of the child |
| Kernel.Kernel.ExitISR | isr.c:310-339 | Exit in place |
| Kernel.Kernel.SemWaitISR | isr.c:78-86 | takes a unit or blocks the caller at the back of the wait queue |
| Kernel.Kernel.SemPostISR | isr.c:88-98 | adds a unit or releases the first waiter |
| Kernel.Kernel.MsgSndISR | isr.c:100-121 | stamps the message and queues it or hands it to the waiting owner |
| Kernel.Kernel.IRQ3ISR | isr.c:142-157 | the handler with TX and RX, posts included |
| Paths.FindName | FileService.c:318-339 | finds exactly the entry the name denotes; slashes alone are the root directory's own entry and "" is unknown |
| Paths.ResolveExactly | FileService.c:318-373 | a name resolves to an entry if and only if it denotes it: by its characters it is slashes only and the entry the root's, or it spells pieces that pick, each the first entry it is a prefix of, a trail of directories ending there |
| Paths.SpellsExactly | FileService.c:351-366 | the components of a name are the one list of pieces that spells it |
| Paths.RootNames | FileService.c:324-336 | a name of slashes is the root's own entry, the empty name nothing |
| Paths.FindNameSub | FileService.c:346-373 | the recursion from any directory, each call on a shorter name that begins with a component, so it ends although the graph has cycles |
| Paths.SlashesDoNotMatter | FileService.c:318-364 | repeated, leading and trailing slashes never change what a name with a component denotes |
| Paths.ComponentsOfJoin | FileService.c:351-366 | splitting is inverse to joining: any non-empty slash-free pieces are the components of the name they make |
| Paths.WildExactly | FileService.c:357-366 | resolution stays in the directory tables if and only if no component before the last names a regular file, and then a found entry is a named one |
| Paths.DotIsHere | FileService.c:80-113 | a component "." before the last is skipped |
| Paths.PreloadedOk | FileService.c:80-113 | the three directories the kernel ships with meet all that is assumed of a disk |
| Paths.MyStrcmp | toolfunc.c:96-107 | 1 exactly when the piece is a prefix of the entry's name, never reading past that name's NUL |
| Paths.MyStrlen | toolfunc.c:110-117 | the characters before the NUL |
| Descriptors.ReadsInOrder | FileService.c:225-287 | in any run of requests of all clients, the reads of one open descriptor return what it had left, in order, each piece once, then only end-of-file |
| Descriptors.WholeFileRead | FileService.c:269-284 | after an open the GOOD reads of the descriptor the client was told are the file's ceil(size / 100) pieces of a hundred bytes, a prefix of the file at any time and all of it once that many were made |
| Descriptors.WholeListing | FileService.c:238-267 | after an open of a directory, its named entries before the end marker, in order, and then end-of-file |
| Descriptors.ListingsInOrder | FileService.c:248-256 | a directory's listings are its named entries before the end marker, in order |
| Descriptors.ServeKeeps | FileService.c:194-316 | every request keeps 0 <= offset <= size in every descriptor |
| Descriptors.OthersUntouched | FileService.c:290-316 | no request changes a descriptor another client holds |
| Descriptors.OwnUntouched | FileService.c:194-287 | of its holder's own requests only reading and closing it do |
| Descriptors.OpenAnswers | FileService.c:194-211 | NO_FD if and only if none is unused; else GOOD with the number of the first unused descriptor, now the client's at the beginning of what the name denotes, or UNFOUND if it denotes nothing |
| Descriptors.CheckAnswers | FileService.c:179-190 | a check answers with the entry the name denotes, or UNFOUND, and changes nothing |
| Descriptors.CheckAgreesWithOpen | FileService.c:179-211 | a check is GOOD if and only if an open with a descriptor free would be, and shows the entry that descriptor holds |
| Descriptors.CloseAnswers | FileService.c:213-220 | a close is GOOD if and only if the descriptor is the client's, and gives up that one only; else it is refused and nothing changes |
| Descriptors.ReadAnswers | FileService.c:225-316 | a read of a descriptor that is not the client's is refused; any other moves at most its offset |
| Descriptors.OtherAnswers | FileService.c:167-170 | a request of any other kind is answered UNKNOWN and changes nothing |
| Descriptors.OpenLeaksExactly | FileService.c:194-211 | a failed open takes a descriptor if and only if the name is unknown and one was free |
| Descriptors.DescriptorsConserved | FileService.c:194-220 | over any run the free descriptors fall by the opens that found or missed a name and rise by the closes |
| Descriptors.MissesExhaust | FileService.c:198-203 | once misses have used up the table every open answers NO_FD |
| ShippedFiles.UnknownName | FileService.c:354-372 | on the shipped directories "x" is unknown |
| ShippedFiles.TwentyMisses | FileService.c:198-206 | on them, twenty opens of "x" from a fresh table, and an open of "bin" answers NO_FD |
| ShippedFiles.ThroughHelp | FileService.c:356-366 | on them, "help.txt/x" leads out of the directory tables |
| ShippedFiles.HelpChecked | FileService.c:101-113 | on them, a check of "help.txt" answers with inode 4, that file's size and its bytes |
| ShippedFiles.RootFound | FileService.c:324-336 | on them, "/" and "///" are the root directory and "" is unknown |
| FileService.CountMeans | FileService.c:267-283 | a text that carries a reply uses exactly the count of it: the bytes read, or up to the NUL of the name |
| FileService.Service.ReadObj | FileService.c:225-287 | the read in place: new offset, code, message text NUL-terminated even at a full hundred bytes, and a count that is how far the offset moved in a file and where the name's NUL ends in a listing |
| FileService.Service.ReadDir | FileService.c:241-256 | the directory loop skips nameless entries and stops at the end marker |
| FileService.Service.OpenObj | FileService.c:194-211 | the open in place, descriptor kept on a miss |
| FileService.Service.AllocFD | FileService.c:298-312 | takes the lowest unused descriptor and initialises it, or answers NO_FD |
| FileService.Service.CloseObj | FileService.c:213-220 | the close in place, refused unless the descriptor is the client's |
| FileService.Service.Request | FileService.c:139-175 | one turn of the service loop answers and changes the table as the request functions say |

## Left out

- ForkISR's child registers: a child's trap frame starts as zeros in its process record; the registers ForkISR does not write hold whatever the stack page held, and no result depends on them.
- SemWait, SemPost, SemGet: the environment is taken to pass semaphore ids that SemGet handed out, message recipients in 0..19, and system calls only from PIDs 1..19; the source checks none of these.
- TerminalLink.OthersShow: does not cover the printer interrupt, IRQ7, which posts semaphore 0, the shell's TX_semaphore, and so would grant StdoutProc a place that is not there; terminal runs contain none.
- Irq7 posts semaphore 0 as the source does; InitProc's direct, unprotected call of SemPostISR is not modelled.
- PF_ISR: it works for the first child only and adds pages the release loops do not count; runs contain no page faults.
- Kernel.Kernel.WaitISR: what lies below the process table, read as pcb[-1], is not part of the kernel state: it comes with each Wait, and other code may have changed it since.
- Kernel.Kernel.ForkISR: the image address is a physical one; the source reads it under the caller's directory, which by PageTables.ElsewhereAsKernel is the same wherever the kernel's directory maps it to itself outside the two windows' directory entries.
- ChildExit.EveryExitReportedOnce: exit values and registers are fields of the process's record, so this holds of the source where the saved frame addresses are readable; PageTables.FrameSeenFrom says when a frame on a forked process's stack is.
- ChildExit.WaitReturnsChild: the same.
- Trap frames and message buffers are values of their processes: set_cr3, and whether a pointer saved under one page directory is readable under another, are not modelled.
- ChildMemory.RunSpaces: processes are taken not to write the kernel's page directory or the first three pages of an owned block, which nothing in the hardware model forbids; CR4.PSE is taken to be 0.
- Serial: one user-mode EnQ or DeQ on the port's queues is one step, and no interrupt falls inside it; StdoutProc and StdinProc are step machines rather than loops, since interrupts come between any two of their steps.
- Serial.LinesAreInput: lines longer than a message's text overrun it in the source; the model keeps them whole.
- TerminalRuns.KernelRunsShow: the text StdoutProc works on is any C string; that it is the one its MsgRcv delivered is not tied to the mailbox results.
- The port record is rewritten by user code only to well-formed values (UserPort); port I/O, baud setup and the interrupt controller are left out.
- Paths.FindName: the pointer-value test of FileService.c:355 is left out; where it matters, beyond a regular file, the result is Wild.
- Descriptors.ReadsInOrder: calls are Tame, that is, no name leads through a regular file and nobody reads a descriptor left without an object by a failed open.
- FileService: Dir2Attr's copy of the attributes into the first 24 bytes of a reply is represented by the entry itself.
- Kernel.Kernel has no instruction pointers, segment registers, IDT or assembly entry code; proc_stack and the function addresses given to StartProcISR are left out.
- Not modelled: IdleProc, the shell and its login, DirStr, PrintBits, console output, makeit.pl and the sample programs.
