# Verified model of a small operating-system simulator

The repository simulates a machine and the operating system on it. A *Real
Machine* executes 16-bit words in 512 cells with a user/supervisor split. A
*Virtual Machine* interprets the same instruction format in 255 bytes. A kernel
multiplexes processes over a 100-slot table: each scheduler cycle walks the table
from the highest slot down, brackets every turn with counted resources, and runs
job governors, loaders, an I/O handler, an interrupt handler and virtual machines.
Program images and swapped-out machines live on a disk of 128 sectors of 16 bytes.

This project models the three cores of that system in Dafny and proves what they
promise:

- **The kernel.** One invariant holds after every iteration of the scheduler's
  loop in every run: memory, CPU and timer units are always back, one I/O request
  is in flight, latches are quiet, the table is well formed. On top of it: the
  governor/loader handshake, progress of a load, isolation of processes from each
  other's turns, no dangling I/O request, one-pass dispatch, private contexts,
  integrity of swapped-out memory; and exactly when the I/O unit is lost for ever,
  when a process is left running that is not current and never gets another turn,
  when removal passes a process by, and when the data of a READ is lost, each with
  a run that gets there.
- **Images, execution, swapping, disk I/O.** Exact success conditions and exact
  results of both loaders, and that they put one and the same program in place; a
  bound on the instructions a virtual machine ever executes; swap and transfer
  round trips.
- **The Real Machine.** User-mode non-interference over whole runs, exact
  arithmetic, and a simulation between the two machines.

## How it is organised

Each module has a *specification function* for every operation (a value-level
transition on the state) and, where the C code updates things in place, a class
or method with the same loops and assignments, proved to do exactly what the
function says. Theorems are about the functions, so they carry over to the
methods. The modules whose names end in `Laws`, and `ImageFormat`, then say what
the single operations do without those functions: from the fetched word, from the
bytes of an image, from the latches, from the table before and after. A `hide` at the top of a proof names the definitions it does not look
into.

| module | contents |
|---|---|
| `Words`, `Isa` | machine integers, byte order, the instruction format and both decoders |
| `RealMachine`, `RmProperties` | the Real Machine and its theorems |
| `InstructionLaws` | what each instruction, an acknowledgement and the timer do, from the fetched word and the latches |
| `VirtualMachine` | the interpreter, its outcomes and its termination measure |
| `InterpreterLaws` | how a call of the interpreter ends, from the words it runs through |
| `Disk`, `Swapper`, `DiskTraffic` | sectors, swapping, transfers, round trips |
| `Loader`, `ImageLoader` | the two loaders |
| `ImageFormat` | the image as bytes, and the round trip through both loaders |
| `Simulation` | RM/VM compatibility |
| `Resources` | counted resources and their ring-buffer queues |
| `KernelModel` | the kernel's state and every kernel operation as a function |
| `KernelInvariant`, `KernelSafety` | the invariant and its preservation over runs |
| `OperationLaws`, `InterruptLaws` | the kernel's operations and its interrupt handling, entry by entry, on every path |
| `TurnLaws` | the turn of every kind of process, and the save of a left-over one, from the table before and after |
| `Frames`, `GovernorProtocol` | what operations leave alone; the governor/loader handshake |
| `DispatchOrder` | one-pass dispatch |
| `ContextIsolation`, `ContextsOfRuns` | the context switcher by itself; contexts, preemption and who is left running in the kernel's runs |
| `IoSafety`, `MachineIsolation`, `PendingRequests` | I/O timeliness and exactness; isolation between processes; no dangling request |
| `IoStarvation` | the loss of the I/O unit and of denied requests |
| `StrayProcesses` | what becomes of a process the timer leaves running |
| `DiskOfRuns`, `SwappedReads` | which sectors a run changes; swapped-out memory over runs, and the loss of a READ to the swap-in |
| `LoadProgress` | a governor's image arrives in the same pass |
| `ExampleRuns`, `ExampleReads` | reachable states in which those losses happen |
| `OperatingSystem` | the kernel as one class with the process table and the I/O ring as arrays |

A run is any sequence of process creations and scheduler cycles from the boot
state, for any disk contents and file table (`KernelModel.Run`). In each cycle an
arbitrary set of slots says at whose turn the timer has gone off, which covers
every timer behaviour. `History` is for the theorems to talk about; no operation
reads it. It records turns, governor and I/O events with the registers of each
request, saved contexts, the slots machines are swapped out to, denials and
shutdown.

## Where code and documentation differ

- `README.md:58` asks for Real and Virtual Machine behaviour that is bit-for-bit
  compatible where possible. The code is compatible on HALT, ADD, SUB and the
  immediate LOAD, and on no other word: `Simulation.CompatibleExactlyOnShared`
  states this as an equivalence.
- Swap slots are numbered with 16 bits and their start sector wraps, so two slot
  numbers name the same sectors exactly when they agree modulo 4096:
  `DiskTraffic.SlotIsolation`. Within the process identifiers 0 to 255 only slots
  0, 1 and 2 exist (`DiskTraffic.PidSlots`). A process's slot is the number it was
  created with, not the identifier the table gives it, so nothing keeps two
  processes from sharing one, and then only the machine swapped out last comes
  back: `DiskTraffic.SharedSlotKeepsTheLast`. In every run a machine resumes with
  the memory it trapped with as long as no completed WRITE names one of its slot's
  sectors and no machine is swapped out over them
  (`SwappedReads.ResumesWithItsMemory`).
- Process identifiers are 8 bits wide. Two live processes share one exactly when
  their creation numbers agree modulo 256 (`DispatchOrder.TableOfRuns`). Removal by
  identifier removes the right process exactly when its identifier is not 0 and no
  lower slot has the same one (`GovernorProtocol.RemovesExactly`).
  `ExampleRuns.PidZeroInRuns` and `ExampleRuns.SharedPidInRuns` are runs that reach
  the two failing cases, and `ExampleRuns.PidZeroStays` shows the consequence: the
  159th process ends its program and stays in the table. Theorems that rest on
  unique identifiers say so with the bound of 158 additions.
- The I/O unit is free again after a completed request exactly when the requester
  is still there and nobody waits for the unit
  (`IoStarvation.StepLosesUnitExactly`). A waiter is handed the unit but has moved
  past its trap and never releases it; from then on no request of any process is
  ever accepted (`IoStarvation.StarvedForEver`). `ExampleRuns.WaiterAtCompletion`
  and `ExampleRuns.UnitLostInRuns` are such a run: two governors on a
  one-instruction image. The waiter's own request is lost too
  (`IoStarvation.DeniedRequestIsLost`, `IoStarvation.HandOffWakes`).
- A timer expiry loads a process and leaves it running while nobody is current,
  because the scheduler's loop clears the current process when the interrupt
  handler returns. `ContextsOfRuns.OnlyCurrentRunsExactly` gives the exact
  condition and `ExampleRuns.RunningButNotCurrent` a run. Unless it is queued for
  the I/O unit, has a request in the ring or waits for its image, such a process
  never gets another turn: until a shutdown its entry stays exactly as it is
  (`StrayProcesses.StrayForEver`, `ExampleRuns.StrayInRuns`). Start-stop does not
  count it as work, so it shuts the system down around it
  (`StrayProcesses.ShutdownIgnoresRunning`, `ExampleRuns.UnfinishedAtShutdown`).
- A machine without a governor loses the data of its READ to the swap-in. When the
  READ was accepted and has been completed, and nothing was written over the
  machine's swap slot, it resumes with the data exactly when that slot does not
  exist; otherwise it resumes with the memory it trapped with
  (`SwappedReads.ReadSurvivesExactly`, `SwappedReads.CompletedReadIsSeen`).
  `ExampleReads.ReadInRuns` is a run for each slot number from 0 to 255. A READ
  that is denied is lost in either case (`SwappedReads.DeniedTrapIsLost`).
- ARCHITECTURE.md's sections on the virtual machine describe an older design with
  nine-byte frames; the model follows the code.

## Model

| member | source | states |
|---|---|---|
| `RmProperties.UserIsolation` | src/rm/cpu.c:122-299 | Two Real Machines in user mode that agree on the processor and on cells 0 to 255 still agree after any sequence of cycles, acknowledgements and timer expiries, stay in user mode, and neither changes a supervisor cell, whatever those cells hold |
| `RmProperties.UserIsolationOfExecCycle` | src/rm/cpu.c:303-325 | The same for the execution loop with its tick counter, after any number of passes; the loops also stop together |
| `RmProperties.UserModeNeverHalts` | src/rm/cpu.c:250-256 | User code cannot stop the machine: started without a pending HALT, the loop is still running after any number of passes |
| `RmProperties.SupervisorModeLeaks` | src/rm/memory.c:35-49 | The isolation needs user mode: a concrete pair of supervisor-mode machines is told apart by one instruction |
| `RmProperties.ArithmeticIsExact` | src/rm/cpu.c:159-191 | ADD, SUB and MUL set OVERFLOW, CARRY and the overflow interrupt exactly when the true integer result is outside 0 to 65535, store it modulo 2^16, set ZERO and NEGATIVE exactly, and touch nothing else, also when both operands are one register |
| `RmProperties.MulTestIsExact` | src/rm/cpu.c:183-187 | The division test before MUL holds exactly when the product exceeds 65535 |
| `RealMachine.Machine.Read` | src/rm/memory.c:35-49 | The mode-checked read: its value and the fault it latches |
| `RealMachine.Machine.WriteCell` | src/rm/memory.c:20-32 | The mode-checked write: the one cell it changes or the fault it latches |
| `RealMachine.Machine.RunArithmetic` | src/rm/cpu.c:159-208 | The arithmetic instructions in place: register, status word and interrupt as in the specification |
| `RealMachine.Machine.RunLoad` | src/rm/cpu.c:125-141 | LOAD in its three modes: the register gets the value read, 0 after a fault, and every faulting read on the way latches its interrupt |
| `RealMachine.Machine.RunStore` | src/rm/cpu.c:142-158 | STORE in its two modes, and that mode 0 and 3 change nothing but the program interrupt |
| `RealMachine.Machine.RunJump` | src/rm/cpu.c:209-225 | JMP moves the counter to the operand, or to what memory holds there, faults included |
| `RealMachine.Machine.RunPrivileged` | src/rm/cpu.c:236-256 | READ, WRITE and HALT raise their system interrupt in supervisor mode and a program interrupt otherwise |
| `RealMachine.Machine.RunInstruction` | src/rm/cpu.c:122-266 | Every opcode in place: the whole new state, which the laws of `InstructionLaws` give opcode by opcode |
| `RealMachine.Machine.ExecOneCycle` | src/rm/cpu.c:330-339 | Fetch, decode and execute in place, and whether an instruction was executed |
| `RealMachine.Machine.AcknowledgeInterrupts` | src/rm/cpu.c:270-299 | In place the step that `InstructionLaws.Acknowledgement` gives latch by latch; exactly a HALT stops the loop |
| `RealMachine.Machine.RunUntilInterrupt` | src/rm/cpu.c:308-321 | The inner loop runs exactly as many single passes as it used, and ends only interrupted or out of budget |
| `RealMachine.FailedCycleInterrupts` | src/rm/cpu.c:310-313 | A pass that executes nothing always leaves a program interrupt, so leaving the inner loop early never skips the interrupt test |
| `RealMachine.StaysStopped` | src/rm/cpu.c:307-324 | A machine stopped by HALT stays as it is however many more passes are asked for |
| `RealMachine.Machine.ExecCycle` | src/rm/cpu.c:303-325 | The nested loop, cut off after a budget of passes, is that many single passes of the step function |
| `InstructionLaws.FetchExactly` | src/rm/cpu.c:28-36 | A pass executes an instruction if and only if no program interrupt is pending, the counter is within reach and the opcode is not 15; otherwise which program interrupt it leaves, and where the counter is |
| `InstructionLaws.ComparePass` | src/rm/cpu.c:204-208 | CMP sets ZERO if and only if the registers are equal, NEGATIVE if and only if the first is less, no other flag, and changes nothing else |
| `InstructionLaws.BranchPass` | src/rm/cpu.c:226-235 | JZ moves the counter to its operand if and only if ZERO is set, JNZ if and only if it is not |
| `InstructionLaws.CompareThenBranch` | src/rm/cpu.c:204-235 | After CMP of two registers JZ jumps if and only if they are equal, JNZ if and only if they differ; registers, memory and latches are as before |
| `InstructionLaws.ArithmeticPass` | src/rm/cpu.c:159-191 | A fetched ADD, SUB or MUL stores the true result modulo 2^16, with exact flags, and the overflow interrupt exactly when it is out of range |
| `InstructionLaws.DividePass` | src/rm/cpu.c:193-202 | DIV leaves the q with qy <= x < (q+1)y; by zero it raises the division interrupt and keeps the register |
| `InstructionLaws.LoadPass` | src/rm/cpu.c:125-141 | LOAD of a value, a cell, or the cell a cell names, from the bits of the word; 0 and the address fault out of reach, the opcode fault in mode 3 |
| `InstructionLaws.StorePass` | src/rm/cpu.c:142-158 | STORE into a cell or the cell a cell names, which alone changes; only the fault out of reach or in another mode |
| `InstructionLaws.StoreThenLoad` | src/rm/memory.c:20-49 | STORE and then LOAD from the same place, direct or through a pointer, gives the register back in any register and changes no other cell |
| `InstructionLaws.JumpPass` | src/rm/cpu.c:209-213 | A fetched JMP goes to the address in its nine low bits and changes nothing else |
| `InstructionLaws.JumpModes` | src/rm/cpu.c:209-225 | JMP in all modes: the operand, the cell it names, or the cell named there, faults included; no word decodes to a mode other than 0 |
| `InstructionLaws.SystemPass` | src/rm/cpu.c:236-261 | READ, WRITE, HALT and SYS raise their own codes, the first three in supervisor mode only and the opcode fault otherwise; NOP does nothing |
| `InstructionLaws.Acknowledgement` | src/rm/cpu.c:270-299 | On the latches: after HALT nothing changed and the loop stops; otherwise program and timer interrupts are cleared, every system interrupt but SYS is, and nothing else changed |
| `InstructionLaws.GoesOnExactly` | src/rm/cpu.c:307-324 | After an acknowledgement the next step is a pass on the next instruction if and only if neither HALT nor SYS was raised; after SYS the loop never executes another |
| `InstructionLaws.TimerStep` | src/rm/cpu.c:315-318 | An executed instruction ticks, and latches the timer exactly at the tenth; a failed pass and an acknowledgement do neither |
| `InstructionLaws.TimerEveryTenth` | src/rm/cpu.c:303-325 | Over any number of steps the tick count is the number of executed instructions modulo ten, and the timer goes off at every tenth and at no other step |
| `Isa.DecodeEncode` | src/rm/cpu.c:39-50 | Decoding inverts the documented 16-bit instruction layout for every instruction |
| `Isa.InstructionRecord.DecodeReal` | src/rm/cpu.c:55-117 | The Real Machine's decoder accepts exactly the opcodes 0 to 14 and extracts the shared fields |
| `Isa.InstructionRecord.DecodeVirtual` | src/vm/vm_program.c:45-94 | The Virtual Machine's decoder accepts the same words and extracts the same fields |
| `VirtualMachine.Interpreter.Run` | src/vm/vm_cpu.c:77-176 | The interpreter loop terminates with exactly the outcome of the specification |
| `VirtualMachine.Interpreter.RunOne` | src/vm/vm_cpu.c:92-171 | One trip round the loop in place: registers, program counter, trap fields and return code for every opcode, bounds checks included, as `InterpreterLaws.StepLaw` and `StopLaw` give them from the fetched word |
| `VirtualMachine.VmStep` | src/vm/vm_cpu.c:92-100 | One instruction moves the program counter on by exactly two, or not at all outside memory, and never changes memory |
| `VirtualMachine.InterpretOutcome` | src/vm/vm_cpu.c:91-172 | A run ends in one of three ways, never changes memory, and a READ or WRITE trap carries a transfer inside the 255 bytes |
| `VirtualMachine.RunOperationsOutcome` | src/vm/vm_cpu.c:86-172 | A trap code is left behind exactly by a trap |
| `VirtualMachine.FetchedMovesPc` | src/vm/vm_cpu.c:92-100 | Every instruction uses up two bytes of the remaining program, so one call fetches at most half of them |
| `VirtualMachine.WholeLifeTermination` | src/vm/vm_cpu.c:91-172 | Over any sequence of calls, with memory and registers changed arbitrarily in between, a machine started at p executes at most (255 - p) / 2 instructions |
| `InterpreterLaws.StepLaw` | src/vm/vm_cpu.c:92-155 | The interpreter goes on if and only if it fetches, inside memory, a LOAD, ADD or SUB; then exactly one register and the counter change |
| `InterpreterLaws.StopLaw` | src/vm/vm_cpu.c:119-171 | Any other word ends the call, with the return code, trap code and trap registers of its opcode |
| `InterpreterLaws.CallExactly` | src/vm/vm_cpu.c:77-176 | A whole call, from the words in memory: it traps with code 1, 2 or 4 if and only if the last word fetched has opcode 0xB, 0xC or 0xE, the first two with a transfer inside memory, carrying R0 to R2; it halts if and only if the opcode is 0, and fails exactly otherwise; the registers are those after all the words before |
| `InterpreterLaws.OutsideFails` | src/vm/vm_cpu.c:93-96 | A call that starts outside memory fails at once and clears the trap fields |
| `Simulation.CompatibleExactlyOnShared` | src/vm/vm_cpu.c:114-171 | The two machines agree on an instruction in all states if and only if it is HALT, ADD, SUB or an immediate LOAD |
| `Simulation.OneInstruction` | src/rm/cpu.c:308-323 | One shared instruction costs the Real Machine one or two passes, overflow and timer included, and keeps the two machines in step |
| `Simulation.MachinesAgree` | README.md:58 | An image that is immediate LOADs, ADDs and SUBs up to a HALT, loaded by both loaders, halts both machines with the same eight registers, however often overflow and the timer interrupted the Real Machine |
| `Disk.HardDisk.ReadDisk` | src/rm/disk.c:23-33 | A read succeeds exactly on an existing sector of an idle disk and copies exactly that sector |
| `Disk.HardDisk.WriteDisk` | src/rm/disk.c:35-45 | A write succeeds under the same condition and changes exactly that sector |
| `Loader.FindFile` | src/kernel/loader.c:40-48 | The first entry registered under the identifier, or none exists |
| `Loader.FileTable.RegisterFile` | src/kernel/loader.c:31-38 | An entry is appended unless the table of eight is full |
| `Loader.FileTable.Find` | src/kernel/loader.c:40-48 | The scan finds exactly the first match |
| `Loader.FindFilePrefix` | src/kernel/loader.c:40-48 | Later registrations never hide an earlier one |
| `Loader.LoaderLoadFile` | src/kernel/loader.c:87-157 | With the memory unit granted, a load succeeds exactly when the file is registered, its first sector readable, the header sound, and all its words within the file's sectors and the disk; it writes exactly the words it could read and, on success, starts the processor |
| `Loader.OpenImage` | src/kernel/loader.c:87-116 | Succeeds exactly when the file is registered, its first sector readable and its header sound, and hands on that header, whose bytes `ImageFormat.VmRoundTrip` and `RmRoundTrip` fix |
| `Loader.CopyFromSector` | src/kernel/loader.c:125-135 | The inner loop copies exactly the words of one sector, or the rest of the program |
| `Loader.CopyImage` | src/kernel/loader.c:118-142 | The nested loops copy exactly the words that the file's sectors and the disk hold; every write is inside memory, so the bounds guard always holds |
| `Loader.SucceedsWhenComplete` | src/kernel/loader.c:144-148 | The success condition on header, file and disk is equivalent to having written every word |
| `Loader.FetchStored` | src/vm/vm_cpu.c:99 | The big-endian fetch at the load address plus 2i gives back word i of the little-endian image |
| `ImageLoader.LoadProgramImage` | src/kernel/loader.c:170-240 | The Real Machine's loader succeeds exactly when the image fits and the disk holds it, and writes exactly its words, all in user memory |
| `ImageLoader.CopyAllWords` | src/kernel/loader.c:201-225 | The nested loops copy the words the disk holds and succeed exactly when it holds all; the number of sectors used is the rounded-up size |
| `ImageLoader.VmLoaded` | src/kernel/loader.c:150-157 | After a successful load virtual memory fetches the image word by word, every other byte is unchanged, and the processor is fresh at the entry point |
| `ImageLoader.RmLoaded` | src/kernel/loader.c:206-228 | After a successful load the cells hold the image, every other cell is unchanged, and only the instruction counter moved |
| `ImageLoader.LoadersAgree` | src/kernel/loader.c:118-228 | When both loaders succeed on one image, VM fetch i equals RM cell i for every i, both processors stand at the same instruction, the Real Machine's copy is in user memory, and nothing else changed |
| `ImageFormat.VmRoundTrip` | src/kernel/loader.c:87-157 | Write the image of any program, entry point and load address as bytes: it loads if and only if the program fits, the entry point is one of its words and the file's sectors cover it; then word i stands high byte first at the load address plus 2i, no other byte changed, and the processor is fresh at the entry point. When only the sectors fall short, exactly the words they hold are in place and the processor is as it was; otherwise nothing changes |
| `ImageFormat.RmRoundTrip` | src/kernel/loader.c:170-240 | The same image at any address of the Real Machine: exactly when it loads, word i stands in cell la + i, no other cell changed, and only the counter moved, to la + entry; otherwise nothing changes |
| `Swapper.SwapOutVm` | src/kernel/swapper.c:23-43 | Swapping out succeeds exactly for a slot that fits on an idle disk and writes exactly its 16 sectors |
| `Swapper.SwapInVm` | src/kernel/swapper.c:45-65 | Swapping in succeeds under the same condition and replaces exactly the 255 bytes |
| `Swapper.WriteSectorChunk` | src/kernel/swapper.c:6-12 | A chunk becomes one sector, padded with zeros |
| `Swapper.ReadSectorChunk` | src/kernel/swapper.c:14-21 | Exactly the chunk's bytes are replaced, or nothing when the sector cannot be read |
| `DiskTraffic.SwapRoundTrip` | src/kernel/swapper.c:23-65 | What was swapped out comes back byte for byte after any operations on other sectors and other slots |
| `DiskTraffic.SharedSlotKeepsTheLast` | src/kernel/swapper.c:23-65 | Two machines swapped out to one slot: the second is what comes back |
| `DiskTraffic.FailedSwapChangesNothing` | src/kernel/swapper.c:25-27 | A swap that fails changes neither disk nor machine |
| `DiskTraffic.PidSlots` | src/kernel/swapper.h:8-13 | Of the slots 0 to 255 exactly 0, 1 and 2 exist, where one expects them |
| `DiskTraffic.SlotIsolation` | src/kernel/swapper.h:11-13 | Two slots are disjoint exactly when their numbers differ modulo 4096, and a slot stays clear of sectors below 80 exactly when its number modulo 4096 is at most 2 |
| `DiskTraffic.CompleteRead` | src/kernel/ioHandler.c:26-32 | A completed READ in place: exactly the specified bytes change |
| `DiskTraffic.CompleteWrite` | src/kernel/ioHandler.c:39-44 | A completed WRITE in place: exactly the specified sector changes, padded with zeros |
| `DiskTraffic.ClampNeverFires` | src/kernel/ioHandler.c:30-31 | For a request the interpreter let through, the clamp to the end of memory has no effect |
| `DiskTraffic.ReadChangesExactly` | src/kernel/ioHandler.c:26-32 | READ at any address inside memory, byte by byte: two bytes for every word, at most 16 and none past the end of memory, become the sector's, and no other byte changes; nothing when the sector cannot be read |
| `DiskTraffic.WriteChangesOneSector` | src/kernel/ioHandler.c:39-44 | WRITE from any address inside memory: the one sector gets exactly those bytes, cut off in the same way, and zeros after them; every other sector stays |
| `DiskTraffic.TransferRoundTrip` | src/kernel/ioHandler.c:25-50 | A WRITE and a later READ of the same sector, with no write to it in between, move the bytes unchanged, and the rest of the sector is zero |
| `Resources.Ring.Enqueue` | src/kernel/resourceManager.c:32-38 | The ring appends at the end of the queue unless 31 processes wait already |
| `Resources.Ring.Dequeue` | src/kernel/resourceManager.c:40-45 | The ring removes exactly the longest-waiting process |
| `Resources.Ring.Request` | src/kernel/resourceManager.c:47-59 | A request on the ring form is a request on the count and queue it stands for |
| `Resources.Ring.Release` | src/kernel/resourceManager.c:61-81 | A release on the ring form is a release on the count and queue it stands for |
| `Resources.Ring.constructor` | src/kernel/resourceManager.c:25-28 | A new resource has its units, at least zero, and an empty queue |
| `Resources.ResourceManager.CreateResource` | src/kernel/resourceManager.c:21-30 | A resource is appended, its units cut off at zero, unless eight exist |
| `Resources.ResourceManager.Request` | src/kernel/resourceManager.c:47-59 | Exactly the first resource with the identifier is asked; all others are unchanged |
| `Resources.ResourceManager.Release` | src/kernel/resourceManager.c:61-82 | Exactly the first resource with the identifier is released; all others are unchanged |
| `Resources.AppendToRing` | src/kernel/resourceManager.c:33-36 | Storing at the tail, wrap-around included, appends to the queue the ring stands for |
| `Resources.DropFromRing` | src/kernel/resourceManager.c:41-43 | Advancing the head, wrap-around included, drops the queue's first element |
| `Resources.AccountsBalance` | src/kernel/resourceManager.c:47-82 | Over any call sequence: free units plus grants plus hand-offs minus releases equals the initial units, hand-offs happen in the order in which waiters were accepted, and a free unit means nobody waits |
| `Resources.OthersUntouched` | src/kernel/resourceManager.c:13-19 | Calls on other identifiers leave a resource exactly as it was |
| `KernelModel.LowestSlot` | src/kernel/interruptHandler.c:20-24 | The first slot from below that passes a test, or none does |
| `KernelModel.HighestSlot` | src/kernel/context_switcher.c:46-53 | The first slot from above within a window that passes a test, or none does |
| `OperationLaws.AddedExactly` | src/kernel/scheduler.c:82-112 | A new process is in the highest free slot of its half, ready, with the next identifier modulo 256 and otherwise zero; without room only an identifier is used up |
| `OperationLaws.RemovedExactly` | src/kernel/scheduler.c:114-132 | Removal clears the lowest slot with the identifier, whoever was meant, and nothing else; identifier 0 removes nobody |
| `OperationLaws.UnblockedExactly` | src/kernel/scheduler.c:154-162 | The lowest process with the identifier becomes ready from whatever state, and nobody else changes |
| `OperationLaws.WokenExactly` | src/kernel/interruptHandler.c:6-15 | The lowest blocked process of the type becomes ready, and nobody else changes |
| `OperationLaws.RequestedExactly` | src/kernel/resourceManager.c:47-59 | A request takes a free unit; otherwise the process is suspended, marked, and queued unless 31 wait |
| `OperationLaws.NoSuchResource` | src/kernel/resourceManager.c:47-63 | With no resource of the identifier nothing is granted, and asking and releasing change nothing |
| `OperationLaws.ReleasedExactly` | src/kernel/resourceManager.c:61-82 | A released unit makes the longest waiter ready, if it is in the table, and is free exactly when nobody waits |
| `OperationLaws.QueuedExactly` | src/kernel/ioHandler.c:65-94 | A request stands at the tail of the ring with one tick to go and its process sleeps; with the ring full the unit is given back, with no unit free the process is suspended, and nothing is queued |
| `OperationLaws.StepsExactly` | src/kernel/ioHandler.c:96-111 | A step of the ring skips an empty entry, lets a fresh request lose its tick, or clears the entry of a due one |
| `OperationLaws.DanglingCompletes` | src/kernel/ioHandler.c:20-21 | A request whose requester is gone or has no machine completes without any effect |
| `OperationLaws.LoadedExactly` | src/kernel/loader.c:243-266 | A loader with a memory unit loads for the lowest process with its parent's identifier, which alone changes and is ready and loaded exactly on success; the unit is back |
| `OperationLaws.CpuDenied` | src/kernel/scheduler.c:255-261 | Without a CPU unit the process is blocked and has no turn |
| `OperationLaws.MemoryDenied` | src/kernel/scheduler.c:286-295 | Without a memory unit the machine does not run and its process is blocked |
| `OperationLaws.LoadDenied` | src/kernel/loader.c:82-85 | Without a memory unit the loader is blocked, loads nothing and returns as finished |
| `InterruptLaws.ProgramFirst` | src/kernel/kernel.c:53-62 | A program interrupt is taken first: it is recorded and cleared, the current process sleeps unless it is an interrupt handler, and the other latches wait |
| `InterruptLaws.HaltNext` | src/kernel/kernel.c:64-70 | Then a HALT, in the same way |
| `InterruptLaws.RequestAccepted` | src/kernel/kernel.c:71-86 | Then a READ, WRITE or SYS: with a unit and room the current process's request is queued with the first three registers, it sleeps, and the I/O handler is woken |
| `InterruptLaws.RequestDenied` | src/kernel/kernel.c:71-86 | With no unit nothing is queued, the process is suspended and stays current, and the I/O handler is woken all the same |
| `InterruptLaws.RequestOfNobody` | src/kernel/kernel.c:71-86 | Without a current process the interrupt is only recorded and cleared |
| `InterruptLaws.TimerLast` | src/kernel/kernel.c:94-109 | The timer comes last: expired, it is recorded and cleared and contexts are switched; any other value is only cleared |
| `InterruptLaws.SwitchExactly` | src/kernel/context_switcher.c:38-59 | A switch saves the running current process, loads the highest ready process with a machine, which may be the one just saved, and makes it current; with none it only saves |
| `InterruptLaws.OneByOne` | src/kernel/kernel.c:39-112 | With a fault, a HALT and an expired timer pending, three calls take them in that order and then nothing is pending |
| `InterruptLaws.TransferWakesHandler` | src/kernel/interruptHandler.c:48-52 | A READ or WRITE wakes the I/O handler and does nothing else |
| `InterruptLaws.HaltRetires` | src/kernel/interruptHandler.c:53-66 | A HALT retires the process to blame, machine or not; with nobody to blame it does nothing |
| `InterruptLaws.FaultRetires` | src/kernel/interruptHandler.c:67-80 | A program interrupt wakes the lowest blocked governor, then retires the process to blame if it still has a machine |
| `InterruptLaws.NoReaction` | src/kernel/interruptHandler.c:48-88 | A SYS, or nothing latched, has no reaction; the latches are cleared |
| `InterruptLaws.RetiredExactly` | src/kernel/interruptHandler.c:53-79 | A retired process has no machine, is done and ready, its parent becomes ready, and nobody else changes |
| `InterruptLaws.TimerUnitBalanced` | src/kernel/interruptHandler.c:32-92 | The handler leaves as many free timer units as it found, whatever is latched and whether or not it was granted one |
| `InterruptLaws.ServesWithoutTimer` | src/kernel/interruptHandler.c:32-88 | A pending fault is taken and all latches are cleared even when the timer unit was not granted |
| `KernelInvariant.AddProcGood` | src/kernel/scheduler.c:82-112 | Creating a process, placed or not, keeps the whole invariant and every other slot |
| `KernelInvariant.EnqueueIoGood` | src/kernel/ioHandler.c:65-94 | A request keeps the invariant, and a granted request never finds the ring full |
| `KernelInvariant.IoHandlerGood` | src/kernel/ioHandler.c:96-131 | A handler step keeps the invariant, whether it waits, completes or finds nothing |
| `KernelInvariant.ContextSwitchGood` | src/kernel/context_switcher.c:38-59 | A context switch keeps the invariant, quiet latches included |
| `KernelSafety.DispatchKeepsInvariant` | src/kernel/scheduler.c:242-345 | Resource bracketing: one iteration of the loop, on every path, returns the CPU, memory and timer units with nobody waiting, and keeps the table, ring and latch invariants |
| `KernelSafety.InterruptHandlerGood` | src/kernel/interruptHandler.c:27-93 | The interrupt handler returns the timer unit and keeps the invariant |
| `KernelSafety.OnlyTheTimer` | src/kernel/kernel.c:53-109 | With quiet latches only the timer branch can be taken: a context switch exactly when the timer has just gone off, and otherwise nothing but bookkeeping |
| `KernelSafety.RunVmGood` | src/kernel/scheduler.c:286-341 | Running a machine returns the memory unit on every path: finished, trapped, failed, or not swapped in |
| `KernelSafety.CycleKeepsInvariant` | src/kernel/scheduler.c:348-356 | A whole cycle keeps the invariant, for every timer behaviour |
| `KernelSafety.BootResting` | src/kernel/kernel.c:13-34 | The boot state satisfies the invariant |
| `KernelSafety.Reachable` | src/main.c:302-325 | Every state any run reaches satisfies the invariant; in particular the current process is always one that is in the table |
| `IoSafety.UnitsAlwaysBack` | src/kernel/kernel.c:30-33 | In every reachable state memory has 2 units, CPU and timer 1, nobody waits for them, the next request for any is granted, and none was ever denied |
| `IoSafety.OneInFlight` | src/kernel/ioHandler.c:65-111 | In every reachable state free I/O units plus requests in the ring are at most one, the indices are in range, and a granted request is always accepted |
| `IoSafety.RequestsOfRuns` | src/kernel/ioHandler.c:96-111 | In every run an accepted request is consumed by the second handler step after it, and nothing else is ever consumed |
| `IoSafety.ConsumedOnSecondStep` | src/kernel/ioHandler.c:103-110 | The same for any event sequence the protocol allows |
| `IoSafety.ConsumedWasAccepted` | src/kernel/ioHandler.c:103-110 | A consumption is preceded by exactly an acceptance of the same process and two handler steps |
| `IoSafety.BoundsSurvive` | src/vm/vm_cpu.c:119-140 | In every reachable state the request in flight is a READ, WRITE or SYS, and a READ or WRITE still satisfies the bound of the interpreter's check |
| `IoSafety.CompletionServes` | src/kernel/ioHandler.c:20-63 | Completing the request changes exactly the requested bytes of the requester or the one sector, wakes the requester, and changes no other machine |
| `TurnLaws.LeftOverIsSaved` | src/kernel/scheduler.c:246 | An iteration that runs slot i saves the current process if and only if that is another one in the table, ready or running: the record grows by exactly that save, the process has exactly the processor's state, and every other context is as before |
| `ExampleRuns.LeftOverInRuns` | src/kernel/scheduler.c:242-246 | A run in which the scheduler's own process is left current and gets the boot state of the processor as its context |
| `TurnLaws.OnlyReadyRun` | src/kernel/scheduler.c:244 | An iteration at a slot whose process is not ready changes nothing |
| `TurnLaws.IdleRests` | src/main.c:174-177 | The idle process stays in its slot, ready, with nobody current and nothing else changed |
| `TurnLaws.BareRests` | src/kernel/scheduler.c:243-345 | A process with neither entry nor machine changes nothing and stays current |
| `TurnLaws.StopperRests` | src/main.c:183-193 | Start-stop with a governor ready or blocked stays ready and changes nothing |
| `TurnLaws.ShutdownLeaves` | src/main.c:195-209 | Start-stop with no such governor leaves the table with everybody but the other start-stop processes |
| `TurnLaws.InterruptHandlerRests` | src/kernel/interruptHandler.c:27-93 | The interrupt handler, with the timer quiet or no machine runnable, stays ready and changes nothing |
| `TurnLaws.IdleHandlerRests` | src/kernel/ioHandler.c:113-131 | The I/O handler with an empty ring stays ready and changes nothing |
| `TurnLaws.LoadingSleepsOn` | src/main.c:121-126 | A governor woken before its image is there goes back to sleep and changes nothing |
| `TurnLaws.NoRoomForLoader` | src/main.c:109-118 | A governor whose loader finds no free system slot sleeps all the same; no loader exists, and an identifier is used up |
| `TurnLaws.FinishedGovernorLeaves` | src/main.c:107-170 | A governor without a machine, or done before, leaves the table and changes nothing else |
| `TurnLaws.EndedGovernorLeaves` | src/main.c:128-165 | A governor whose machine halts or fails leaves the table with it and changes nothing else |
| `TurnLaws.TrappingGovernorSleeps` | src/main.c:144-159 | A governor whose machine traps sleeps on the I/O unit with the machine past its trap; the request is recorded with its registers if a unit is free, and its process queued if not |
| `TurnLaws.OrphanLoaderLeaves` | src/kernel/loader.c:247-255 | A loader whose parent is gone, or has no machine, leaves the table and changes nothing else |
| `TurnLaws.LoaderTurnExactly` | src/kernel/loader.c:243-266 | A loader leaves the table whether or not the load succeeds; its parent has what could be loaded, and is ready and loaded exactly on success; nobody else changes |
| `TurnLaws.EndedMachineLeaves` | src/kernel/scheduler.c:312-337 | A machine without a governor that halts or fails leaves the table with its process and changes nothing else |
| `TurnLaws.SwapInFails` | src/kernel/scheduler.c:297-305 | A machine whose swap slot does not exist is suspended as it was, and stays current, its context on the processor |
| `TurnLaws.BlamedExactly` | src/kernel/scheduler.c:250-253 | After an iteration the process to blame is the one of that turn if it has a machine, entry or not; an interrupt handler leaves its identifier as the last to trap, and every other turn leaves the blame as it was |
| `GovernorProtocol.DispatchKeepsProtocol` | src/main.c:105-171 | Every iteration of the loop keeps the handshake between governors and loaders |
| `GovernorProtocol.HandshakeOverRuns` | src/kernel/loader.c:243-266 | Every run keeps it: recorded lives are legal, match the load field, and loaders match waiting governors |
| `GovernorProtocol.GovernorsOfRuns` | src/main.c:109-168 | In every reachable state a governor is before its request, waiting, or loaded, exactly as recorded; a finished one is never in the table |
| `GovernorProtocol.LoadersOfRuns` | src/main.c:110-118 | In every reachable state a loader with a living parent is the only one, and its parent is a governor waiting for its image |
| `GovernorProtocol.LivesOfRuns` | src/main.c:105-171 | In every run a governor's image is requested once and loaded once, after the request; machine code is followed only by machine code or the end, and the end by nothing |
| `GovernorProtocol.LoadedBefore` | src/main.c:128-129 | Machine code runs only after the image was loaded, and that only after it was requested |
| `GovernorProtocol.NothingTwice` | src/main.c:109-168 | In a legal life nothing but running happens twice, loading follows the request, and nothing follows the end |
| `GovernorProtocol.RemovesExactly` | src/kernel/scheduler.c:114-132 | Removal by identifier clears exactly that process's slot if and only if the identifier is not 0 and no lower slot has the same one; otherwise it leaves the process in place |
| `GovernorProtocol.RemovesWhileDistinct` | src/kernel/scheduler.c:114-132 | Until identifiers wrap, removal passes nobody by |
| `MachineIsolation.DispatchLeaves` | src/kernel/scheduler.c:242-345 | An iteration leaves every process but the one whose turn it is in place with its machine and load, and one that is neither ready nor current entirely untouched, unless the turn is its loader's, a completing I/O handler's, or a shutdown |
| `MachineIsolation.LoaderFillsParent` | src/kernel/loader.c:243-266 | A loader's turn gives its parent exactly the loaded image and, exactly on success, the loaded state |
| `MachineIsolation.HandlerServesOnly` | src/kernel/ioHandler.c:96-131 | The I/O handler's turn changes the machine of exactly the requester it completes, exactly as the request says |
| `PendingRequests.NoDanglingRequest` | src/kernel/ioHandler.c:10-18 | In every reachable state before a shutdown the request in flight belongs to a process that is in the table with its machine, sleeps, is not current, and does not itself wait for the I/O unit; and it is, register by register, the trap that process's machine stopped with |
| `PendingRequests.DispatchKeepsRequester` | src/kernel/scheduler.c:242-345 | Every iteration keeps the owner of the request in flight in place |
| `PendingRequests.GovernorsPreventShutdown` | src/main.c:183-193 | While a governor is ready or blocked, no iteration shuts the system down |
| `IoStarvation.StepLosesUnitExactly` | src/kernel/resourceManager.c:61-81 | Completing a request leaves no free unit and none in flight if and only if somebody waits for the unit or the requester is gone; otherwise exactly one unit is free |
| `IoStarvation.StarvedForEver` | src/kernel/ioHandler.c:65-94 | From a state with no free unit and none in flight, every run keeps it so: no request is ever accepted again and none completes |
| `IoStarvation.TrapTurn` | src/main.c:144-159 | The turn of a governor whose machine traps, exactly: its entry, the queue, the ring and the record, whether the request is accepted or denied; everything else is unchanged |
| `IoStarvation.DeniedRequestIsLost` | src/main.c:144-159 | A governor whose request is denied sleeps with its machine past the trap and its memory as it was; nothing is queued for the handler and the disk is not touched |
| `IoStarvation.HandOffWakes` | src/kernel/resourceManager.c:64-77 | The first in the queue is woken by a completion with its machine untouched, and the unit is lost |
| `StrayProcesses.StrayForEver` | src/kernel/scheduler.c:242-246 | A process that is running and not current, not queued for the I/O unit, without a request in the ring and not waiting for its image, has no turn and keeps its entry exactly as it is over every run without a shutdown, until identifiers wrap |
| `StrayProcesses.DispatchKeepsStray` | src/kernel/scheduler.c:242-345 | Every iteration that does not shut the system down leaves such a process exactly as it is |
| `StrayProcesses.ShutdownIgnoresRunning` | src/main.c:183-207 | Start-stop shuts the system down at its turn if and only if no governor is ready or blocked; a running one is cleared away, and nothing is recorded of its end |
| `DiskOfRuns.SectorsOfRuns` | src/kernel/ioHandler.c:35-50 | Over every run a sector changes only by a completed WRITE that names it or a machine swapped out over it, and the file table not at all |
| `DiskOfRuns.HandlerDisk` | src/kernel/ioHandler.c:96-131 | A handler step changes no sector but the one named by the WRITE it completes |
| `DiskOfRuns.SuspendDisk` | src/kernel/scheduler.c:316-333 | A trapped machine changes no sector but those of the slot it is swapped out to |
| `SwappedReads.TrapDispatchSwaps` | src/kernel/scheduler.c:315-333 | The turn in which a machine without a governor traps and its request is accepted, exactly: its slot holds its memory if the slot exists, its entry sleeps past the trap, its request is recorded, and no other entry changes |
| `SwappedReads.ResumesWithItsMemory` | src/kernel/scheduler.c:297-308 | Over every run: a machine swapped out at a trap, whose process is still there and swapped out when the loop reaches it again, resumes with exactly the memory it trapped with, if since then no completed WRITE named a sector of its slot and no machine was swapped out over one |
| `SwappedReads.ReadSurvivesExactly` | src/kernel/scheduler.c:297-308 | Over every run: when a READ was accepted, and nothing was written over the slot, the machine resumes with the memory it trapped with if its slot exists, whatever a completed READ put into the table meanwhile, and with what the table holds if not |
| `SwappedReads.CompletedReadIsSeen` | src/kernel/ioHandler.c:20-34 | An iteration that completes a READ puts its data into the memory in the table, and changes the memory the requester will run with exactly when the requester is not swapped out |
| `SwappedReads.DeniedTrapIsLost` | src/kernel/scheduler.c:329-333 | A machine without a governor whose request is denied sleeps past its trap, not swapped out, with nothing recorded and the disk untouched |
| `LoadProgress.RequestDispatch` | src/main.c:110-118 | A governor's first turn, exactly: the loader in the highest free system slot, the governor asleep, everybody else as before |
| `LoadProgress.LoadedInTheSamePass` | src/kernel/scheduler.c:242-345 | A governor that asks for its image, whose loader finds a lower slot, has the image when the pass ends, if it can be loaded when it is asked for, nothing is written over its first sector before the loader's slot is reached, and no timer expires in the rest of the pass |
| `ExampleRuns.WaiterAtCompletion` | src/main.c:286-309 | A run of two governors reaches a state in which a request is about to be completed while another governor waits for the unit |
| `ExampleRuns.UnitLostInRuns` | src/kernel/resourceManager.c:64-77 | In the next cycle of that run the unit is lost, and after any further actions no request is accepted |
| `ExampleRuns.RunningButNotCurrent` | src/kernel/kernel.c:93-100 | A run with one governor and one timer expiry leaves the governor, otherwise as it was created, running while nobody is current |
| `ExampleRuns.StrayInRuns` | src/kernel/scheduler.c:244 | In every continuation of that run without a shutdown, until identifiers wrap, the governor has no turn and is as the timer left it |
| `ExampleRuns.UnfinishedAtShutdown` | src/main.c:183-207 | A run of start-stop, interrupt handler and one governor shuts the system down while the governor has not even asked for its image |
| `ExampleReads.ReadInRuns` | src/kernel/scheduler.c:297-308 | For each swap slot number from 0 to 255, a run in which a READ is accepted and completed; at its next turn the machine runs with its old memory if the slot exists, and with the data if not |
| `ExampleRuns.PidZeroInRuns` | src/kernel/scheduler.c:85-86 | A run reaches a ready user process with identifier 0 |
| `ExampleRuns.PidZeroStays` | src/kernel/scheduler.c:114-115 | That process ends its program at its turn and is still in the table afterwards, running |
| `ExampleRuns.SharedPidInRuns` | src/kernel/scheduler.c:117-129 | A run reaches two processes with one identifier, and removing one by it removes the other |
| `ExampleRuns.EndedMachineStays` | src/kernel/scheduler.c:312-314 | Whenever removal passes by a process whose machine ends, the process stays in the table, running, with nobody current |
| `ExampleRuns.EndedGovernorStays` | src/kernel/scheduler.c:265-267 | Whenever removal passes by a governor whose machine ends, it stays in the table, done and without its machine |
| `DispatchOrder.CycleIsOnePass` | src/kernel/scheduler.c:348-356 | In a cycle turns are taken in strictly decreasing slot order and no process takes two |
| `DispatchOrder.TurnIffReady` | src/kernel/scheduler.c:242-244 | A slot gets a turn exactly when its process is ready as the loop reaches it, so also when it was added or woken earlier in the pass |
| `DispatchOrder.DispatchOrderly` | src/kernel/scheduler.c:242-345 | An iteration records one turn or none, and processes never change slots |
| `DispatchOrder.WindowFindsAll` | src/kernel/context_switcher.c:45-53 | The switcher's window between the recorded priorities finds the same process as a search of the whole table |
| `DispatchOrder.TableOfRuns` | src/kernel/scheduler.c:82-112 | In every reachable state system processes sit in slots 80 to 97 and user ones in 1 to 79, all within the recorded priorities, and identifiers collide exactly when creation numbers agree modulo 256 |
| `ContextIsolation.ContextIsLastSaved` | src/kernel/context_switcher.c:6-20 | The context switcher by itself: over any sequence of its calls with arbitrary register changes in between, a process's context is exactly what it was last saved with, or its initial one |
| `ContextIsolation.PrivateProcessor` | src/kernel/context_switcher.c:22-59 | The context switcher by itself: whenever a switch loads a process, the processor holds exactly that state |
| `ContextIsolation.OneRunningAlways` | src/kernel/context_switcher.c:38-59 | The context switcher by itself: if only the current process could be running at first, only the current one can be after any sequence of its calls |
| `ContextsOfRuns.ContextsOfReachable` | src/kernel/scheduler.c:246 | In every run of the kernel, a process in the table has exactly the context it was last saved with, by the scheduler's loop or by a context switch, or the initial one |
| `ContextsOfRuns.MachineRunsWithItsContext` | src/kernel/scheduler.c:286-287 | When a machine without a governor takes its turn, the processor holds exactly what its process was last saved with |
| `ContextsOfRuns.PreemptedRunsWithItsContext` | src/kernel/context_switcher.c:57-58 | A preempting turn loads the chosen process with what it was last saved with, and leaves it running |
| `ContextsOfRuns.PreemptionSwitches` | src/kernel/kernel.c:93-100 | The interrupt handler's switch saves nobody, because the handler is current and not running; it changes the chosen process's state and the processor, and no other entry |
| `ContextsOfRuns.OnlyCurrentRunsExactly` | src/kernel/scheduler.c:242-345 | If only the current process may run before an iteration of the loop, then only the current one may after it, unless, and only unless, a preempting handler switches to another process or a machine ends whose process removal passes by |
| `OperatingSystem.Os.constructor` | src/kernel/scheduler.c:52-79 | The tables start in the boot state |
| `OperatingSystem.Os.ScanUp` | src/kernel/interruptHandler.c:8-14 | The upward loop finds exactly the lowest matching slot |
| `OperatingSystem.Os.ScanDown` | src/kernel/context_switcher.c:46-53 | The downward loop finds exactly the highest matching slot of the window |
| `OperatingSystem.Os.AddProcess` | src/kernel/scheduler.c:82-112 | Refines `KernelModel.AddProc`: identifier, highest free slot of the right half, and priority bounds; a full half still uses up an identifier |
| `OperatingSystem.Os.RemoveProcess` | src/kernel/scheduler.c:114-132 | Refines `KernelModel.RemoveProc`: clears the first slot with the identifier; identifier 0 removes nothing |
| `OperatingSystem.Os.WakeProcessByType` | src/kernel/interruptHandler.c:6-15 | Refines `KernelModel.WakeByType`: the lowest blocked process of the type becomes ready, and no other |
| `OperatingSystem.Os.Unblock` | src/kernel/scheduler.c:154-162 | Refines `KernelModel.UnblockProcess`: the first process with the identifier becomes ready, and no other |
| `OperatingSystem.Os.Save` | src/kernel/context_switcher.c:6-20 | Refines `KernelModel.SaveContext`: the whole processor state goes to the process, which becomes ready |
| `OperatingSystem.Os.Restore` | src/kernel/context_switcher.c:22-36 | Refines `KernelModel.LoadContext`: the whole processor state comes from the process, which becomes running |
| `OperatingSystem.Os.RequestResource` | src/kernel/resourceManager.c:47-59 | Granted exactly when a unit is free; a denied process is suspended, marked, and queued if there is room |
| `OperatingSystem.Os.ReleaseResource` | src/kernel/resourceManager.c:61-82 | The longest-waiting process, if it is still in the table, becomes ready; without waiters the unit is free |
| `OperatingSystem.Os.SwitchContext` | src/kernel/context_switcher.c:38-59 | Refines `KernelModel.ContextSwitch`, which the context theorems are about: whom it saves, whom it loads, and the processor afterwards |
| `OperatingSystem.Os.EnqueueIoRequest` | src/kernel/ioHandler.c:65-94 | Refines `KernelModel.EnqueueIo`; succeeds exactly when a unit is free and the ring has room, and a full ring gives the unit back |
| `OperatingSystem.Os.CompleteRequest` | src/kernel/ioHandler.c:20-63 | Refines `KernelModel.CompleteIo`: transfer, release, wake-up, in that order, and nothing without a requester |
| `OperatingSystem.Os.StepRing` | src/kernel/ioHandler.c:96-111 | Refines `KernelModel.StepIo`: an empty entry is skipped, a fresh request waits one step, a due one is completed and its entry cleared |
| `OperatingSystem.Os.KernelHandle` | src/kernel/kernel.c:39-112 | Refines `KernelModel.KernelHandleInterrupts`: program interrupts before system interrupts before the timer, one of them per call |
| `OperatingSystem.Os.InterruptHandlerEntry` | src/kernel/interruptHandler.c:27-93 | Refines `KernelModel.InterruptHandler`: the reactions run between claiming and returning the timer, and the unit is returned exactly when it was held |
| `OperatingSystem.Os.SystemRequest` | src/kernel/kernel.c:71-86 | Refines `KernelModel.HandleSystemRequest`: the request is queued for the current process, which blocks unless a denial suspended it, and the I/O handler is woken |
| `OperatingSystem.Os.HandleSi` | src/kernel/interruptHandler.c:49-66 | Refines `KernelModel.ReactToSi`: a HALT retires the machine to blame and wakes its parent |
| `OperatingSystem.Os.HandlePi` | src/kernel/interruptHandler.c:67-80 | Refines `KernelModel.ReactToPi`: a governor is woken and the machine to blame is retired if it still exists |
| `OperatingSystem.Os.JobGovernorEntry` | src/main.c:105-171 | Refines `KernelModel.JobGovernor`, which the handshake theorems are about, return code included |
| `OperatingSystem.Os.RunGovernor` | src/main.c:128-165 | Refines `KernelModel.RunGovernorVm`: a trap queues the request and blocks, any other end destroys the machine |
| `OperatingSystem.Os.LoaderEntry` | src/kernel/loader.c:243-266 | Refines `KernelModel.RunLoader`: without a parent or its machine nothing happens; success marks the parent loaded |
| `OperatingSystem.Os.LoadForParent` | src/kernel/loader.c:79-85 | Refines `KernelModel.LoadFor`: the memory unit is returned on every path on which it was granted |
| `OperatingSystem.Os.StartStopEntry` | src/main.c:179-210 | Refines `KernelModel.StartStop`: the table is cleared, start-stop processes excepted, exactly when no work is left |
| `OperatingSystem.Os.RunDirect` | src/kernel/scheduler.c:286-341 | Refines `KernelModel.RunVm`: a machine without a governor is swapped in, run, and swapped out, removed or suspended |
| `OperatingSystem.Os.Suspend` | src/kernel/scheduler.c:316-333 | Refines `KernelModel.SuspendVm`: the memory is swapped out exactly when the request was queued and the slot exists |
| `OperatingSystem.Os.Prepare` | src/kernel/scheduler.c:246-253 | Refines `KernelModel.Prologue`: a left-over current process is saved (`TurnLaws.LeftOverIsSaved`), and a process with a machine is remembered as the last to run one (`TurnLaws.BlamedExactly`) |
| `OperatingSystem.Os.DispatchSlot` | src/kernel/scheduler.c:242-345 | Refines `KernelModel.Dispatch`, the step all whole-run theorems are about |
| `OperatingSystem.Os.RunSlots` | src/kernel/scheduler.c:237-346 | The loop over a range of slots is the recursion `KernelModel.RunRange` the theorems induct over |
| `OperatingSystem.Os.Cycle` | src/kernel/scheduler.c:348-356 | One cycle is the system half and then the user half of the table; with the theorems above, every run of it keeps every invariant |

## Left out

- Logging, console prompts and configuration: pure input and output.
- `src/rm/channel_device.c`, `src/rm/io.c`, `src/vm/vm_channel.c`: console and device plumbing that scheduled runs do not use.
- `src/kernel/mmu.c`: never called.
- `templateCycle`, `sysCycle`, `dispersedSysCycle`, `fullCycle`, `removeProcN`, `readFileToBuffer`, `runInstruction`, `pseudo_runVM`, `custom_runVM`, `loadDiskProgram`, `loadProgram`: not reached from a scheduler cycle.
- `malloc`, `free` and pointer lifetime: in the kernel model a process is a value in its slot, the scheduler's current pointer is a slot index, and pointers held by the I/O ring and `lastVM` are serial numbers, so a pointer to a freed process is one that finds nobody. Two processes sharing one virtual machine object cannot be expressed.
- Function pointers: an entry function is the process type plus whether there is an entry at all.
- The class `OperatingSystem.Os` keeps resources, disk and virtual machines as values and applies the specification functions of `Resources`, `Swapper`, `DiskTraffic`, `Loader` and `VirtualMachine` to them; the in-place forms of those are the classes and methods of their own modules.
- `kernel->current`, `sch->cycle`, `holdsRes`, process names, `DS`, `CS` and `PTR` of the virtual processor, and the disk's `head`, `ready` and `id`: never read, or always the same.
- `src/rm/timer.c`: the counter is replaced by an arbitrary set of turns at which the timer has gone off.
- The register, operand and mode range checks after decoding: the fields are too narrow for them to fail.
- The promotion of `uint16_t` operands to `int` in a C multiplication: the product is taken modulo 2^16.
- RealMachine.Machine.ExecCycle: carries a budget of passes, because a jump or an uncleared SYS interrupt can keep the source's loop going for ever.
- DiskTraffic.CompleteRead: a buffer address past the end of virtual memory, which would make the source copy outside it, has no effect in the model; `IoSafety.BoundsSurvive` shows that no reachable request has one.
- DiskTraffic.CompleteWrite: the same for a WRITE.
- Requests queued from the real processor's own system interrupts are modelled, but the I/O bounds are about traps of virtual machines: in scheduled runs the real processor's program and system latches stay empty, which is part of the invariant.
- RealMachine.Machine.RunUntilInterrupt: carries the same budget of passes as the loop around it.
- Isa.InstructionRecord.DecodeReal: reports an unknown opcode to its caller, `ExecOneCycle`, which raises the program interrupt.
- Resources.Ring.Request: speaks of the resource alone; the marking and suspension of the process are in `OperatingSystem.Os.RequestResource`.
- Resources.ResourceManager.Request: the same.
- Resources.Ring.Release: speaks of the resource alone; the waking of the process is in `OperatingSystem.Os.ReleaseResource`.
- Resources.ResourceManager.Release: the same.
- KernelInvariant.EnqueueIoGood: assumes a request within the bounds of the interpreter's check; requests from the real processor's own registers are unchecked in the source, and cannot arise while its latches are quiet.
- OperatingSystem.Os.StartStopEntry: does not deactivate the timer; timer expiries after a shutdown stay possible in the model.
- Protection of disk sectors: a WRITE may name any sector, so the code does not keep images and swapped-out memory apart from it; `DiskOfRuns.SectorsOfRuns` says which sectors a run changes, and the theorems about images and swapped-out memory ask that theirs be spared.
- SwappedReads.ReadSurvivesExactly: speaks of the next turn only; that the process has not been swapped in or out since the trap is asked of the state in which the loop reaches it again.
- StrayProcesses.StrayForEver: holds while at most 158 processes have been added, because a wake-up names a process by its identifier.
- GovernorProtocol.HandshakeOverRuns: holds while at most 158 processes have been added, because identifiers wrap and identifier 0 names nobody.
- PendingRequests.NoDanglingRequest: holds under the same bound and until start-stop has shut the system down, since shutdown clears processes whose requests are still queued.
