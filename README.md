# Queue simulation core, in Dafny

This project models the discrete, tick-driven logic of a single-CPU
process-queue simulation written with pygame. The model covers both
generations of the program.

**The new engine** has five parts:

- A `Process` (module `Processes`) moves through six states, declared in
  module `ProcessStates`.
- A one-slot `Computer` (module `Computers`) can be stopped and resumed. It
  has a private FIFO queue and a processing time.
- A `ProcessGenerator` (module `Generators`) hands out consecutive ids.
- A `ConnectionSystem` (module `ConnectionSystems`) moves processes through
  three lists:
  - the input queue;
  - the transit list, which holds at most five processes;
  - the CPU queue.

  Admission is capacity-checked. Each tick runs in a fixed order: promotion
  into transit, arrival, then dispatch to the computer.
- A `ShopPanel` (module `Shop`) keeps a table of items that can each be
  bought once, gated by the player's score.

**The old engine** is the loop that the entry point drives. It has three
parts:

- `QueueSimulator` (module `QueueSimulators`) uses a clamped index into a
  table of generation frequencies, and a frame counter that fires process
  generation.
- A FIFO waiting line is served by an idle processor.
- A list of on-screen processes is pruned of the inactive ones.

Its entities are `Processo`, `Computador` and `GeradorProcessos` (modules
`Processos`, `Computadores` and `Geradores`).

**Grid arithmetic** lives in module `GridHelper`. The constants of the two
configuration files are in `Configuracao` (old engine) and `Config` (new
engine).

### How the model is organised

Objects whose fields the program updates in place are Dafny classes. Their
methods carry `modifies` frames, narrowed to single fields where the
source writes only those. A field outside a method's frame is unchanged by
that method; for example, no step of the connection system's tick can
change a process's active flag. The `ensures` give the new value of each
field a method may change. "## Left out" names the fields whose new value
is not stated: positions that the source computes in floating point, and
the start time and duration of waiting processes across a whole tick.

The connection system is specified in two layers:

- The imperative class mutates `seq` fields, with loops over a copy of the
  transit list.
- A value-level reference semantics on `Lanes` does the same work as pure
  functions: `Admit`, `Promote`, `MoveAndArrive`, `ServeCpuQueue` and
  `Step`.

The `ensures` of each class method ties the new state to the matching
function. The properties (capacity, transit bound, FIFO, no process held
twice, lost work) are lemmas about those functions.

The old engine's pruning loop (`list.remove` inside a loop over a copy) is
specified the same way:

- `Poda` is the list after visiting `i` processes.
- `Filtrados` is the independent definition: it keeps the processes that
  were active.
- `PodaFiltra` proves the two agree.

### Two abstractions

- **Time.** The wall clock (`pygame.time.get_ticks()`) is an explicit
  argument, `now` or `agora`.
- **Movement.** Movement in floating point is abstracted. The caller names,
  as a set, the processes whose step this tick brings them to the target:
  `arriving` in the new engine, `chegados` in the old one. The order of the
  transit list is kept.

### Work lost by an idle, stopped computer

Two code paths lose a process when the computer is idle but stopped.

- **Arrivals.** The loop that hands over arrivals checks only `is_idle`
  (core/connection_system.py:93-95). `start_processing` does nothing while
  the computer is stopped (entities/computer.py:127). The arrival has
  already left the transit list, so it ends up in no list and not in the
  computer.
- **The CPU queue's head.** The dispatch phase pops the head of the CPU
  queue for an idle computer whether or not it is stopped
  (core/connection_system.py:102-104). The popped process is then lost the
  same way.

`IdleStoppedStep` and `IdleStoppedComputerLosesWork` state both
behaviours, as the code has them.

## Model

| member | source | states |
|---|---|---|
| ProcessStates.Value | entities/process_states.py:3-10 | `auto()` numbering: each state's value lies in 1..6 and is the state's position in declaration order |
| ProcessStates.ExactlySixMembers | entities/process_states.py:5-10 | the enum has exactly six members, every state is one of them, and they are pairwise distinct |
| ProcessStates.ValuesAreDeclarationPositions | entities/process_states.py:5-10 | two states have the same value iff they are equal; the i-th declared state has value i+1 |
| ProcessStates.DeclarationOrder | entities/process_states.py:8-10 | WAITING_CPU comes before PROCESSING, and COMPLETED has the largest value |
| GridHelper.CentroPixels | utils/grid_helper.py:15-18 | for a box at least one cell wide (high), the centre's x (y) lies inside the `para_pixels` box |
| GridHelper.OneCellBox | utils/grid_helper.py:6-18 | with the 83 x 75 grid and margin 20, a one-cell box is 43 x 35 and its centre is (83c+41, 75l+37) |
| GridHelper.GridStride | utils/grid_helper.py:6-9 | one column more moves x by the column width and leaves y; one row more moves y by the row height and leaves x |
| GridHelper.StrictlyIncreasing | utils/grid_helper.py:8-9 | x is strictly increasing in the column, y strictly increasing in the row |
| GridHelper.AdjacentCellsLeaveGap | utils/grid_helper.py:6-12 | boxes of horizontally adjacent cells do not overlap |
| Configuracao.GridConstants | config.py:7-12 | the integer divisions give a column width of 83, a row height of 75, and the margin is 20 |
| Configuracao.FrequenciasDecrease | config.py:26-32 | the frequency table has five rows whose intervals are positive and strictly decreasing |
| Processos.Processo.constructor | entities/processo.py:5-15 | a new old-engine process keeps its id and position, is active, is not in the line, and records its arrival time |
| Computadores.Computador.constructor | entities/computador.py:5-11 | a new old-engine computer is idle with no current process |
| Computadores.Computador.GetCentro | entities/computador.py:28-29 | `get_centro` equals the grid's `centro_pixels` of the computer's 2 x 2 box at (8, 4), i.e. (747, 375) |
| Computadores.CaixaDoComputador | entities/computador.py:6-8 | the computer's box is (684, 320, 126, 110) |
| Geradores.GeradorProcessos.GetCentro | entities/gerador.py:31-32 | `get_centro` equals the grid's `centro_pixels` of the generator's 2 x 2 box at (2, 4), i.e. (249, 375) |
| Geradores.CaixaDoGerador | entities/gerador.py:6-9 | the generator's box is (186, 320, 126, 110) |
| Processes.StateColor | entities/process.py:25-36 | every state has a colour; ORANGE iff WAITING_CPU or PROCESSING, BLUE iff CREATED, LIGHT_GREEN iff IN_QUEUE, PURPLE iff IN_TRANSIT, DARK_GRAY iff COMPLETED |
| Processes.Process.constructor | entities/process.py:6-23 | a new process is CREATED, active, at the spawn point, with processing time 2000 ms and both timestamps None |
| Processes.Process.Color | entities/process.py:25-36 | the process's colour is ORANGE exactly when it waits for or holds the CPU |
| Processes.Process.StartProcessing | entities/process.py:67-71 | the process is PROCESSING with start time `now` and no queue-entry time; position, activity and duration unchanged |
| Processes.Process.EnterCpuQueue | entities/process.py:73-76 | the process is WAITING_CPU with queue-entry time `now`; everything else unchanged |
| Processes.Process.IsProcessingComplete | entities/process.py:78-86 | returns true iff the process is PROCESSING and `now - start >= duration`, and then it is COMPLETED and inactive; otherwise nothing changes |
| Processes.CompletesAtMostOnce | entities/process.py:78-86 | two successive completion checks never both succeed; if the first fails the second succeeds exactly when the process is ready |
| Processes.Process.UpdatePosition | entities/process.py:88-103 | writes only the position; IN_TRANSIT or PROCESSING: reports arrival without moving; otherwise arrives exactly when within one step, snapped onto the target |
| Generators.ConsecutiveIdsIncrease | entities/generator.py:25-30 | ids handed out consecutively from 1 are strictly increasing and never repeated |
| Generators.ProcessGenerator.constructor | entities/generator.py:7-17 | the id counter starts at 1 and no id has been issued |
| Generators.ProcessGenerator.GetCenter | entities/generator.py:52-53 | for a non-negative size the centre lies in the clickable closed rectangle |
| Generators.ProcessGenerator.IsClicked | entities/generator.py:19-23 | the clickable area is the closed rectangle: its corners are hits, and no point outside its bounds is |
| Generators.ProcessGenerator.CreateProcess | entities/generator.py:25-30 | the new process gets the old counter as id and every earlier id is smaller; all ids handed out stay pairwise distinct; the counter grows by one; the process is CREATED and active at the centre |
| Computers.Computer.constructor | entities/computer.py:8-36 | a new computer is idle, running, without a current process or queued work, with processing time 2000 and the given or red base colour |
| Computers.Computer.Color | entities/computer.py:38-43 | what the colour tells the player: DARK_GRAY whenever stopped; for a base colour other than the two greys, DARK_GRAY iff stopped, GRAY iff running and idle, the base colour iff running and busy |
| Computers.Computer.Center | entities/computer.py:144-145 | for a non-negative size the centre lies in the clickable rectangle |
| Computers.Computer.IsClicked | entities/computer.py:45-49 | the clickable area is the closed rectangle: its corners are hits, and no point outside its bounds is |
| Computers.Computer.ToggleStop | entities/computer.py:51-56 | flips the stopped flag; records the idle flag only when stopping; touches neither the queue, the current process nor the idle flag |
| Computers.Computer.Stop | entities/computer.py:58-63 | afterwards stopped; the idle flag is recorded only on a real transition, so a second stop changes nothing; nothing else changes |
| Computers.Computer.Resume | entities/computer.py:65-69 | afterwards running; a second resume changes nothing; nothing else changes |
| Computers.Computer.SetProcessingTime | entities/computer.py:71-75 | a positive number of seconds sets the time to the truncated milliseconds; a non-positive one changes nothing |
| Computers.Computer.QueueLength | entities/computer.py:77-80 | the length is zero exactly when the queue is empty |
| Computers.Computer.AddToQueue | entities/computer.py:82-86 | always succeeds; the process goes to the end of the queue as WAITING_CPU with entry time `now`; its position, activity, duration and start time stay; the length grows by one |
| Computers.Computer.GetNextProcess | entities/computer.py:88-92 | an empty queue yields None and stays empty; otherwise the head is removed and returned (FIFO with `AddToQueue`) |
| Computers.Computer.StartProcessing | entities/computer.py:125-133 | a no-op when stopped; otherwise the process becomes current, the computer busy, and the process PROCESSING from `now` with the computer's processing time; its position and active flag stay |
| Computers.Computer.CheckProcessingComplete | entities/computer.py:135-142 | true iff running, holding a process, and that process is ready; the slot is then freed and the process COMPLETED and inactive, with its position, duration and timestamps kept; otherwise nothing changes |
| Shop.PurchaseIndex | entities/shopPanel.py:91-97 | the first item with the id that is unpurchased and affordable, or None exactly when there is none |
| Shop.FindItem | entities/shopPanel.py:99-104 | the first item with the id, or None exactly when no item has it |
| Shop.MarkPurchased | entities/shopPanel.py:94-96 | only the chosen item's flag is set; every other item, and every price, stays as it was |
| Shop.PurchasedFlag | entities/shopPanel.py:99-104 | a true flag belongs to an item with that id that is purchased; an unknown id reads false |
| Shop.InitialTable | entities/shopPanel.py:21-62 | five items with distinct ids, none purchased, priced 10, 20, 30, 15 and 25 |
| Shop.PurchaseSucceedsIff | entities/shopPanel.py:91-97 | a purchase succeeds iff some item with the id is unpurchased and `score >= price` |
| Shop.SecondPurchaseFails | entities/shopPanel.py:94 | after a successful purchase, buying the same item again fails at any score |
| Shop.PurchaseIsReported | entities/shopPanel.py:91-104 | after a purchase the item reads as purchased, and every other id's flag reads as before |
| Shop.ItemRectsDisjoint | entities/shopPanel.py:68-82 | no point lies in the rectangles of two different items: the stride 90 exceeds the height 80 |
| Shop.ShopPanel.constructor | entities/shopPanel.py:6-66 | a new panel holds the initial table |
| Shop.ShopPanel.CalculateItemRects | entities/shopPanel.py:68-82 | one rectangle per item, item i's at (x+10, y+10+90i), width - 20 wide and 80 high |
| Shop.ShopPanel.IsClicked | entities/shopPanel.py:84-89 | None exactly when no rectangle contains the point; otherwise the item whose rectangle contains it |
| Shop.ShopPanel.PurchaseItem | entities/shopPanel.py:91-97 | succeeds exactly when `PurchaseIndex` finds an item, returning its price and marking only it purchased; otherwise (False, 0) and the table is unchanged |
| Shop.ShopPanel.IsItemPurchased | entities/shopPanel.py:99-104 | the flag of the first item with the id, and False for an unknown id |
| ConnectionSystems.Admit | core/connection_system.py:41-48 | admission grows `total_processes` by one exactly when it is below the capacity, and keeps it within the capacity |
| ConnectionSystems.AdmitKeepsDistinct | core/connection_system.py:41-48 | admitting a process the system does not hold leaves every process in one place |
| ConnectionSystems.Promote | core/connection_system.py:69-74 | transit followed by input is unchanged (no overtaking); something moves iff input is non-empty and fewer than 5 travel, and then the input head joins the end of transit; the total and the bound of 5 are kept |
| ConnectionSystems.PromoteKeepsDistinct | core/connection_system.py:69-74 | promotion holds the same processes and keeps every process in one place |
| ConnectionSystems.FilterMembers | core/connection_system.py:80-89 | the arrivals are exactly the arriving transit processes, the stayers exactly the others |
| ConnectionSystems.SplitTransit | core/connection_system.py:80-89 | arrivals and stayers together account for the whole transit list |
| ConnectionSystems.FilterDistinct | core/connection_system.py:80-89 | the arrivals and the stayers of a repetition-free transit list are repetition-free |
| ConnectionSystems.DeliverOne | core/connection_system.py:92-96 | one arrival touches neither the input nor the transit list; a new current process can only be the arrival, taken by an idle running computer; otherwise it is appended to the CPU queue, by a busy computer; nothing changes exactly when the computer is idle and stopped |
| ConnectionSystems.Deliver | core/connection_system.py:91-96 | a tick's arrivals, in order, touch neither the input nor the transit list, keep the old CPU queue as a prefix, and add at most one entry per arrival; the current process changes only for an idle running computer, and then to one of the arrivals |
| ConnectionSystems.DeliverClosedForm | core/connection_system.py:91-96 | handing over a tick's arrivals in order: a busy computer queues them all; an idle running one starts the first and queues the rest; an idle stopped one loses them all |
| ConnectionSystems.DeliverShrinks | core/connection_system.py:91-96 | delivery adds only arrivals, touches neither the input nor the transit list, and keeps the old CPU queue as a prefix |
| ConnectionSystems.DeliverKeepsDistinct | core/connection_system.py:91-96 | delivering new, repetition-free arrivals keeps every process in one place |
| ConnectionSystems.MoveAndArrive | core/connection_system.py:76-98 | the arrival phase leaves the input queue, keeps exactly the stayers in transit, and keeps the old CPU queue as a prefix |
| ConnectionSystems.MoveAndArriveShrinks | core/connection_system.py:76-98 | the arrival phase adds no process, does not grow the total, leaves the stayers in transit and keeps the old CPU queue as a prefix |
| ConnectionSystems.MoveAndArriveKeepsDistinct | core/connection_system.py:76-98 | the arrival phase keeps every process in one place |
| ConnectionSystems.ServeCpuQueue | core/connection_system.py:100-104 | something changes iff the computer is idle and the CPU queue is non-empty, and then only the head leaves; a new current process can only be that head, taken by a running computer |
| ConnectionSystems.ServeShrinks | core/connection_system.py:100-104 | the dispatch phase adds no process, does not grow the total, and keeps every process in one place |
| ConnectionSystems.Step | core/connection_system.py:62-67 | after a tick the input queue is the promoted one, and transit holds exactly the promoted list's stayers |
| ConnectionSystems.StepNeverGrows | core/connection_system.py:62-104 | a tick never increases `total_processes`, never lets more than 5 travel, and never adds a process |
| ConnectionSystems.StepKeepsDistinct | core/connection_system.py:62-104 | a tick never makes the system hold a process twice |
| ConnectionSystems.CpuQueueIsFifo | core/connection_system.py:90-104 | arrivals only append to the CPU queue, and dispatch removes only its head |
| ConnectionSystems.ServedFromHead | core/connection_system.py:100-104 | a process taken from the CPU queue is its head, and only an idle running computer takes one |
| ConnectionSystems.IdleStoppedStep | core/connection_system.py:90-104 | a tick of an idle stopped computer: promotion, arrivals leave transit, the head of the CPU queue is dropped, the computer stays idle |
| ConnectionSystems.IdleStoppedComputerLosesWork | core/connection_system.py:90-104 | every arrival, and the CPU queue's head, handed to an idle stopped computer ends up in no list and not in the computer |
| ConnectionSystems.RunKeepsBounds | core/connection_system.py:41-104 | after any sequence of admissions, ticks and completions, the total stays within the capacity and at most 5 travel |
| ConnectionSystems.ConnectionSystem.constructor | core/connection_system.py:8-25 | three empty lists, capacity 10, and the line from the generator's centre to the computer's centre |
| ConnectionSystems.ConnectionSystem.TotalProcesses | core/connection_system.py:50-55 | the total counts every held process except the computer's current one |
| ConnectionSystems.ConnectionSystem.HasCapacity | core/connection_system.py:57-60 | true iff one more process fits; under the invariant false exactly at the capacity |
| ConnectionSystems.ConnectionSystem.AddProcess | core/connection_system.py:41-48 | succeeds iff total < capacity; then the process joins the end of the input queue at the start point as IN_QUEUE, its activity, duration and timestamps kept; a rejection changes nothing; the invariant is kept |
| ConnectionSystems.ConnectionSystem.Update | core/connection_system.py:62-67 | the lists after a tick are `Step` of the lists before; every arrival is snapped onto the end point; newly queued processes are WAITING_CPU from `now`, and processes that stay queued keep their entry time; a newly started process is PROCESSING from `now` with the computer's processing time; a busy computer keeps its process, with its state, start time and duration; no process's active flag changes; the total does not grow, no process is added, the invariant is kept |
| ConnectionSystems.ConnectionSystem.ArriveAndDispatch | core/connection_system.py:64-65 | the lists become `ServeCpuQueue` of `MoveAndArrive` of the old ones; the arrivals' snap, the entry times, the started process's PROCESSING state, the busy computer's process and the active flags as for `Update` |
| ConnectionSystems.ConnectionSystem.MoveFromInputToTransit | core/connection_system.py:69-74 | the lists become `Promote` of the old ones, and a promoted process is IN_TRANSIT; only the input queue's processes can change, and only their state; the current process and the CPU queue's processes keep their state |
| ConnectionSystems.ConnectionSystem.UpdateTransitProcesses | core/connection_system.py:76-98 | the lists become `MoveAndArrive` of the old ones under the current stop flag; every arrival is snapped onto the end point; newly queued processes have entry time `now`, and the old CPU queue's keep theirs; a newly started process is PROCESSING from `now`; a busy computer keeps its process, with its state, start time and duration; no process's active flag changes; the invariant is kept |
| ConnectionSystems.ConnectionSystem.LeaveTransit | core/connection_system.py:78-89 | the arrivals, in transit-list order, are exactly the transit processes that arrive; they leave transit snapped onto the end point; the lists are otherwise untouched and no process is held twice |
| ConnectionSystems.ConnectionSystem.RemoveArrivals | core/connection_system.py:80-89 | collects the arrivals in transit order, leaves exactly the stayers in transit, and snaps each arrival onto the end point |
| ConnectionSystems.ConnectionSystem.Arrive | core/connection_system.py:86-89 | the arrival is snapped onto the end point and its one occurrence removed from transit |
| ConnectionSystems.ConnectionSystem.DeliverArrivals | core/connection_system.py:91-96 | the lists become `Deliver` of the arrivals; newly queued processes are WAITING_CPU from `now`; a newly started one is PROCESSING from `now` with the computer's processing time; every arrival that is not started keeps its start time and duration; positions and active flags stay |
| ConnectionSystems.ConnectionSystem.DeliverArrival | core/connection_system.py:92-96 | the lists become `DeliverOne` of the arrival: an idle running computer starts it, PROCESSING from `now`; a busy one has it queued as WAITING_CPU from `now`, keeping its start time and duration; an idle stopped computer leaves the arrival untouched; the current process is either the old one or the arrival |
| ConnectionSystems.ConnectionSystem.ProcessCpuQueue | core/connection_system.py:100-104 | the lists become `ServeCpuQueue` of the old ones; a newly started process is PROCESSING from `now`; a busy computer's process, every position and active flag, and the queued processes' entry times, start times and durations stay |
| QueueSimulators.Aumentada | core/queue_simulator.py:39-42 | raising the frequency moves the index up by at most one and keeps it inside the table |
| QueueSimulators.Diminuida | core/queue_simulator.py:44-47 | lowering the frequency moves the index down by at most one and keeps it inside the table |
| QueueSimulators.PassosNoIntervalo | core/queue_simulator.py:39-47 | raising or lowering the frequency keeps the index in the table, moves it by at most one, and leaves it only at the last (first) row |
| QueueSimulators.PassosSeDesfazem | core/queue_simulator.py:39-47 | away from the ends, raising and lowering undo each other |
| QueueSimulators.IntervaloMonotono | core/queue_simulator.py:39-47 | raising never lengthens the generation interval, lowering never shortens it |
| QueueSimulators.Contar | core/queue_simulator.py:62-66 | one frame: a generation resets the counter to 0, otherwise the counter advances by one; a counter below the interval stays below it |
| QueueSimulators.ContadorAbaixoDoIntervalo | core/queue_simulator.py:62-66 | a generation counter below the interval stays below it after a frame |
| QueueSimulators.GeracoesPeriodicas | core/queue_simulator.py:62-66 | with a fixed interval, n frames from counter t generate (n + t) / interval processes |
| QueueSimulators.Filtrados | core/queue_simulator.py:81-87 | the processes kept from the first i are at most i |
| QueueSimulators.Poda | core/queue_simulator.py:81-87 | after visiting i processes the pruning loop has removed at most i, and never added one |
| QueueSimulators.FiltradosMembros | core/queue_simulator.py:81-87 | pruning keeps every active process, keeps nothing new, and removes every inactive one from a repetition-free list |
| QueueSimulators.PodaFiltra | core/queue_simulator.py:81-87 | removing, in order, each process found inactive leaves exactly the active ones in their order |
| QueueSimulators.AlgumRetiradoExiste | core/queue_simulator.py:82-85 | the processor is marked busy iff some active process outside the line arrived |
| QueueSimulators.QueueSimulator.constructor | core/queue_simulator.py:9-22 | empty lists, next id 1, counter 0, frequency row 2 with interval 60, auto-generation on, an idle processor, five line positions |
| QueueSimulators.QueueSimulator.CalcularPosicoesFila | core/queue_simulator.py:24-34 | five positions, the i-th the centre of cell (4 + i, 4) |
| QueueSimulators.QueueSimulator.ObterFrequenciaAtual | core/queue_simulator.py:36-37 | a row of the table whose value is the current interval |
| QueueSimulators.QueueSimulator.AumentarFrequencia | core/queue_simulator.py:39-42 | the index steps up unless at the last row; the interval is the new row's and never longer |
| QueueSimulators.QueueSimulator.DiminuirFrequencia | core/queue_simulator.py:44-47 | the index steps down unless at row 0; the interval is the new row's and never shorter |
| QueueSimulators.QueueSimulator.ToggleGeracaoAutomatica | core/queue_simulator.py:49-50 | flips the auto-generation flag, so two calls restore it |
| QueueSimulators.QueueSimulator.GerarProcesso | core/queue_simulator.py:52-58 | a new active process with the next id at the generator's centre joins the end of both lists; the next id grows by one |
| QueueSimulators.QueueSimulator.Atualizar | core/queue_simulator.py:60-90 | one frame: at most one process generated, by the counter; only the head leaves the line, only for an idle processor, and loses its mark; the first five places are marked and the rest keep their mark; only the line's marks, the active flags and the processor's flag change; exactly the processes inactive at the start are pruned; arrivals are retired; the processor is idle iff the line is empty |
| QueueSimulators.QueueSimulator.AvancarFila | core/queue_simulator.py:62-78 | generation, marking and hand-over: the line is the old line plus the new process, less its head when the processor was idle |
| QueueSimulators.QueueSimulator.GerarPorTempo | core/queue_simulator.py:62-66 | with auto-generation on, the counter advances and one process is generated exactly when it reaches the interval; with it off nothing changes |
| QueueSimulators.QueueSimulator.MarcarFila | core/queue_simulator.py:69-73 | the first five processes of the line are marked as in the line; the others keep their mark |
| QueueSimulators.QueueSimulator.AtenderFila | core/queue_simulator.py:76-78 | an idle processor takes the head of a non-empty line, which is unmarked; otherwise the line is unchanged |
| QueueSimulators.QueueSimulator.ProcessarMovimento | core/queue_simulator.py:81-90 | the list keeps exactly the processes active at the start; an arriving process outside the line is retired; the processor is idle iff the line is empty |
| QueueSimulators.QueueSimulator.PodarProcessos | core/queue_simulator.py:81-87 | the pruning loop: the list becomes the processes active at the start; exactly the active arriving ones outside the line become inactive |

## Left out

- Rendering: every `draw`/`desenhar` method, fonts, surfaces and polygons. This is presentation only.
- Floating-point movement is not modelled, and neither are the direction along the connection line (`_calculate_direction`), `_distance_to_end`, the transport speed, the per-tick position arithmetic and `mover_para` of the old engine's process. Each is replaced by the set of processes whose step arrives this tick.
- The visual passes are not modelled: `_update_visual_positions`, `_update_input_queue_positions`, `_update_cpu_queue_positions`, `Computer.update_queue_positions`, and the moves towards the line positions in `atualizar`. They only set drawing coordinates.
- The wall clock is not read: each timestamp is the explicit argument `now` or `agora`.
- The `print` calls of the computer are output only.
- The entry point's event loop, the main menu and the info panel are user interface.
- Processes.Process.UpdatePosition: the partial step towards the target is not modelled. `withinStep` stands for "the target is within one step".
- ConnectionSystems.ConnectionSystem.AddProcess: requires the process not to be held by the system already. The source does not check this. The model assumes that callers pass a newly created process; no caller of `add_process` is part of this model.
- ConnectionSystems.ConnectionSystem.Update: the positions of processes that keep travelling are not modelled, because they are floating point. The contract also does not state that processes in the CPU queue, or left in the input queue or in transit, keep their start time and duration, nor that those left in the input queue or in transit keep their entry time. The source does not write those fields during a tick. `DeliverArrivals`, `DeliverArrival` and `ProcessCpuQueue` state it for their own step; carrying it through the three phases is beyond the verifier's resource budget.
- ConnectionSystems.ConnectionSystem.ArriveAndDispatch: does not state that CPU-queue processes keep their start time and duration, for the reason given for `Update`.
- ConnectionSystems.ConnectionSystem.UpdateTransitProcesses: does not state that CPU-queue processes keep their start time and duration, for the reason given for `Update`.
- QueueSimulators.QueueSimulator.Atualizar: the move of each lined-up process towards its drawn place is not modelled, only the mark that it stands in the line.
- Computers.Computer.SetProcessingTime: the seconds are an exact real number, and the model takes the floor of `seconds * 1000`. The source multiplies a binary floating-point number by 1000 before `int()` truncates it, so rounding can differ. For example, `1.005 * 1000` is `1004.999…` in IEEE doubles, so the source stores 1004 ms where the model stores 1005. Non-numeric input, which the user interface filters, is not modelled.
- Shop items: their colour (`Colors.CYAN`) is drawing data, and config/__init__.py does not define it.
- Geometry: the screen rectangles of the computer, the generator and the shop panel are constructor parameters. The program computes them with `GridHelper.grid_to_pixels`, which utils/grid_helper.py does not define. The computer's default positions `GridPositions.COMPUTER_1..3` are not defined in config/__init__.py either.
