# Quadrocopter simulation: a verified model

The program is a closed control loop split over two processes. A client integrates the flight
equations of a quadrocopter; at each of the four stages of every Runge-Kutta step it asks a server for
the control command, sending the thirteen numbers of its payload in two datagrams and waiting for four
numbers back. Client and server have seven threads between them, coordinated by ten one-bit condition
packs. The project models both processes, proves what the protocol guarantees over every interleaving,
proves what law, plant, integrator and reference trajectory do over the reals, and joins the two.

How the files belong together:

- `Handoff`, `Server`, `ServerRuns`, `Witness`, `Client`, `System`, `SystemWitness`: the protocol. Each
  thread is a program counter, each condition pack a flag, each UDP port a log of datagrams with a read cursor.
  `ListenerProgram`, `ServerProgram`, `ClientProgram` and `SystemProgram` are the same threads as
  classes whose methods update the programs' variables in place; running them by any schedule is a run
  of the model.
- `ConditionPack`, `PackedSystem`, `PackedWitness`: one pack with its mutex, condition variable and spurious
  wake-ups, shown to be the atomic flag the protocol takes it for; and the whole system with all ten of
  them in place of the flags, shown to reach exactly the same states.
- `Formal`, `Reference`, `Flight`, `Linearisation`, `Tracking`, `Served`: polynomial expressions with a
  formal derivative, the reference trajectory, plant and law, exact feedback linearisation and the error
  equations, for any reference and then for the command the server computes from a payload.
- `RungeKutta`, `Integrator`, `ExactFlow`: the integration step as a function and as the in-place code,
  and its exactness under a constant command.
- `ClosedLoop`, `ClosedSimulation`: integrator, protocol and law together, and run to their end.
- `Words`, `Codec`, `CodecProgram`, `FloatText`, `DoubleList`: the packet codec down to signed chars,
  the float-array printer, and the doubly linked list.

The results in short:

- Every `get_u` returns the law at its own payload or at the one before it, never anything older; and
  over any number of calls every combination of the two is the outcome of some schedule, so that the
  possible replies are known exactly. The lag comes from the zero request loaded at start-up; a fresh
  reply is possible because the server stores a result before it waits for its sender.
- That the server sends calculation k as datagram k is false of two or more pairs of datagrams, and true
  under every schedule exactly of fewer. What it can send is known exactly too.
- In the protocol nothing can block for good, under any schedule: q calls take at most 43q + 34 steps, and a state is
  stuck exactly after that many, with all calls returned. With mutexes, condition variables and w
  spurious wake-ups in place it is 301q + 3w + 259 steps.
- Where g + V3 is not zero, law and plant make z'' = V3, psy'' = V4, x'''' = V1 and y'''' = V2
  exactly, for a reference whose entries differentiate to one another.
- The reference the program computes is not such a one. `ddres` (server/nrutil.c:125) is the negated
  second derivative; the comment above it calls the entries derivatives. The model follows the code,
  states for which calls the entry is right (in the program's own, only at time 5), and states what the
  error equations become.
- A Runge-Kutta step under one command is the exact solution, and so is any number of them.
- From the zero start x and y motion stay equal throughout, whichever reply wins each race.
- The client's loop stops for good in its second `print_calc_data`, since nothing raises
  `printer_from_signal` again (client/run_printer.c:47-63): it makes eight calls. A printer that answered
  would let it make 44.
- A float array sent to a listener is decoded unchanged, whatever its reused buffer held before, exactly when
  4 len + 8 <= MAXBUF = 2^20. The codec on its own round-trips exactly when 4 len + 8 < 2^32.

Numbers of the control and integration part are `real`; the codec works on bit patterns. A quotient with
divisor zero has the value zero (`Flight.Quotient`); the results on x and y tracking exclude that case, those on
z, psy and symmetry do not. `tanh` is an arbitrary function in the law, and in the
trajectory a variable with the differential equation phi' = st (1 - phi^2). Ports are lossless and keep
order.

## Model

| member | source | states |
|---|---|---|
| `Handoff.TokenConserved` | server/main.c:134-141 | for one stock slot: the two flags of its pair, the listener's turn and the reader's turn always add up to one token |
| `Handoff.ListenerStepKeeps` | server/run_listener.c:22-39 | every listener step keeps the slot invariant; a batch is stored only into an empty slot and its flag is raised only when down |
| `Handoff.ReaderStepKeeps` | server/main.c:266-286 | taking the flag, cleaning the slot and raising the partner flag keep the slot invariant; the partner flag is never raised twice |
| `Handoff.ReaderFindsBatch` | server/main.c:288-290 | while the reader may read, the slot holds exactly the datagram of its current round and the listener is outside its critical section |
| `Server.InitialInv` | server/main.c:110-141 | the start-up flags and empty stocks satisfy the server invariant, whatever has already arrived |
| `Server.ListenerKeepsInv` | server/run_listener.c:22-39 | a step of either listener keeps the server invariant |
| `Server.CalculatorKeepsInv` | server/main.c:94-103 | every step of the calculator's round keeps the server invariant |
| `Server.SenderKeepsInv` | server/run_sender.c:16-26 | every step of the sender's round keeps the server invariant |
| `Server.SenderKeepsSent` | server/run_sender.c:39-43 | what the sender fetches is the calculation of its own round or the next, although the store is read without a lock |
| `ServerRuns.RunInv` | server/main.c:89-104 | the invariant holds in every reachable state under every interleaving, and the step counters count every thread step exactly once |
| `ServerRuns.SentWindow` | server/main.c:100-103 | in every run the k-th datagram sent is calculation k or k + 1, the law at that pair of batches, and the picks never go backwards |
| `ServerRuns.TokensConserved` | server/main.c:134-141 | in every reachable state each of the three flag pairs has exactly one token |
| `ServerRuns.CalculationsPairUp` | server/main.c:288-317 | calculation k is the law at batch k of port one followed by batch k of port two: nothing skipped, nothing used twice |
| `ServerRuns.Exclusion` | server/run_listener.c:77-98 | in every reachable state no two threads are at one slot, no unread batch is overwritten and no raised flag is raised again |
| `ServerRuns.RunsAreBounded` | server/main.c:89-104 | with n1 and n2 datagrams a run has at most 24 min(n1, n2) thread steps and up to six more for what cannot be paired, given exactly; no thread can move if and only if it has had that many, fair or not |
| `ServerRuns.StopsExactlyWhenDrained` | server/run_sender.c:16-26 | a state is quiescent if and only if it is drained; then min(n1, n2) calculations have been made and as many results sent |
| `Witness.SendsExactlySendable` | server/main.c:98-103 | for whatever has arrived: a sequence of calculations is what some schedule has sent if and only if datagram k carries calculation k or k + 1 and that pair has arrived |
| `Witness.OneToOneExactlyForOnePair` | server/run_sender.c:39-41 | calculation k is datagram k under every schedule if and only if at most one pair of datagrams can be formed |
| `Client.InitialInv` | client/main.c:149-152 | the client's start-up flags with the pre-loaded zero request satisfy its invariant |
| `Client.StepKeepsInv` | client/main.c:450-479 | every step of get_u, of the sender and of the listener keeps the client invariant |
| `Client.SenderFindsStock` | client/run_sender.c:31-34 | while the sender copies the stock the caller is not writing it and both halves belong to the request due |
| `System.SplitJoins` | client/main.c:455-456 | the 6 + 7 split followed by the server's concatenation restores the payload |
| `Client.SentInHalves` | client/main.c:451-456 | whatever has been sent to the server's two ports is numbers 1 to 6 and numbers 7 to 13 of the requests in order |
| `System.CalculationsMatchRequests` | server/main.c:304-317 | calculation k of the server is the law at the client's k-th whole request |
| `System.RepliesAreFresh` | client/main.c:450-479 | end to end over all interleavings of seven threads: the j-th get_u returns the law at its own payload or the one before, never older, and never steps back |
| `SystemWitness.RepliesExactly` | client/main.c:450-479 | for any payloads of any number of calls: a sequence of replies is what some schedule of the whole system returns if and only if each is the law at the payload of its call or the one before, in any combination |
| `System.NoDeadlock` | client/main.c:457-469 | when no thread can move, the caller is between calls and every call has its reply |
| `System.EveryCallReturns` | client/run_sender.c:25-48 | with q calls every schedule has at most 43 q + 34 events, is stuck exactly at that number, and then all q calls have returned |
| `System.AtMostTwoOutstanding` | client/run_sender.c:31-45 | at most two requests are sent and unanswered, so no port ever holds more than two waiting datagrams |
| `System.ClientTokensConserved` | client/main.c:149-153 | in every reachable state of the whole system each of the client's two flag pairs has exactly one token |
| `System.ClientExclusion` | client/run_listener.c:22-26 | on the client no stock is touched by two threads at once, nothing unsent or unread is overwritten and no flag is raised twice |
| `ListenerProgram.ListenerThread.ReceivePacket` | server/run_listener.c:28-29 | the next datagram of the port becomes the listener's batch, as the listener step prescribes |
| `ListenerProgram.ListenerThread.WaitUntilCalcReads` | server/run_listener.c:101-109 | the flag that permits storing is consumed |
| `ListenerProgram.ListenerThread.StoreBatch` | server/run_listener.c:77-98 | a copy of the batch and its length replace the slot's content |
| `ListenerProgram.ListenerThread.SignalListenerReady` | server/run_listener.c:111-117 | the flag that announces the batch is raised and the round ends |
| `ListenerProgram.ListenerThread.GetStock` | server/data_struct.c:44-54 | an array of its own with as many floats as the length beside the slot says: the slot's batch, or none |
| `ServerProgram.Program.constructor` | server/main.c:110-141 | the program starts in the initial state of the server |
| `ServerProgram.Program.WaitListenersWrite` | server/main.c:261-274 | consumes the two listeners' flags, one step each, and nothing else changes |
| `ServerProgram.Program.ReadBatches` | server/main.c:288-290 | copies both slots, one step each |
| `ServerProgram.Program.CleanBatchStock` | server/data_struct.c:55-62 | both slots become NULL |
| `ServerProgram.Program.SignalRead` | server/main.c:276-286 | raises both listeners' permission flags in order |
| `ServerProgram.Program.CalculateRes` | server/main.c:304-327 | a new array with the law at first batch ++ second batch goes into the result store, the length after it |
| `ServerProgram.Program.WaitForSender` | server/main.c:336-344 | consumes the sender's flag, after the result has been stored |
| `ServerProgram.Program.SignalCalculated` | server/main.c:329-334 | raises the sender's flag and ends the round |
| `ServerProgram.Program.WaitForCalculator` | server/run_sender.c:29-37 | consumes the calculator's flag |
| `ServerProgram.Program.SendCalcs` | server/run_sender.c:39-55 | fetches length and pointer and sends, in that order |
| `ServerProgram.Program.SignalSenderReady` | server/run_sender.c:75-81 | raises the flag the calculator waits for and ends the round |
| `ServerProgram.Program.Execute` | server/main.c:80-108 | any schedule of the program is a run, so after it every datagram sent is the law at its own pair of batches or the next, and slots are held exclusively |
| `ClientProgram.Program.constructor` | client/main.c:114-160 | the program starts in the initial state, with the zero request in the sender stock |
| `ClientProgram.Program.CallGetU` | client/main.c:450-456 | entering get_u records the payload as the next request |
| `ClientProgram.Program.FillStock` | client/main.c:458-459 | the first six and the last seven numbers go into the sender stock, one step each |
| `ClientProgram.Program.ReadListenerBatch` | client/main.c:463-468 | takes the listener's flag, copies the batch, keeps its first four floats and empties the stock |
| `ClientProgram.Program.ReturnU` | client/main.c:469-478 | raises the listener's permission flag and returns those floats |
| `ClientProgram.Program.FetchBatches` | client/run_sender.c:102-110 | copies both halves of the stock, one step each |
| `ClientProgram.Program.SendCalcs` | client/run_sender.c:56-76 | sends first half and second half to the server's two ports |
| `SystemProgram.Programs.Execute` | client/main.c:329-339 | running both programs by any schedule: every reply returned is in the one-request window and no port holds more than two datagrams |
| `ConditionPack.StepKeepsInv` | client/threading_stuff.c:32-46 | every micro-step, spurious wake-ups included, keeps mutual exclusion and the pending-wake-up invariant |
| `ConditionPack.NoLostWakeUp` | client/threading_stuff.c:32-46 | no reachable state has the flag up and the waiter asleep unless the signaller, holding the mutex, is about to notify |
| `ConditionPack.RunRefines` | client/threading_stuff.c:32-46 | every run of the micro-steps performs a run of an atomic binary semaphore, with calls and returns in place |
| `ConditionPack.TakesComeFromRaises` | client/threading_stuff.c:32-46 | on the semaphore takes, the flag still up and the raises lost to a flag already up account for every raise, and each returned call took effect exactly once |
| `ConditionPack.RaisedFlagIsTaken` | client/threading_stuff.c:34-37 | with the flag up and the waiter inside its call, at most eight steps pass before it takes the flag, and until then some thread can move |
| `ConditionPack.Pack.MoveWaiter` | client/threading_stuff.c:32-39 | one step of wait_with_pack on the condition pack's fields |
| `ConditionPack.Pack.MoveSignaller` | client/threading_stuff.c:41-46 | one step of signal_with_pack on the condition pack's fields |
| `ConditionPack.Pack.Execute` | client/threading_stuff.c:32-46 | any schedule of calls, steps and spurious wake-ups on a pack performs a semaphore run and loses no wake-up |
| `PackedSystem.MoveTouches` | server/main.c:89-104 | a step of one of the seven threads leaves the others where they are and changes just the flag of the pack it waits on or signals |
| `PackedSystem.PackFollows` | client/threading_stuff.c:32-46 | inside the whole system each of the ten packs takes its own micro-steps and stands still at every other event |
| `PackedSystem.StepKeepsInv` | client/threading_stuff.c:32-46 | every event keeps the pack invariants, the system's invariant, and each thread's call at its wait or signal |
| `PackedSystem.NoWakeUpIsLost` | client/threading_stuff.c:34-44 | in no reachable state of the whole system does a thread sleep beside a raised flag unless its notification is next |
| `PackedSystem.RunRefines` | client/main.c:149-159 | forgetting mutexes, condition variables and the insides of calls, every run with the packs in place is a run of the system with atomic flags, with the same calls |
| `PackedSystem.RepliesAreFresh` | client/main.c:450-479 | the one-request window of replies, with the packs in place |
| `PackedSystem.RestingThread` | client/threading_stuff.c:34-36 | when nothing can happen but a new call or a spurious wake-up, no thread is held up by anything but a flag that is down |
| `PackedSystem.EveryCallReturns` | client/main.c:450-479 | q calls and w spurious wake-ups take at most 301 q + 3 w + 259 micro-steps under any schedule, and when nothing else can happen every call has returned |
| `PackedWitness.SameReachableStates` | client/threading_stuff.c:32-46 | with the packs in place exactly the same states of the system are reached as with atomic flags |
| `Reference.EntryIsComponent` | server/nrutil.c:118-134 | the polynomials in phi used below denote the five entries the code computes, for all phi, st, low and high |
| `Reference.EntryDifferentiates` | server/nrutil.c:123-129 | under phi' = st (1 - phi^2) each entry differentiates to the next one, with a sign change on entering and on leaving entry 2 |
| `Reference.JetAgainstDerivatives` | server/nrutil.c:123-134 | entries 1, 3 and 4 are the first, third and fourth derivative of entry 0, and entry 2 is the negated second derivative |
| `Reference.SecondEntryRightOnlyAtZero` | server/nrutil.c:125 | entry 2 is the second derivative if and only if high = low, st = 0, phi = 0, phi = 1 or phi = -1 |
| `Reference.SecondEntryRightExactly` | server/nrutil.c:114-125 | for any tanh with its bounds and its only zero, a call gets entry 2 right if and only if high = low, st = 0 or t = tRaise |
| `Reference.SecondEntryRightOnlyAtFive` | server/calculate.c:14-17 | with the program's own arguments it is right at time 5 and wrong at every other |
| `Reference.CallAgainstDerivatives` | server/nrutil.c:114-134 | all five entries of a call against the derivatives of low + (high - low)/2 (1 + phi) at phi = tanh(st (t - tRaise)), with phi' = st (1 - phi^2): equal but for the sign of the second |
| `Reference.ReferenceRises` | server/nrutil.c:118-123 | entry 0 of a call lies strictly between low and high, and half-way if and only if t = tRaise |
| `Formal.DIsDerivative` | server/nrutil.c:118-134 | the formal derivative used for the trajectory and the control law is the true one: along every expandable curve an expression moves by it to first order, with an explicit remainder |
| `Formal.SameFunctionSameDerivative` | server/nrutil.c:118-134 | expressions that denote the same function have the same derivative, so results do not depend on how an entry is written |
| `Linearisation.FlowIsPlant` | client/calculate.c:79-97 | the rules along which derivatives are taken are the twelve flight equations under the law's thrust |
| `Linearisation.LawKnowsV3Derivatives` | server/calculate.c:89-91 | the derivatives of V3 along the flow are dotV3 and ddotV3 for a consistent reference, and differ from them by an explicit amount for the code's |
| `Linearisation.CodeKnowsV3Derivatives` | server/calculate.c:89-91 | with the code's reference each is right if and only if a linear relation between entries 2 to 4 happens to hold |
| `Linearisation.LiftAcceleration` | server/calculate.c:84-91 | the second derivative of V3 and of the lift g + V3 along the flow |
| `Tracking.CommandSolves` | server/calculate.c:103-117 | where g + V3 is not zero the commanded angular accelerations solve the tilt equations for V1 and V2 |
| `Tracking.LawLinearises` | server/calculate.c:82-124 | exact feedback linearisation: z'' = V3, psy'' = V4, x'''' = V1, y'''' = V2, for every state and every consistent reference with g + V3 not zero |
| `Tracking.LawLinearisesZAndPsy` | server/calculate.c:82-91 | its z, psy and V3 parts for every state, g + V3 = 0 included |
| `Tracking.TrackingErrors` | server/calculate.c:19-28 | the four error equations for both kinds of reference, with their exact right-hand sides |
| `Tracking.ZAndPsyErrors` | server/calculate.c:23-28 | the z and psy error equations for both kinds of reference, g + V3 = 0 included |
| `Tracking.ConsistentErrorsDecay` | server/calculate.c:19-28 | with a consistent reference (D + 30)^4 e = 0 on x and y, e'' + 30 e' + 30 e = 0 on z, e'' + 125 e' + 125 e = 0 on psy |
| `Tracking.ConsistentZAndPsyDecay` | server/calculate.c:23-28 | its z and psy parts for every state, g + V3 = 0 included |
| `Tracking.CodeErrorsDriven` | server/nrutil.c:125 | with the code's reference the z and psy equations are homogeneous if and only if its second entry is zero, for every state |
| `Tracking.ResidualForCode` | server/nrutil.c:125 | what drives the x and y equations with the code's reference, and when it vanishes at zero tilt |
| `Tracking.CodeReferenceMoves` | server/nrutil.c:118-134 | the flow used for the code's case moves each reference variable as tanRh's entry moves along tanh's differential equation |
| `Flight.PlantObeysNewton` | client/calculate.c:79-97 | 0.53 times each acceleration of the position is the force along its axis, and 0.00623, 0.00623 and 0.012 times the angular ones the torques; positions move at their rates |
| `Flight.LevelFlight` | client/calculate.c:81 | the height's rate stays if and only if the thrust is 5.1993, the weight |
| `Flight.LawInNumbers` | server/calculate.c:82-87 | u1 and u4 of the law in numbers, mass and moment of inertia included |
| `Served.ServedNumbers` | server/calculate.c:52-87 | u1 and u4 of every command the server computes, in the numbers of its payload, the time being entry 12 and phi = tanh(time - 5) |
| `Served.ServedAtFive` | server/calculate.c:66-87 | at time 5 the thrust is 0.53 (9.81 - 30 (z - 5) - 30 (z' - 5)) |
| `Served.ServedMoves` | client/calculate.c:79-97 | along the flow the derivatives are taken by, the twelve state variables move as the plant does under the served command |
| `Served.ServerLinearises` | server/calculate.c:52-124 | exact feedback linearisation for the server's own command on a thirteen-number payload, wherever its thrust is not zero |
| `Served.ServedErrorsDecay` | server/calculate.c:19-28 | the four error equations for that command are homogeneous, were the reference through those numbers consistent |
| `Served.ServedErrors` | server/calculate.c:66-124 | their right-hand sides along the motion of the reference the programs compute |
| `Served.ServedZAndPsyErrors` | server/nrutil.c:125 | of those the z and psy ones are twice the second entry, thrust or no thrust |
| `Served.ServedReferenceMoves` | server/nrutil.c:114-134 | that motion is how the reference's numbers do move along phi' = 1 - phi^2 |
| `RungeKutta.RequestLocal` | client/main.c:400-436 | payload k of a simulation depends only on the replies to calls before k |
| `RungeKutta.RequestLayout` | client/main.c:400-436 | payload k has thirteen numbers, the stage's state and last its time: (k / 4) steps from the start, and half a step more for its second and third stage, a whole one for its fourth |
| `RungeKutta.RequestsObeyPlant` | client/main.c:411-440 | the first payload of a step carries its state, each later one that state moved along the plant's rates at the payload before under the reply to that, and the step ends where the four rates take it |
| `RungeKutta.MomentumIsImpulse` | client/main.c:329-333 | over n steps mass times the gain of z' is the impulse of the thrusts replied less the weight's, and inertia times the gain of psy' that of the yaw torques: each reply counted once |
| `Integrator.Plant.SetU` | client/calculate.c:42-47 | the four globals become the command |
| `Integrator.Plant.Derivs` | client/calculate.c:62-98 | the array filled in place holds the right-hand side of the flight equations under the command just set, in numbers |
| `Integrator.CalculatorData.constructor` | client/calculate_structs.c:22-43 | zero state, clock at the start time, step a tenth of the interval |
| `Integrator.CalculatorData.GetPayload` | client/calculate_structs.c:49-65 | the twelve state variables and the time, in a fresh array |
| `Integrator.CalculatorData.SetCalcData` | client/calculate_structs.c:90-103 | the state becomes entries 1 to 12 of the vector; times and step stay |
| `Integrator.NormalizeVector` | client/main.c:481-488 | entries 1 to 12 moved down by one, and the time at the end |
| `Integrator.Advance` | client/main.c:417-423 | the work array becomes y + h d componentwise |
| `Integrator.AdvanceAndSum` | client/main.c:429-432 | the work array becomes y + h k3 from the old k3, while that array becomes k3 + k2 |
| `Integrator.Finish` | client/main.c:438-439 | the result is y + h6 (k1 + k4 + 2 sum) componentwise |
| `Integrator.FinishIsRk4` | client/main.c:438-439 | with the sum k3 + k2 that is y + h/6 (k1 + 2 k2 + 2 k3 + k4) |
| `Integrator.GetNextStep` | client/main.c:380-448 | the in-place step replaces the state by the Runge-Kutta value, each stage under its own command, and asks for exactly the four stage payloads in order, the first carrying the state and each the time of its stage |
| `Integrator.Printer.PrintCalcData` | client/main.c:354-362 | returns if and only if its flag is up; the flag is up again afterwards only with a printer that answers |
| `Integrator.DoClientCalculations` | client/main.c:329-339 | the loop takes n steps in order, asks for exactly their payloads and leaves the state after n steps; it ends just past the end time, or blocked in the print after the one the flag permits |
| `Integrator.RequestsAre` | client/main.c:400-436 | payload number k of the loop is the closed loop's request number k |
| `Integrator.RequestsAreStamped` | client/main.c:400-436 | every payload of the loop has thirteen numbers, its time last |
| `Integrator.Simulate` | client/main.c:123 | from the zero state and unless the interval is backward: two steps, eight calls and then blocked with the source's printer; in exact arithmetic 11 steps and 44 calls with one that answers; every payload stamped with its time |
| `ExactFlow.StepIsExact` | client/main.c:411-440 | with one command for all four stages a step of any size lands exactly on the solution, a quartic in h for x and y |
| `ExactFlow.FlownJoins` | client/calculate.c:79-97 | the solution is a flow: a then b is a + b, for all real times |
| `ExactFlow.FlownObeysDerivs` | client/calculate.c:79-97 | at every moment and in every component the solution moves with the plant's derivative, up to an explicit second-order term |
| `ExactFlow.StepsAreExact` | client/main.c:329-333 | n steps of size h are the exact flight over n h, for every n |
| `ClosedLoop.LawIsBalanced` | server/calculate.c:95-117 | on a symmetric payload U3 = -U2 for every reference, division by zero included |
| `ClosedLoop.DerivsKeepSymmetry` | client/calculate.c:79-83 | a balanced command keeps the derivatives symmetric |
| `ClosedLoop.Rk4KeepsSymmetry` | client/main.c:403-440 | four balanced commands keep a whole step symmetric |
| `ClosedLoop.FlightStaysSymmetric` | client/main.c:403-440 | any number of steps, with either admissible reply at each stage, keeps Vx = Vy, VdotX = VdotY, Vphi = -Vtheta, VdotPhi = -VdotTheta |
| `ClosedLoop.ClosedLoopStaysSymmetric` | client/main.c:341-352 | in every reachable state of integrator, protocol and law together every command used is admissible, every request symmetric and every reply balanced |
| `ClosedLoop.SimulatedStateIsSymmetric` | client/calculate_structs.c:30-41 | the simulated state is symmetric after every step whose replies have arrived, under every interleaving |
| `ClosedLoop.ClosedRunContinues` | client/main.c:329-333 | a loop that is to make q calls never deadlocks: while one is to be made or a thread can move, the closed run goes on |
| `ClosedLoop.ClosedRunCompletes` | client/main.c:329-333 | with an integrator that makes q calls every closed run has at most 43 q + 34 events, has that many exactly when all have returned and no thread can move, and can be continued until then |
| `ClosedSimulation.CompletedRunFlies` | client/main.c:99-110 | in a completed run of n steps the requests after the zero request are those of the integrator under the replies it got, and they leave it in a symmetric state |
| `ClosedSimulation.Fly` | client/main.c:99-110 | the integrator's code under the replies of a completed run asks exactly for what that run requested and ends in a symmetric state, blocked in its print or not |
| `ClosedSimulation.ProgramStamps` | client/main.c:123 | the nine requests of the program's own run carry the times 0, 0, 0.005, 0.005, 0.01, 0.01, 0.015, 0.015, 0.02 |
| `ClosedSimulation.RepliesAreAnswers` | client/main.c:450-479 | in every reachable state reply k is, in numbers, the server's answer to the payload of its own call or of the one before |
| `Words.WordRoundTrip` | server/io_stuff.c:47-63 | decoding a word's bytes gives the word back although each char is sign-extended first |
| `Words.BytesRoundTrip` | server/io_stuff.c:47-63 | encoding the word decoded from any four bytes gives those bytes back |
| `Words.LeastSignificantFirst` | server/io_stuff.c:47-54 | the four bytes of a word are its lowest eight bits, the next eight, and so on |
| `Words.ToWordValue` | server/network_interactions.c:116 | conversion to unsigned int keeps a number modulo 2^32 |
| `Words.UintToBytesArr` | server/io_stuff.c:47-54 | the loop produces the word's bytes, least significant first |
| `Words.BytesArrToUint` | server/io_stuff.c:56-63 | the OR loop produces the word of its four bytes |
| `Codec.HeaderRoundTrip` | server/network_interactions.c:157-160 | type and length survive whatever follows the header |
| `Codec.FloatsRoundTrip` | server/network_interactions.c:198-211 | the floats' bit patterns come back in order |
| `Codec.HeaderBytes` | server/network_interactions.c:153-164 | a datagram starts with four zero bytes and the number of the bytes after its header, least significant first |
| `Codec.FloatOnTheWire` | server/network_interactions.c:112-127 | float i has its four bytes, least significant first, at 8 + 4 i |
| `Codec.KindsOnTheWire` | server/network_interactions.c:171-189 | a listener takes types 0 and 1 and no other, and of type 1 stores the count -1 |
| `Codec.SmallDelivers` | server/network_interactions.c:171-196 | below 2^32 bytes a datagram followed by anything decodes to the same type, count and floats |
| `Codec.WrappedLengthFails` | server/network_interactions.c:116 | where the length wraps but the size does not, a shorter array arrives |
| `Codec.RoundTripExactlyWhenItFits` | server/network_interactions.c:166-169 | the codec on its own: decoded whatever follows the datagram if and only if 4 len + 8 < 2^32 |
| `Codec.CutIsNotReadable` | server/run_listener.c:46 | a datagram cut at the end of the buffer announces more bytes than the buffer has |
| `Codec.ArrivesExactlyWhenItFits` | server/run_listener.c:42-47 | received into the reused buffer of MAXBUF bytes: decoded unchanged whatever it held before if and only if 4 len + 8 <= MAXBUF |
| `Codec.UnpackedExactly` | server/run_listener.c:28-29 | the listener gets these floats with their count, whatever the buffer held, if and only if they fit; otherwise some buffer makes it get others, exit or read too far |
| `CodecProgram.FillPacket` | server/network_interactions.c:112-127 | the loop with its moving offset fills the buffer with the floats' bytes and sets the truncated length |
| `CodecProgram.FloatPackToBytes` | server/network_interactions.c:153-164 | three copies make header and payload |
| `CodecProgram.BytesToPack` | server/network_interactions.c:171-196 | decodes a buffer as specified, unknown types rejected |
| `CodecProgram.GetFloats` | server/network_interactions.c:198-211 | the slicing loop yields all the packet's floats |
| `CodecProgram.Send` | server/run_sender.c:39-55 | the first size bytes of the buffer are the datagram |
| `CodecProgram.ReceivePacket` | server/run_listener.c:42-47 | the datagram overwrites the start of the buffer in place, cut at its end |
| `CodecProgram.Receive` | server/run_listener.c:28-29 | for any datagram and any buffer: the outcome is what the buffer then unpacks to |
| `CodecProgram.Transfer` | server/run_sender.c:39-55 | sending and receiving in place: the outcome is the floats sent if they fit into the buffer |
| `FloatText.TextSplitsBack` | client/io_stuff.c:116-126 | cutting the text at its terminator and splitting at spaces gives the representations in order |
| `FloatText.PrintsSplitBack` | client/io_stuff.c:103-126 | and if every print has at most 99 characters and no space, gives back exactly what "%f" prints, one part for each float |
| `FloatText.FormatAll` | client/io_stuff.c:103-112 | the first pass collects the representations, each the whole print if it has at most 99 characters, and counts exactly the bytes the second will write |
| `FloatText.Concatenate` | client/io_stuff.c:114-126 | the second pass fills exactly the counted bytes, inside the buffer, with the terminator last |
| `FloatText.FloatArrToString` | client/io_stuff.c:94-132 | NULL and empty arrays give the empty string, all others the text of their representations, out of which the prints can be split again |
| `DoubleList.DoubleLinkedList.constructor` | client/utils.c:62-77 | an empty list, or one node whose links are both NULL |
| `DoubleList.DoubleLinkedList.AddRear` | client/utils.c:79-91 | appends a node, keeps every link matched and terminates the list again |
| `DoubleList.DoubleLinkedList.AddFront` | client/utils.c:93-105 | prepends a node and keeps every link matched |
| `DoubleList.DoubleLinkedList.RemoveRear` | client/utils.c:107-114 | takes the last node off and leaves the new tail pointing at it, so the list is no longer terminated; taking the only node leaves a stale head, which is no list |
| `DoubleList.DoubleLinkedList.Forward` | client/utils.c:62-105 | nodes_count - 1 hops along next lead from head through all elements to the tail |
| `DoubleList.DoubleLinkedList.Backward` | client/utils.c:84-89 | the hops along prev visit the elements in reverse and end in NULL |
| `DoubleList.DoubleLinkedList.VisitToNull` | client/utils.c:118-124 | the walk to NULL visits exactly the list's nodes when the list is terminated |
| `DoubleList.Perform` | client/utils.c:62-114 | any sequence of allowed operations leaves a deque's contents, and the list is terminated if and only if no removal has come since the last rear addition |

## Left out

- Sockets, addresses, `recvfrom` and `sendto` errors (one of them the limit UDP puts on a datagram), loss and
  reordering of datagrams: ports are lossless FIFO logs.
- What the printer would print, and the thread itself: it never raises `printer_from_signal`
  (client/run_printer.c:47-63), which is all `Integrator.Printer` says of it.
- Rounding of floats.
- The real hyperbolic tangent; the division by zero that makes infinities or NaNs in C.
- `INIT_PACK` on the listener path (its float count is -1): the protocol carries `PACK_OF_FLOATS` only.
- The mutex around the server's two `add_..._to_batch` calls and the io mutexes: they only order output and
  single assignments, and the exclusion results do not need them.
- What a thread keeps to itself (its program point, its own copies of batches, its history) is a record of
  values in `ServerProgram` and `ClientProgram`; the stocks the threads share are arrays with their lengths.
  The flags there are booleans: `PackedSystem` puts the packs in their place on values.
- The loop counters of type `int` in `fill_packet` and `get_floats`, which would overflow beyond 2^31 floats.
- `calc_ref` writes the trajectory to a file; `calculate` and `calculate_ordinary` are not used by the server.
- `SimpleLinkedList`, whose append drops its node (client/utils.c:44-45), and the unset length of
  `get_batch_from_stock`.
- Memory, files, console output, signals, joining of threads, random sleeps, plotting and the echo programs.
- Integrator.Link.GetU: one atomic call with given replies; `ClosedLoop` says which replies the protocol
  allows, since a method cannot interleave with threads.
- Integrator.DoClientCalculations: with a printer that answers it asks for a positive step or nothing to do,
  because with a zero step the source's loop would never end.
- Integrator.Simulate: the 11 steps and 44 calls are those of exact arithmetic; how many the accumulated float
  clock gives is not modelled. The eight calls with the source's printer do not depend on it.
- ClosedLoop.ClosedRunContinues: the number of calls is given; `Integrator.Simulate` says it is 8 or 44.
- DoubleList.DoubleLinkedList.AddRear: a list that is not empty, since the source dereferences its tail.
- DoubleList.DoubleLinkedList.AddFront: a list that is not empty, since the source dereferences its head.
- DoubleList.DoubleLinkedList.RemoveRear: a list that is not empty, since the source dereferences its tail.
- DoubleList.Perform: removals of the only node are left out, since the source has no list afterwards.
- CodecProgram.Receive: what is read past the end of the buffer; the outcome says only that it happens.
- ClientProgram.Program.ReadListenerBatch: a batch of fewer than four floats is returned as it is, where the
  source would read past its end; `ClosedLoop.ClosedLoopStaysSymmetric` shows that none is shorter.
- ServerProgram.Program.Execute: every schedule is finite; the source's loops are not, and `System` bounds
  what they can do between two calls.
