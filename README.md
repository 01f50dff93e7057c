# PMP protection setup of the FreeRTOS PMP blinky demo

The demo runs two FreeRTOS tasks, Rx and Tx, in RISC-V user mode. Each task
may touch only the memory listed in its `xRegions` table, and the PMP
(Physical Memory Protection) unit enforces that. This project models the part
of `main` that sets this protection up, and proves properties of the model:

- **`PmpGate`**: the capability gate. The PMP unit must report at least 8
  entries (checked first) and a granularity of at most 4 bytes. Otherwise the
  demo writes a diagnostic and calls `_exit(0)`.
- **`RegionTable`**: the per-task `xRegions` builder, a method that works in
  place on an `array<Region>`. It zero-fills the array, then writes three
  slots field by field:
  - slot 0, the lower fence: a four-byte NA4 entry at the start of the
    unprivileged data section;
  - slot 1, the upper fence: a TOR entry at the end of that section;
  - slot 2, only when the peripheral exists on the board: a NAPOT entry over
    the peripheral's whole register aperture.

  The port's encoders `addr_modifier` and `napot_addr_modifier` are
  function-valued parameters, so nothing is assumed about how they encode
  addresses. NA4, TOR and NAPOT are the address-matching modes of section
  3.7.1 of the RISC-V Privileged Architecture (version 1.12). Here they serve
  only as tags.
- **`DemoMain`**: the `main` driver.
  - `xPmpInfo` is a class. Its `InitPmp` method updates it in place.
  - `MainSetup` runs, in order: the gate, queue creation, the one-time
    `init_pmp` (only for granularity 0), the Rx table built with UART0, the Rx
    task creation, the Tx table built with GPIO0, and the Tx task creation.
  - It models `main` as built with `portUSING_MPU_WRAPPERS == 1`, the only
    build in which the protection setup exists.
  - It returns the calls `main` makes into its collaborators as a trace of
    events: console writes, queue and task creation, `init_pmp`, each encoder
    call with its arguments, scheduler start, and task deletion. A task
    creation records the region table as it was passed.
  - The pure function `MainRun` specifies that trace. The lemmas about it
    cover these properties:
    - a rejection stops everything;
    - `init_pmp` is called exactly when granularity is 0, at most once, and
      before any encoder call;
    - every encoder call uses the granularity that `xPmpInfo` holds after
      `init_pmp`;
    - the Rx task gets the UART0 aperture and the Tx task gets GPIO0;
    - building the Tx table leaves the Rx table unchanged, which `MainSetup`
      states for the arrays.

Two properties of the code as written:

- The gate looks at `xPmpInfo` only before `init_pmp`. When granularity is 0,
  the entry count and granularity that `init_pmp` leaves behind are never
  compared with 8 and 4 again. The encoders are called with whatever
  granularity it reports (`InitReportNotRechecked`).
- The builder does not omit a region for a missing peripheral. Slot 2 stays
  all-zero, as `memset` left it. A zero slot is an OFF entry, and an OFF entry
  grants nothing. There is no check of the table against an entry budget. The
  table's size is fixed at compile time, and the gate's minimum of 8 entries
  is the only guard.

## Model

| member | source | states |
|---|---|---|
| `PmpGate.Gate` | software/example-freertos-pmp-blinky/example-freertos-pmp-blinky.c:126-137 | The outcome is "not enough entries" exactly when `nb_pmp < 8`, whatever the granularity. It is "granularity not supported" exactly when there are at least 8 entries and granularity > 4. It is "proceed" exactly when both requirements hold. Boundaries: 7 entries are rejected; with 8 entries, 4 proceeds and 5 is rejected |
| `DemoMain.RejectionStopsSetup` | software/example-freertos-pmp-blinky/example-freertos-pmp-blinky.c:123-137 | On either rejection the process ends through `_exit(0)` after writing the start message and the matching diagnostic. `main` makes no other call: no queue, no `init_pmp`, no table, no task. `xPmpInfo` is left unchanged |
| `DemoMain.ExitStatusZero` | software/example-freertos-pmp-blinky/example-freertos-pmp-blinky.c:126-267 | Every ending the model has gives exit status 0: the two `_exit(0)` calls of the gate and the return from `main` |
| `DemoMain.PmpInfo.InitPmp` | software/example-freertos-pmp-blinky/example-freertos-pmp-blinky.c:166-169 | `init_pmp` updates `xPmpInfo` in place to the values the hardware probe reports |
| `DemoMain.InitPmpBeforeEncoders` | software/example-freertos-pmp-blinky/example-freertos-pmp-blinky.c:166-192 | `init_pmp` is called if and only if `main` reaches the tables and granularity is 0. Its call comes before every encoder call. Every encoder call uses the granularity `xPmpInfo` holds after it |
| `DemoMain.InitReportNotRechecked` | software/example-freertos-pmp-blinky/example-freertos-pmp-blinky.c:126-183 | When granularity is 0, `addr_modifier` is called with the granularity `init_pmp` reports, which is not checked against 4 |
| `DemoMain.InitPmpCalledAtMostOnce` | software/example-freertos-pmp-blinky/example-freertos-pmp-blinky.c:139-169 | `init_pmp` is called at most once. Its only possible place is the third event, right after the queue is created |
| `DemoMain.BuildingRunShape` | software/example-freertos-pmp-blinky/example-freertos-pmp-blinky.c:139-266 | When the gate passes and the queue exists, the calls are, in order: start message, queue, optional `init_pmp`, the Rx encoder calls and Rx creation, the Tx encoder calls and Tx creation, scheduler start, deletion of Tx then Rx, end message |
| `DemoMain.NoInitInTables` | software/example-freertos-pmp-blinky/example-freertos-pmp-blinky.c:174-251 | Building and creating both tasks never calls `init_pmp`. Every encoder call there uses the one granularity it is given |
| `DemoMain.TasksGetTheirPeripherals` | software/example-freertos-pmp-blinky/example-freertos-pmp-blinky.c:146-251 | Rx is created with its table and Tx with its own, Rx first. Slot 2 of the Rx table is the UART0 aperture when UART0 exists and zero otherwise; for Tx the same holds with GPIO0. Without the building path no task is created |
| `DemoMain.MainSetup` | software/example-freertos-pmp-blinky/example-freertos-pmp-blinky.c:122-266 | The driver's trace equals `MainRun`. `xPmpInfo` afterwards is the probe result exactly when `init_pmp` ran. On the building path the final Rx and Tx arrays are their tables: building Tx does not disturb Rx. Otherwise both arrays are untouched |
| `DemoMain.CreateTasks` | software/example-freertos-pmp-blinky/example-freertos-pmp-blinky.c:171-251 | Emits the Rx encoder calls and Rx creation, then the Tx encoder calls and Tx creation. Leaves both arrays equal to their tables: building Tx after Rx leaves the Rx table as it was created |
| `RegionTable.BuildRegions` | software/example-freertos-pmp-blinky/example-freertos-pmp-blinky.c:174-204 | After the in-place build the array equals the task table: the granted regions followed by zero slots. The encoder calls made are the two `addr_modifier` calls (start, end), then `napot_addr_modifier` when the peripheral exists |
| `RegionTable.Entries` | software/example-freertos-pmp-blinky/example-freertos-pmp-blinky.c:178-203 | A task is granted two regions, or three when the peripheral exists |
| `RegionTable.TaskTableLayout` | software/example-freertos-pmp-blinky/example-freertos-pmp-blinky.c:174-204 | Slot 0 holds length 4, read/write NA4, base `addr_modifier(g, start)`. Slot 1 holds length 4, read/write TOR, base `addr_modifier(g, end)`. Slot 2 holds length = peripheral size, read/write NAPOT, base `napot_addr_modifier(g, base, size)` when the peripheral exists. Every slot from the first unwritten one on is all-zero |
| `RegionTable.TaskTableNonZeroCount` | software/example-freertos-pmp-blinky/example-freertos-pmp-blinky.c:174-204 | Exactly the written slots are non-zero, 2 or 3, whatever the table size: at most 3 |
| `RegionTable.TaskTableFencePair` | software/example-freertos-pmp-blinky/example-freertos-pmp-blinky.c:176-192 | Slot 1 is the only TOR entry. It directly follows the NA4 fence in slot 0, so the pair grants the window from `addr_modifier(g, start)` to `addr_modifier(g, end)` |
| `RegionTable.TaskTableNoExecute` | software/example-freertos-pmp-blinky/example-freertos-pmp-blinky.c:178-198 | No slot is executable. Every slot in use is readable and writable |
| `RegionTable.EncoderCallsMatchEntries` | software/example-freertos-pmp-blinky/example-freertos-pmp-blinky.c:181-203 | There is one encoder call per granted region, each with the builder's granularity. The k-th call yields the base address of the k-th region |

## Left out

- `addr_modifier`, `napot_addr_modifier`: their code is in the FreeRTOS RISC-V port, which is not part of this model. They are uninterpreted parameters, so nothing is proved about the bit-level encoding (injectivity, NAPOT size bits, alignment).
- `DemoMain.PmpInfo.InitPmp`: the port's `init_pmp` is not part of this model. Its effect is taken as "`xPmpInfo` becomes what the probe reports", and the probe is a parameter.
- `xQueueCreate`, `xTaskCreateRestricted`, `vTaskStartScheduler`, `vTaskDelete`, `vTaskEndScheduler`: these belong to the scheduler, so they are only recorded as events. Whether the queue is created is a parameter. The result of `xTaskCreateRestricted` is ignored by the source too.
- `prvQueueSendTask`, `prvQueueReceiveTask`: their behaviour rests on blocking queues and priority preemption, which is concurrency. The only trace of them in the model is the tasks' priorities in `TaskDefinition`.
- `pvPortMalloc` of the task stacks: heap allocation is an external collaborator. The stack buffer is not part of `TaskDefinition`.
- `prvSetupHardware` and the LED/UART driver calls: these are I/O. The console writes of `main` appear only as `Write` events carrying their message.
- `vApplicationMallocFailedHook`, `vApplicationStackOverflowHook`, `vAssertCalled`, `xPortRaisePrivilege`, and the idle and tick hooks: these are interrupt masking, privilege switches and process exit.
- `mainQUEUE_TICK_COUNT_FOR_1S` and its `_RTL_` variant: scheduler timing only.
- Widths of C integers: addresses, sizes, entry counts and granularity are unbounded naturals. The source does no arithmetic on them, so no wrap-around matters.
- The TOR window in `TaskTableFencePair` is stated on encoded addresses. Which physical bytes it covers depends on the encoders.
- The build with `portUSING_MPU_WRAPPERS` other than 1: the gate and the whole table setup are compiled out of `main` (source lines 125-265), so `main` only writes the start and end messages. Only the MPU build is modelled.
- `DemoMain.ExitStatusZero`: the exits with status 1 that `main`'s calls can reach are not modelled. A failed allocation in `pvPortMalloc`, `xQueueCreate` or `xTaskCreateRestricted` ends in `vApplicationMallocFailedHook`, and a failed `configASSERT` ends in `vAssertCalled`; both call `_exit(1)`. The lemma covers only the endings the model has.
- `RegionTable.BuildRegions`: requires that `xRegions` has a slot for every entry it writes (three when the peripheral exists, otherwise two). The C code writes `xRegions[2]` under `METAL_SIFIVE_UART0` / `METAL_SIFIVE_GPIO0` without a bounds check and relies on the array's compile-time size, which the port sets and which is not part of this model. `DemoMain.Platform.Fits` states the same requirement for both tables.
