/**
 * The protection setup of the demo's `main`: the capability gate, the
 * one-time `init_pmp`, and the Rx and Tx region tables, in the order `main`
 * runs them. Calls into the kernel, the port and the console are recorded as
 * events; what those collaborators do is not modelled.
 */
module DemoMain {
  import opened PmpGate
  import opened RegionTable

  /** The two fields of `pmp_info_t` the demo reads. */
  datatype PmpReport = PmpReport(nbPmp: nat, granularity: nat)

  /** `xPmpInfo`, the port's description of the PMP unit, which `init_pmp` updates in place. */
  class PmpInfo {
    var nbPmp: nat
    var granularity: nat

    function Report(): PmpReport
      reads this
    {
      PmpReport(nbPmp, granularity)
    }

    /**
     * `init_pmp(&xPmpInfo)`. Its code is in the port; the model takes what
     * it leaves in `xPmpInfo` as the parameter `probe`.
     */
    method InitPmp(probe: PmpReport)
      modifies this
      ensures Report() == probe
    {
      nbPmp := probe.nbPmp;
      granularity := probe.granularity;
    }
  }

  /**
   * What `main` is built against: the linker's data section, the UART0 and
   * GPIO0 apertures when the board has them (`METAL_SIFIVE_UART0`,
   * `METAL_SIFIVE_GPIO0`), the port's encoders, and the number of slots of
   * a task's `xRegions`.
   */
  datatype Platform = Platform(
    section: DataSection,
    uart: Option<Peripheral>,
    gpio: Option<Peripheral>,
    enc: Encoders,
    nRegions: nat)
  {
    /** Both tables have room for the slots the builder writes. */
    predicate Fits() {
      SlotsUsed(uart) <= nRegions && SlotsUsed(gpio) <= nRegions
    }
  }

  /** The parts of `TaskParameters_t` that `main` sets; the priority is counted above `tskIDLE_PRIORITY`. */
  datatype TaskDefinition = TaskDefinition(name: string, stackDepth: nat, priority: nat, regions: seq<Region>)

  const RxName: string := "Rx"
  const TxName: string := "Tx"

  function RxDefinition(regions: seq<Region>): TaskDefinition {
    TaskDefinition(RxName, 0x200, 2, regions)
  }

  function TxDefinition(regions: seq<Region>): TaskDefinition {
    TaskDefinition(TxName, 0x200, 1, regions)
  }

  const StartMessage: string := "FreeRTOS-PMP Demo start\r\n"
  const EndMessage: string := "FreeRTOS-PMP Demo end\r\n"

  /** A call `main` makes into a collaborator. A created task records its region table as it was passed. */
  datatype Event =
    | Write(message: string)
    | QueueCreate
    | InitPmpCalled
    | Encoder(call: EncoderCall)
    | TaskCreateRestricted(task: TaskDefinition)
    | TaskStartScheduler
    | TaskDelete(name: string)

  /** How the process ends: through `_exit`, or by returning from `main`, which exits with status 0. */
  datatype Ending = Exit(status: int) | Return

  datatype Run = Run(events: seq<Event>, ending: Ending)

  function ExitStatus(e: Ending): int {
    match e
    case Exit(s) => s
    case Return => 0
  }

  function EncoderEvents(calls: seq<EncoderCall>): seq<Event> {
    seq(|calls|, k requires 0 <= k < |calls| => Encoder(calls[k]))
  }

  /** Whether `main` gets as far as building the region tables. */
  predicate Builds(before: PmpReport, queueOk: bool) {
    Gate(before.nbPmp, before.granularity) == Proceed && queueOk
  }

  /** `xPmpInfo` after the setup: `init_pmp` runs only on the building path and only for granularity 0. */
  function ReportAfterSetup(before: PmpReport, probe: PmpReport, queueOk: bool): PmpReport {
    if Builds(before, queueOk) && NeedsInit(before.granularity) then probe else before
  }

  function RxTable(g: nat, p: Platform): seq<Region>
    requires p.Fits()
  {
    TaskTable(p.nRegions, g, p.section, p.uart, p.enc)
  }

  function TxTable(g: nat, p: Platform): seq<Region>
    requires p.Fits()
  {
    TaskTable(p.nRegions, g, p.section, p.gpio, p.enc)
  }

  /**
   * The calls `main` makes when built with `portUSING_MPU_WRAPPERS == 1`, given `xPmpInfo` as found (`before`), what
   * `init_pmp` would leave in it (`probe`), and whether `xQueueCreate`
   * succeeds.
   */
  function MainRun(before: PmpReport, probe: PmpReport, queueOk: bool, p: Platform): Run
    requires p.Fits()
  {
    var gate := Gate(before.nbPmp, before.granularity);
    if gate != Proceed then
      Run([Write(StartMessage), Write(RejectionMessage(gate))], Exit(0))
    else if !queueOk then
      Run([Write(StartMessage), QueueCreate, Write(EndMessage)], Return)
    else
      var g := ReportAfterSetup(before, probe, queueOk).granularity;
      Run([Write(StartMessage), QueueCreate]
          + (if NeedsInit(before.granularity) then [InitPmpCalled] else [])
          + EncoderEvents(EncoderCalls(g, p.section, p.uart))
          + [TaskCreateRestricted(RxDefinition(RxTable(g, p)))]
          + EncoderEvents(EncoderCalls(g, p.section, p.gpio))
          + [TaskCreateRestricted(TxDefinition(TxTable(g, p)))]
          + [TaskStartScheduler, TaskDelete(TxName), TaskDelete(RxName), Write(EndMessage)],
          Return)
  }

  /**
   * Builds the Rx table with UART0 and creates Rx, then builds the Tx table
   * with GPIO0 and creates Tx. Each creation records its table as passed.
   */
  method CreateTasks(g: nat, p: Platform, rx: array<Region>, tx: array<Region>) returns (events: seq<Event>)
    requires p.Fits() && rx.Length == p.nRegions && tx.Length == p.nRegions && rx != tx
    modifies rx, tx
    ensures events == Tables(g, p)
    ensures rx[..] == RxTable(g, p) && tx[..] == TxTable(g, p)
  {
    var calls := BuildRegions(rx, g, p.section, p.uart, p.enc);
    var rxCreated := TaskCreateRestricted(RxDefinition(rx[..]));
    events := EncoderEvents(calls) + [rxCreated];

    calls := BuildRegions(tx, g, p.section, p.gpio, p.enc);
    assert rx[..] == RxTable(g, p);
    events := events + EncoderEvents(calls) + [TaskCreateRestricted(TxDefinition(tx[..]))];
  }

  /**
   * `main`'s protection setup on the statically allocated `xRegions` of the
   * Rx and Tx task definitions.
   */
  method MainSetup(info: PmpInfo, probe: PmpReport, queueOk: bool, p: Platform, rx: array<Region>, tx: array<Region>)
    returns (run: Run)
    requires p.Fits() && rx.Length == p.nRegions && tx.Length == p.nRegions && rx != tx
    modifies info, rx, tx
    ensures run == MainRun(old(info.Report()), probe, queueOk, p)
    ensures info.Report() == ReportAfterSetup(old(info.Report()), probe, queueOk)
    ensures Builds(old(info.Report()), queueOk) ==>
              rx[..] == RxTable(info.granularity, p) && tx[..] == TxTable(info.granularity, p)
    ensures !Builds(old(info.Report()), queueOk) ==> rx[..] == old(rx[..]) && tx[..] == old(tx[..])
  {
    var events := [Write(StartMessage)];

    if info.nbPmp < MinPmpEntries {
      events := events + [Write(NotEnoughEntriesMessage)];
      return Run(events, Exit(0));
    } else if info.granularity > MaxGranularity {
      events := events + [Write(GranularityMessage)];
      return Run(events, Exit(0));
    }

    events := events + [QueueCreate];
    if !queueOk {
      events := events + [Write(EndMessage)];
      return Run(events, Return);
    }

    ghost var before := info.Report();
    if info.granularity == 0 {
      info.InitPmp(probe);
      events := events + [InitPmpCalled];
    }
    assert events == Prologue(before);

    var tables := CreateTasks(info.granularity, p, rx, tx);
    events := events + tables + [TaskStartScheduler, TaskDelete(TxName), TaskDelete(RxName), Write(EndMessage)];
    BuildingRunShape(before, probe, queueOk, p);
    run := Run(events, Return);
  }

  /**
   * The events of a building run, split where the tables begin: `Prologue`
   * is everything before the first encoder call.
   */
  function Prologue(before: PmpReport): seq<Event> {
    [Write(StartMessage), QueueCreate] + (if NeedsInit(before.granularity) then [InitPmpCalled] else [])
  }

  function Tables(g: nat, p: Platform): seq<Event>
    requires p.Fits()
  {
    EncoderEvents(EncoderCalls(g, p.section, p.uart))
      + [TaskCreateRestricted(RxDefinition(RxTable(g, p)))]
      + EncoderEvents(EncoderCalls(g, p.section, p.gpio))
      + [TaskCreateRestricted(TxDefinition(TxTable(g, p)))]
  }

  lemma BuildingRunShape(before: PmpReport, probe: PmpReport, queueOk: bool, p: Platform)
    requires p.Fits() && Builds(before, queueOk)
    ensures var g := ReportAfterSetup(before, probe, queueOk).granularity;
      MainRun(before, probe, queueOk, p).events
        == Prologue(before) + Tables(g, p)
           + [TaskStartScheduler, TaskDelete(TxName), TaskDelete(RxName), Write(EndMessage)]
  {
  }

  /**
   * A rejected configuration ends the process with status 0 after the
   * diagnostic, and `main` makes no call besides the two console writes: no
   * queue, no `init_pmp`, no region table, no task.
   */
  lemma RejectionStopsSetup(before: PmpReport, probe: PmpReport, queueOk: bool, p: Platform)
    requires p.Fits() && Gate(before.nbPmp, before.granularity) != Proceed
    ensures var r := MainRun(before, probe, queueOk, p);
      r.ending == Exit(0) && ExitStatus(r.ending) == 0
      && r.events == [Write(StartMessage), Write(RejectionMessage(Gate(before.nbPmp, before.granularity)))]
      && forall i :: 0 <= i < |r.events| ==> r.events[i].Write?
    ensures before.nbPmp < MinPmpEntries ==> MainRun(before, probe, queueOk, p).events[1] == Write(NotEnoughEntriesMessage)
    ensures ReportAfterSetup(before, probe, queueOk) == before
  {
  }

  /** Every run of `main` exits with status 0. */
  lemma ExitStatusZero(before: PmpReport, probe: PmpReport, queueOk: bool, p: Platform)
    requires p.Fits()
    ensures ExitStatus(MainRun(before, probe, queueOk, p).ending) == 0
  {
  }

  lemma {:induction false} NoInitInTables(g: nat, p: Platform)
    requires p.Fits()
    ensures InitPmpCalled !in Tables(g, p)
    ensures forall k :: 0 <= k < |Tables(g, p)| && Tables(g, p)[k].Encoder? ==> Tables(g, p)[k].call.granularity == g
  {
    var cu, cg := EncoderCalls(g, p.section, p.uart), EncoderCalls(g, p.section, p.gpio);
    EncoderCallsMatchEntries(g, p.section, p.uart, p.enc);
    EncoderCallsMatchEntries(g, p.section, p.gpio, p.enc);
    var a, b := EncoderEvents(cu), EncoderEvents(cg);
    var t := Tables(g, p);
    assert t == a + [TaskCreateRestricted(RxDefinition(RxTable(g, p)))] + b + [TaskCreateRestricted(TxDefinition(TxTable(g, p)))];
    assert InitPmpCalled !in a && InitPmpCalled !in b;
    forall k | 0 <= k < |t| && t[k].Encoder?
      ensures t[k].call.granularity == g
    {
      if k < |a| {
        assert t[k] == a[k];
      } else if |a| < k < |a| + 1 + |b| {
        assert t[k] == b[k - |a| - 1];
      }
    }
  }

  /**
   * `init_pmp` is called exactly when the building path is taken with
   * granularity 0, before every encoder call; and every encoder call
   * uses the granularity `xPmpInfo` holds after it.
   */
  lemma InitPmpBeforeEncoders(before: PmpReport, probe: PmpReport, queueOk: bool, p: Platform)
    requires p.Fits()
    ensures var ev := MainRun(before, probe, queueOk, p).events;
      (InitPmpCalled in ev <==> Builds(before, queueOk) && NeedsInit(before.granularity))
    ensures var ev := MainRun(before, probe, queueOk, p).events;
      forall i, j :: 0 <= i < |ev| && 0 <= j < |ev| && ev[i] == InitPmpCalled && ev[j].Encoder? ==> i < j
    ensures var ev := MainRun(before, probe, queueOk, p).events;
      forall j :: 0 <= j < |ev| && ev[j].Encoder?
        ==> ev[j].call.granularity == ReportAfterSetup(before, probe, queueOk).granularity
  {
    var ev := MainRun(before, probe, queueOk, p).events;
    if Builds(before, queueOk) {
      var g := ReportAfterSetup(before, probe, queueOk).granularity;
      BuildingRunShape(before, probe, queueOk, p);
      NoInitInTables(g, p);
      var pro, t := Prologue(before), Tables(g, p);
      var epi := [TaskStartScheduler, TaskDelete(TxName), TaskDelete(RxName), Write(EndMessage)];
      assert ev == pro + t + epi;
    }
  }

  /**
   * `init_pmp` is called at most once in any run of `main`: its only event
   * is the third, right after the queue is created.
   */
  lemma InitPmpCalledAtMostOnce(before: PmpReport, probe: PmpReport, queueOk: bool, p: Platform)
    requires p.Fits()
    ensures var ev := MainRun(before, probe, queueOk, p).events;
      forall i :: 0 <= i < |ev| && ev[i] == InitPmpCalled ==> i == 2 && ev[1] == QueueCreate
  {
    var ev := MainRun(before, probe, queueOk, p).events;
    if Builds(before, queueOk) {
      var g := ReportAfterSetup(before, probe, queueOk).granularity;
      BuildingRunShape(before, probe, queueOk, p);
      NoInitInTables(g, p);
      var pro, t := Prologue(before), Tables(g, p);
      var epi := [TaskStartScheduler, TaskDelete(TxName), TaskDelete(RxName), Write(EndMessage)];
      assert ev == pro + t + epi;
    }
  }

  /**
   * When tables are built, the Rx task is created with the UART0 aperture and
   * the Tx task with the GPIO0 aperture, Rx first; a missing peripheral leaves
   * slot 2 of that table zero. Without the building path no task is created.
   */
  lemma TasksGetTheirPeripherals(before: PmpReport, probe: PmpReport, queueOk: bool, p: Platform)
    requires p.Fits()
    ensures var ev, g := MainRun(before, probe, queueOk, p).events, ReportAfterSetup(before, probe, queueOk).granularity;
      Builds(before, queueOk) ==>
        exists i, j :: 0 <= i < j < |ev|
          && ev[i] == TaskCreateRestricted(RxDefinition(RxTable(g, p)))
          && ev[j] == TaskCreateRestricted(TxDefinition(TxTable(g, p)))
    ensures var g := ReportAfterSetup(before, probe, queueOk).granularity;
      2 < p.nRegions ==>
      RxTable(g, p)[2] == (if p.uart.Some? then Aperture(g, p.uart.value, p.enc) else ZeroRegion)
      && TxTable(g, p)[2] == (if p.gpio.Some? then Aperture(g, p.gpio.value, p.enc) else ZeroRegion)
    ensures var ev := MainRun(before, probe, queueOk, p).events;
      !Builds(before, queueOk) ==> forall k :: 0 <= k < |ev| ==> !ev[k].TaskCreateRestricted?
  {
    var g := ReportAfterSetup(before, probe, queueOk).granularity;
    TaskTableLayout(p.nRegions, g, p.section, p.uart, p.enc);
    TaskTableLayout(p.nRegions, g, p.section, p.gpio, p.enc);
    if Builds(before, queueOk) {
      var ev := MainRun(before, probe, queueOk, p).events;
      BuildingRunShape(before, probe, queueOk, p);
      var pro := Prologue(before);
      var a := EncoderEvents(EncoderCalls(g, p.section, p.uart));
      var b := EncoderEvents(EncoderCalls(g, p.section, p.gpio));
      var i := |pro| + |a|;
      var j := i + 1 + |b|;
      assert ev[i] == TaskCreateRestricted(RxDefinition(RxTable(g, p)));
      assert ev[j] == TaskCreateRestricted(TxDefinition(TxTable(g, p)));
    }
  }

  /**
   * On the `init_pmp` path the values it leaves in `xPmpInfo` are not put
   * through the gate again: the encoders are called with whatever
   * granularity it reports, even one above `MaxGranularity`.
   */
  lemma InitReportNotRechecked(before: PmpReport, probe: PmpReport, queueOk: bool, p: Platform)
    requires p.Fits() && Builds(before, queueOk) && NeedsInit(before.granularity)
    ensures Encoder(AddrModifier(probe.granularity, p.section.start)) in MainRun(before, probe, queueOk, p).events
  {
    BuildingRunShape(before, probe, queueOk, p);
    var a := EncoderEvents(EncoderCalls(probe.granularity, p.section, p.uart));
    assert a[0] == Encoder(AddrModifier(probe.granularity, p.section.start));
    assert a[0] in Tables(probe.granularity, p);
  }
}
