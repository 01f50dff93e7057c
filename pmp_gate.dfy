/**
 * The capability gate that `main` runs before any protection setup:
 * the PMP unit must report at least eight entries, and a granularity the
 * FreeRTOS RISC-V port can encode (at most four bytes).
 */
module PmpGate {

  /** Fewest PMP entries the demo accepts. */
  const MinPmpEntries: nat := 8

  /** Coarsest granularity (in bytes) the port's address encoders support. */
  const MaxGranularity: nat := 4

  /** The three ways the gate can decide. */
  datatype GateOutcome = NotEnoughEntries | GranularityNotSupported | Proceed

  /** What the gate reports on the console before it terminates the demo. */
  const NotEnoughEntriesMessage: string := "FreeRTOS-PMP Demo end - Error no enough PMP entry\r\n"
  const GranularityMessage: string := "FreeRTOS-PMP Demo end - Error platform granularity no supported\r\n"

  /** The demo is protected and may go on exactly when both requirements hold. */
  predicate Capable(nbPmp: nat, granularity: nat) {
    MinPmpEntries <= nbPmp && granularity <= MaxGranularity
  }

  /**
   * The gate. The entry count is checked first: too few entries is reported
   * as such whatever the granularity; only with enough entries is the
   * granularity looked at.
   */
  function Gate(nbPmp: nat, granularity: nat): (o: GateOutcome)
    ensures o == Proceed <==> Capable(nbPmp, granularity)
    ensures o == NotEnoughEntries <==> nbPmp < MinPmpEntries
    ensures o == GranularityNotSupported <==> !Capable(nbPmp, granularity) && MinPmpEntries <= nbPmp
    ensures nbPmp == 7 ==> o == NotEnoughEntries
    ensures nbPmp == 8 && granularity == 4 ==> o == Proceed
    ensures nbPmp == 8 && granularity == 5 ==> o == GranularityNotSupported
  {
    if nbPmp < MinPmpEntries then NotEnoughEntries
    else if granularity > MaxGranularity then GranularityNotSupported
    else Proceed
  }

  /** The diagnostic written for each rejection. */
  function RejectionMessage(o: GateOutcome): string
    requires o != Proceed
  {
    if o == NotEnoughEntries then NotEnoughEntriesMessage else GranularityMessage
  }

  /** The protection unit is initialised once, exactly when it reports granularity 0. */
  predicate NeedsInit(granularity: nat) {
    granularity == 0
  }
}
