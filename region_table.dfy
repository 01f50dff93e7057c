/**
 * The `xRegions` table of a restricted task: the memory regions a task
 * running in user mode may touch, as `main` fills them in before handing the
 * task definition to `xTaskCreateRestricted`.
 *
 * The address encoders of the FreeRTOS RISC-V port (`addr_modifier`,
 * `napot_addr_modifier`) are not part of this model; they enter as function
 * values and nothing is assumed about them.
 */
module RegionTable {

  datatype Option<T> = None | Some(value: T)

  /**
   * Address-matching mode of a PMP entry (the A field of a pmpcfg byte,
   * section 3.7.1 of the RISC-V Privileged Architecture, version 1.12).
   * `Off`, the all-zero encoding, disables the entry.
   */
  datatype MatchMode = Off | Tor | Na4 | Napot

  /** `ulParameters` of a region: its permission bits and its match mode. */
  datatype Parameters = Parameters(read: bool, write: bool, execute: bool, mode: MatchMode)

  /** One `xRegions` slot: `pvBaseAddress`, `ulLengthInBytes`, `ulParameters`. */
  datatype Region = Region(baseAddress: nat, lengthInBytes: nat, parameters: Parameters)

  /** What `memset(…, 0, …)` leaves in a slot. */
  const ZeroRegion := Region(0, 0, Parameters(false, false, false, Off))

  /** `portPMP_REGION_READ_WRITE | portPMP_REGION_ADDR_MATCH_<mode>`. */
  function ReadWrite(mode: MatchMode): Parameters {
    Parameters(true, true, false, mode)
  }

  /** A memory-mapped peripheral: base address and size of its register aperture. */
  datatype Peripheral = Peripheral(base: nat, size: nat)

  /** The linker's `__unprivileged_data_section_start__` and `…_end__`. */
  datatype DataSection = DataSection(start: nat, end: nat)

  /**
   * The port's encoders: `addr_modifier(granularity, address)` and
   * `napot_addr_modifier(granularity, base, size)`, each giving the value it
   * stores through its out-pointer.
   */
  datatype Encoders = Encoders(addrModifier: (nat, nat) -> nat, napotAddrModifier: (nat, nat, nat) -> nat)

  /** One call of an encoder, with the arguments it was given. */
  datatype EncoderCall =
    | AddrModifier(granularity: nat, address: nat)
    | NapotAddrModifier(granularity: nat, base: nat, size: nat)

  /** The value an encoder call stores. */
  function Apply(call: EncoderCall, enc: Encoders): nat {
    match call
    case AddrModifier(g, a) => enc.addrModifier(g, a)
    case NapotAddrModifier(g, b, s) => enc.napotAddrModifier(g, b, s)
  }

  /** Number of slots the builder writes: two fences, plus one aperture when the peripheral exists. */
  function SlotsUsed(periph: Option<Peripheral>): nat {
    if periph.Some? then 3 else 2
  }

  /** Slot 0: a four-byte NA4 entry at the start of the unprivileged data section. */
  function LowerFence(g: nat, section: DataSection, enc: Encoders): Region {
    Region(enc.addrModifier(g, section.start), 4, ReadWrite(Na4))
  }

  /** Slot 1: the TOR entry at the end of the section, closing the range opened by slot 0. */
  function UpperFence(g: nat, section: DataSection, enc: Encoders): Region {
    Region(enc.addrModifier(g, section.end), 4, ReadWrite(Tor))
  }

  /** Slot 2: a NAPOT entry over the whole register aperture of the peripheral. */
  function Aperture(g: nat, p: Peripheral, enc: Encoders): Region {
    Region(enc.napotAddrModifier(g, p.base, p.size), p.size, ReadWrite(Napot))
  }

  /** The regions a task is granted, in slot order. */
  function Entries(g: nat, section: DataSection, periph: Option<Peripheral>, enc: Encoders): (e: seq<Region>)
    ensures |e| == SlotsUsed(periph)
  {
    [LowerFence(g, section, enc), UpperFence(g, section, enc)]
      + (if periph.Some? then [Aperture(g, periph.value, enc)] else [])
  }

  /** The encoder calls the builder makes, in the order it makes them. */
  function EncoderCalls(g: nat, section: DataSection, periph: Option<Peripheral>): seq<EncoderCall> {
    [AddrModifier(g, section.start), AddrModifier(g, section.end)]
      + (if periph.Some? then [NapotAddrModifier(g, periph.value.base, periph.value.size)] else [])
  }

  function Zeros(k: nat): seq<Region> {
    seq(k, _ => ZeroRegion)
  }

  /** The whole `n`-slot table: the granted regions, then zero-filled slots. */
  function TaskTable(n: nat, g: nat, section: DataSection, periph: Option<Peripheral>, enc: Encoders): seq<Region>
    requires SlotsUsed(periph) <= n
  {
    Entries(g, section, periph, enc) + Zeros(n - SlotsUsed(periph))
  }

  /** Number of slots that hold anything other than zeros. */
  function CountNonZero(t: seq<Region>): nat {
    if t == [] then 0 else (if t[0] != ZeroRegion then 1 else 0) + CountNonZero(t[1..])
  }

  /**
   * The address window a TOR entry at slot `i` grants, in the encoded scale:
   * from the previous slot's address (0 for slot 0) up to its own.
   */
  function TorWindow(t: seq<Region>, i: nat): (nat, nat)
    requires i < |t|
  {
    (if i == 0 then 0 else t[i - 1].baseAddress, t[i].baseAddress)
  }

  /**
   * Fills `regions` in place: zero every slot, then write the lower fence,
   * the upper fence and, when the peripheral exists, its aperture, field by
   * field. Returns the encoder calls it made.
   */
  method BuildRegions(regions: array<Region>, g: nat, section: DataSection, periph: Option<Peripheral>, enc: Encoders)
    returns (calls: seq<EncoderCall>)
    requires SlotsUsed(periph) <= regions.Length
    modifies regions
    ensures regions[..] == TaskTable(regions.Length, g, section, periph, enc)
    ensures calls == EncoderCalls(g, section, periph)
  {
    forall i | 0 <= i < regions.Length {
      regions[i] := ZeroRegion;
    }

    regions[0] := regions[0].(lengthInBytes := 4);
    regions[0] := regions[0].(parameters := ReadWrite(Na4));
    regions[0] := regions[0].(baseAddress := enc.addrModifier(g, section.start));
    calls := [AddrModifier(g, section.start)];

    regions[1] := regions[1].(lengthInBytes := 4);
    regions[1] := regions[1].(parameters := ReadWrite(Tor));
    regions[1] := regions[1].(baseAddress := enc.addrModifier(g, section.end));
    calls := calls + [AddrModifier(g, section.end)];

    if periph.Some? {
      var p := periph.value;
      regions[2] := regions[2].(lengthInBytes := p.size);
      regions[2] := regions[2].(parameters := ReadWrite(Napot));
      regions[2] := regions[2].(baseAddress := enc.napotAddrModifier(g, p.base, regions[2].lengthInBytes));
      calls := calls + [NapotAddrModifier(g, p.base, p.size)];
    }

    forall i | 0 <= i < regions.Length
      ensures regions[i] == TaskTable(regions.Length, g, section, periph, enc)[i]
    {
      TaskTableLayout(regions.Length, g, section, periph, enc);
    }
  }

  /**
   * Slot by slot: the two fences in slots 0 and 1, the aperture in slot 2
   * if the peripheral exists, and zeros everywhere else (including slot 2
   * when it does not).
   */
  lemma TaskTableLayout(n: nat, g: nat, section: DataSection, periph: Option<Peripheral>, enc: Encoders)
    requires SlotsUsed(periph) <= n
    ensures |TaskTable(n, g, section, periph, enc)| == n
    ensures TaskTable(n, g, section, periph, enc)[0] == LowerFence(g, section, enc)
    ensures TaskTable(n, g, section, periph, enc)[1] == UpperFence(g, section, enc)
    ensures periph.Some? ==> TaskTable(n, g, section, periph, enc)[2] == Aperture(g, periph.value, enc)
    ensures forall i :: SlotsUsed(periph) <= i < n ==> TaskTable(n, g, section, periph, enc)[i] == ZeroRegion
  {
    var e, z := Entries(g, section, periph, enc), Zeros(n - SlotsUsed(periph));
    forall i | SlotsUsed(periph) <= i < n
      ensures TaskTable(n, g, section, periph, enc)[i] == ZeroRegion
    {
      assert (e + z)[i] == z[i - |e|];
    }
  }

  lemma {:induction false} CountNonZeroAppend(a: seq<Region>, b: seq<Region>)
    ensures CountNonZero(a + b) == CountNonZero(a) + CountNonZero(b)
  {
    if a == [] {
      assert a + b == b;
    } else {
      assert (a + b)[1..] == a[1..] + b;
      CountNonZeroAppend(a[1..], b);
    }
  }

  lemma {:induction false} CountNonZeroZeros(k: nat)
    ensures CountNonZero(Zeros(k)) == 0
  {
    if k > 0 {
      assert Zeros(k)[1..] == Zeros(k - 1);
      CountNonZeroZeros(k - 1);
    }
  }

  lemma {:induction false} CountNonZeroAll(t: seq<Region>)
    requires forall i :: 0 <= i < |t| ==> t[i].parameters.mode != Off
    ensures CountNonZero(t) == |t|
  {
    if t != [] {
      CountNonZeroAll(t[1..]);
    }
  }

  /**
   * Exactly the slots the builder writes are non-zero: two, or three with
   * a peripheral, whatever the size of the table.
   */
  lemma TaskTableNonZeroCount(n: nat, g: nat, section: DataSection, periph: Option<Peripheral>, enc: Encoders)
    requires SlotsUsed(periph) <= n
    ensures CountNonZero(TaskTable(n, g, section, periph, enc)) == SlotsUsed(periph) <= 3
  {
    var e := Entries(g, section, periph, enc);
    CountNonZeroAppend(e, Zeros(n - SlotsUsed(periph)));
    CountNonZeroZeros(n - SlotsUsed(periph));
    CountNonZeroAll(e);
  }

  /**
   * The only TOR entry of the table is slot 1 and directly follows the NA4
   * lower fence, so the pair grants exactly the window between the encoded
   * start and end of the data section.
   */
  lemma TaskTableFencePair(n: nat, g: nat, section: DataSection, periph: Option<Peripheral>, enc: Encoders)
    requires SlotsUsed(periph) <= n
    ensures forall i :: 0 <= i < n && TaskTable(n, g, section, periph, enc)[i].parameters.mode == Tor ==> i == 1
    ensures TaskTable(n, g, section, periph, enc)[0].parameters.mode == Na4
    ensures TorWindow(TaskTable(n, g, section, periph, enc), 1)
         == (enc.addrModifier(g, section.start), enc.addrModifier(g, section.end))
  {
    TaskTableLayout(n, g, section, periph, enc);
  }

  /** No slot is executable, and every slot that is in use is readable and writable. */
  lemma TaskTableNoExecute(n: nat, g: nat, section: DataSection, periph: Option<Peripheral>, enc: Encoders)
    requires SlotsUsed(periph) <= n
    ensures var t := TaskTable(n, g, section, periph, enc);
      forall i :: 0 <= i < n ==> !t[i].parameters.execute && (t[i].parameters.mode != Off ==> t[i].parameters.read && t[i].parameters.write)
  {
    TaskTableLayout(n, g, section, periph, enc);
  }

  /**
   * Every encoder call uses the granularity given to the builder, and the
   * k-th call produces the base address of the k-th granted region.
   */
  lemma EncoderCallsMatchEntries(g: nat, section: DataSection, periph: Option<Peripheral>, enc: Encoders)
    ensures |EncoderCalls(g, section, periph)| == |Entries(g, section, periph, enc)|
    ensures forall k :: 0 <= k < |EncoderCalls(g, section, periph)| ==> EncoderCalls(g, section, periph)[k].granularity == g
    ensures forall k :: 0 <= k < |EncoderCalls(g, section, periph)|
                     ==> Apply(EncoderCalls(g, section, periph)[k], enc) == Entries(g, section, periph, enc)[k].baseAddress
  {
  }
}
