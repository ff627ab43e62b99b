/**
 * The delay library: a fixed table from component identifier to nominal
 * propagation delay in nanoseconds. Identifiers are an enumeration rather
 * than strings, but a library is still a partial map, so looking up a
 * component it does not list is an error and never a silent zero.
 */
module DelayLibrary {
  import opened Wrappers

  /** One identifier per key of the source's delay table. */
  datatype ComponentId =
    | MemoryRead | MemoryWrite
    | RegfileRead | RegfileWrite
    | AluAdd | AluSub | AluLogic | AluCompare
    | Decoder | Control | AluControl
    | Mux2to1 | Mux4to1
    | SignExtend
    | RegSetup | RegClkToQ
    | WireShort | WireMedium | WireLong

  type Library = map<ComponentId, real>

  datatype Error = UnknownComponent(id: ComponentId)

  /** The nominal delay of each component in the source's table, in ns. */
  function DelayOf(id: ComponentId): real {
    match id
    case MemoryRead => 2.5
    case MemoryWrite => 2.0
    case RegfileRead => 1.0
    case RegfileWrite => 0.8
    case AluAdd => 1.5
    case AluSub => 1.5
    case AluLogic => 0.5
    case AluCompare => 1.2
    case Decoder => 0.5
    case Control => 0.3
    case AluControl => 0.4
    case Mux2to1 => 0.3
    case Mux4to1 => 0.5
    case SignExtend => 0.2
    case RegSetup => 0.3
    case RegClkToQ => 0.4
    case WireShort => 0.1
    case WireMedium => 0.2
    case WireLong => 0.3
  }

  /** The components the source's table lists. */
  const Listed: set<ComponentId> := {
    MemoryRead, MemoryWrite, RegfileRead, RegfileWrite,
    AluAdd, AluSub, AluLogic, AluCompare,
    Decoder, Control, AluControl, Mux2to1, Mux4to1,
    SignExtend, RegSetup, RegClkToQ, WireShort, WireMedium, WireLong
  }

  /** The source's delay table as a library. */
  const Delays: Library := map id | id in Listed :: DelayOf(id)

  /** A duration of `k` tenths of a nanosecond. */
  function Tenths(k: nat): real {
    k as real / 10.0
  }

  /** Every delay a library holds is non-negative. */
  ghost predicate WellFormed(lib: Library) {
    forall id :: id in lib ==> lib[id] >= 0.0
  }

  /** Looking up a component: its delay, or the identifier it lacks. */
  function Lookup(lib: Library, id: ComponentId): (r: Result<real, Error>)
    ensures r.Success? <==> id in lib
    ensures r.Success? ==> r.value == lib[id]
    ensures r.Failure? ==> r.error == UnknownComponent(id)
  {
    if id in lib then Success(lib[id]) else Failure(UnknownComponent(id))
  }

  /** The source's table lists every component, each with a delay that is
      non-negative and a whole number of tenths of a nanosecond. */
  lemma DelaysComplete(id: ComponentId)
    ensures id in Delays && Delays[id] == DelayOf(id)
    ensures Delays[id] >= 0.0
    ensures exists k: nat :: k <= 25 && Delays[id] == Tenths(k)
  {
    match id
    case MemoryRead => assert Delays[id] == Tenths(25);
    case MemoryWrite => assert Delays[id] == Tenths(20);
    case RegfileRead => assert Delays[id] == Tenths(10);
    case RegfileWrite => assert Delays[id] == Tenths(8);
    case AluAdd => assert Delays[id] == Tenths(15);
    case AluSub => assert Delays[id] == Tenths(15);
    case AluLogic => assert Delays[id] == Tenths(5);
    case AluCompare => assert Delays[id] == Tenths(12);
    case Decoder => assert Delays[id] == Tenths(5);
    case Control => assert Delays[id] == Tenths(3);
    case AluControl => assert Delays[id] == Tenths(4);
    case Mux2to1 => assert Delays[id] == Tenths(3);
    case Mux4to1 => assert Delays[id] == Tenths(5);
    case SignExtend => assert Delays[id] == Tenths(2);
    case RegSetup => assert Delays[id] == Tenths(3);
    case RegClkToQ => assert Delays[id] == Tenths(4);
    case WireShort => assert Delays[id] == Tenths(1);
    case WireMedium => assert Delays[id] == Tenths(2);
    case WireLong => assert Delays[id] == Tenths(3);
  }

  lemma DelaysWellFormed()
    ensures WellFormed(Delays)
  {
    forall id | id in Delays
      ensures Delays[id] >= 0.0
    {
      DelaysComplete(id);
    }
  }
}
