/**
 * The values the setup routine handles: the device-tree node it reads, the
 * three kinds of field descriptor it allocates and fills in (a mux, a
 * divider and a gate, each pointing at the mapped register and the shared
 * lock), and the composite clock it hands to the clock framework.
 */
module Clk {
  import Layout

  datatype Option<T> = None | Some(value: T)

  /** Address of the mapped register window. */
  type Addr = nat

  /** Identity of a spinlock; every descriptor points at the same one. */
  datatype Lock = Lock(name: string)

  const TCON_CH1_LOCK: Lock := Lock("sun4i_a10_tcon_ch1_lock")

  /**
   * A mux descriptor (struct clk_mux): the register, value = (word >> shift) & mask,
   * and the lock. Descriptors are values here: the routine fills each one in
   * field by field and never writes it again once it is handed on.
   */
  datatype ClkMux = ClkMux(reg: Option<Addr>, shift: nat, mask: nat, lock: Option<Lock>)
  {
    function Bits(): set<nat> { Layout.MuxBits(shift, mask) }
  }

  /** A divider descriptor (struct clk_divider): a width-bit field at shift. */
  datatype ClkDivider = ClkDivider(reg: Option<Addr>, shift: nat, width: nat, lock: Option<Lock>)
  {
    function Bits(): set<nat> { Layout.DividerBits(shift, width) }
  }

  /** A gate descriptor (struct clk_gate): one enable bit. */
  datatype ClkGate = ClkGate(reg: Option<Addr>, bitIdx: nat, lock: Option<Lock>)
  {
    function Bits(): set<nat> { Layout.GateBits(bitIdx) }
  }

  /** What a zero-filling allocation of each descriptor holds before any field is set. */
  const ZERO_MUX: ClkMux := ClkMux(None, 0, 0, None)
  const ZERO_DIVIDER: ClkDivider := ClkDivider(None, 0, 0, None)
  const ZERO_GATE: ClkGate := ClkGate(None, 0, None)

  /**
   * The arguments of one composite-clock registration: the clock's name, its
   * parent names in mux order (None is a missing parent), the optional mux,
   * rate (divider) and gate parts, and the flags.
   */
  datatype Composite = Composite(
    name: string,
    parents: seq<Option<string>>,
    mux: Option<ClkMux>,
    rate: Option<ClkDivider>,
    gate: Option<ClkGate>,
    flags: nat)

  /**
   * What the routine reads from its device-tree node: the node's name, the
   * first "clock-output-names" string when the property is present, and the
   * answer of the parent-name lookup for each index (None where it finds
   * no parent).
   */
  datatype Node = Node(name: string, outputName: Option<string>, parentNames: seq<Option<string>>)

  /** Parent-name lookup by index; indexes past the node's list find nothing. */
  function ParentName(node: Node, i: nat): Option<string>
  {
    if i < |node.parentNames| then node.parentNames[i] else None
  }

  /** The stage-1 clock's name: the node name, unless "clock-output-names" overrides it. */
  function OutputName(node: Node): string
  {
    match node.outputName
    case Some(n) => n
    case None => node.name
  }

  /** The stage-2 clock's name, formatted as "%s2" of the stage-1 name. */
  function Stage2Name(name1: string): string
  {
    name1 + "2"
  }

  /** The stage-2 name determines the stage-1 name, and the two never coincide. */
  lemma Stage2NameInverse(name1: string, other: string)
    ensures Stage2Name(name1) != name1
    ensures |Stage2Name(name1)| == |name1| + 1
    ensures Stage2Name(name1)[..|name1|] == name1 && Stage2Name(name1)[|name1|] == '2'
    ensures Stage2Name(other) == Stage2Name(name1) ==> other == name1
  {
    if Stage2Name(other) == Stage2Name(name1) {
      assert other == Stage2Name(other)[..|other|];
    }
    assert |Stage2Name(name1)| != |name1|;
  }
}
