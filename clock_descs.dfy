/**
 * Clock descriptors: the four kinds of static clock-node description the
 * driver's tables hold (struct stratix10_pll_clock, stratix10_perip_c_clock,
 * n5x_perip_c_clock, stratix10_perip_cnt_clock and stratix10_gate_clock,
 * declared in stratix10-clk.h, which is not part of this model), the opaque
 * handle a constructor returns, and the constructors themselves as one
 * abstract, possibly failing oracle.
 */
module ClockDescs {
  import opened Wrappers
  import opened ClockIds

  /** CLK_IS_CRITICAL of linux/clk-provider.h (bit 11): the clock must never be gated off. */
  const CLK_IS_CRITICAL: nat := 0x800

  /**
   * One descriptor per table entry, fields in the order of the C initialisers.
   * `parentName` is the C `parent_name` (NULL is None) and `parentNames` the
   * mux list `parent_names` (NULL is None); a PLL has only the mux list.
   */
  datatype ClockDesc =
    | PllClock(id: ClkId, name: ClkName, parentNames: Option<seq<ClkName>>, numParents: nat,
               flags: nat, offset: nat)
    | PeripCClock(id: ClkId, name: ClkName, parentName: Option<ClkName>,
                  parentNames: Option<seq<ClkName>>, numParents: nat, flags: nat, offset: nat)
    | N5xPeripCClock(id: ClkId, name: ClkName, parentName: Option<ClkName>,
                     parentNames: Option<seq<ClkName>>, numParents: nat, flags: nat, offset: nat,
                     shift: nat)
    | PeripCntClock(id: ClkId, name: ClkName, parentName: Option<ClkName>,
                    parentNames: Option<seq<ClkName>>, numParents: nat, flags: nat, offset: nat,
                    fixedDivider: nat, bypassReg: nat, bypassShift: nat)
    | GateClock(id: ClkId, name: ClkName, parentName: Option<ClkName>,
                parentNames: Option<seq<ClkName>>, numParents: nat, flags: nat,
                gateReg: nat, gateIdx: nat, divReg: nat, divOffset: nat, divWidth: nat,
                bypassReg: nat, bypassShift: nat, fixedDiv: nat)

  /** The fixed parent a descriptor names, if it has that field and it is not NULL. */
  function FixedParent(d: ClockDesc): Option<ClkName>
  {
    if d.PllClock? then None else d.parentName
  }

  /**
   * The parent-field convention of the tables: an entry names either one
   * fixed parent, with `parent_names` NULL and `num_parents` 1, or a mux
   * list, with `parent_name` NULL and `num_parents` the list's length.
   */
  predicate ParentFieldsConsistent(d: ClockDesc)
  {
    match FixedParent(d)
    case Some(_) => d.parentNames.None? && d.numParents == 1
    case None => d.parentNames.Some? && d.numParents == |d.parentNames.value|
  }

  /** The parent names a descriptor declares: its fixed parent, else its mux list. */
  function Candidates(d: ClockDesc): (r: seq<ClkName>)
    ensures ParentFieldsConsistent(d) ==> |r| == d.numParents
  {
    match FixedParent(d)
    case Some(p) => [p]
    case None => if d.parentNames.Some? then d.parentNames.value else []
  }

  /** The clock handle a successful constructor returns (struct clk *), bound to its name, parents and flags. */
  datatype Handle = Handle(name: ClkName, parents: seq<ClkName>, flags: nat)

  /** The six per-kind constructors the registration loops call; they live outside this driver. */
  datatype Constructor =
    | AgilexRegisterPll | N5xRegisterPll
    | S10RegisterPeriph | N5xRegisterPeriph
    | S10RegisterCntPeriph | AgilexRegisterGate

  /** The descriptor kind each constructor's C signature takes. */
  predicate Accepts(c: Constructor, d: ClockDesc)
  {
    match c
    case AgilexRegisterPll => d.PllClock?
    case N5xRegisterPll => d.PllClock?
    case S10RegisterPeriph => d.PeripCClock?
    case N5xRegisterPeriph => d.N5xPeripCClock?
    case S10RegisterCntPeriph => d.PeripCntClock?
    case AgilexRegisterGate => d.GateClock?
  }

  /**
   * The constructors, as one abstract oracle: given the constructor, the
   * descriptor and the names the clock framework has registered so far, it
   * returns a handle or fails (an IS_ERR pointer). Live register contents,
   * which a constructor may read, are part of the oracle's choice.
   */
  type Oracle = (Constructor, ClockDesc, seq<ClkName>) -> Option<Handle>
}
