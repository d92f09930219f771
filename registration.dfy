/**
 * The registration engine: the six `*_register_*` loops of
 * drivers/clk/socfpga/clk-agilex.c (lines 181-323). Each walks one
 * descriptor table in order and calls that table's constructor; on success
 * the returned handle is stored in the id-indexed table at the descriptor's
 * id, on failure the descriptor is skipped; the loop always returns 0.
 *
 * `RegisterAll` is the specification of one loop, as a fold over the
 * descriptors; the lemmas below state what it promises, and `RegisterClocks`
 * is the loop itself, proved equal to the fold.
 */
module Registration {
  import opened Wrappers
  import opened ClockIds
  import opened ClockDescs

  /**
   * What a registration loop acts on: the id-indexed clock table
   * (`clk_data.clks`) and the names the clock framework has registered.
   */
  datatype RegState = RegState(table: seq<Option<Handle>>, known: seq<ClkName>)

  /** The zero-initialised table of `NumClks` empty slots. */
  function EmptyTable(): (t: seq<Option<Handle>>)
    ensures |t| == NumClks && forall k :: 0 <= k < |t| ==> t[k] == None
  {
    seq(NumClks, _ => None)
  }

  /**
   * One loop iteration: call the constructor, and store its handle at the
   * descriptor's id if it succeeded. Only that id's slot can change, at most
   * the descriptor's own name is registered, and the state changes exactly
   * when the constructor succeeds.
   */
  function Attempt(oracle: Oracle, ctor: Constructor, d: ClockDesc, st: RegState): (r: RegState)
    requires |st.table| == NumClks
    ensures |r.table| == NumClks
    ensures forall k :: 0 <= k < NumClks && k != Slot(d.id) ==> r.table[k] == st.table[k]
    ensures r.known == st.known || r.known == st.known + [d.name]
    ensures r == st <==> oracle(ctor, d, st.known).None?
  {
    match oracle(ctor, d, st.known)
    case None => st
    case Some(h) => RegState(st.table[Slot(d.id) := Some(h)], st.known + [d.name])
  }

  /** A successful iteration stores the returned handle at the descriptor's id and registers its name. */
  lemma AttemptStoresHandle(oracle: Oracle, ctor: Constructor, d: ClockDesc, st: RegState)
    requires |st.table| == NumClks && oracle(ctor, d, st.known).Some?
    ensures Attempt(oracle, ctor, d, st).table[Slot(d.id)] == oracle(ctor, d, st.known)
    ensures Attempt(oracle, ctor, d, st).known == st.known + [d.name]
  {
  }

  /**
   * A whole loop: every descriptor attempted once, in index order. Names are
   * only ever added, at most one per descriptor.
   */
  function RegisterAll(oracle: Oracle, ctor: Constructor, descs: seq<ClockDesc>, st: RegState): (r: RegState)
    requires |st.table| == NumClks
    ensures |r.table| == NumClks
    ensures |st.known| <= |r.known| <= |st.known| + |descs| && r.known[..|st.known|] == st.known
    decreases |descs|
  {
    if descs == [] then st
    else RegisterAll(oracle, ctor, descs[1..], Attempt(oracle, ctor, descs[0], st))
  }

  /** The constructor's result for each descriptor, in the order the loop calls it. */
  function Outcomes(oracle: Oracle, ctor: Constructor, descs: seq<ClockDesc>, st: RegState): (r: seq<Option<Handle>>)
    requires |st.table| == NumClks
    ensures |r| == |descs|
    decreases |descs|
  {
    if descs == [] then []
    else [oracle(ctor, descs[0], st.known)]
         + Outcomes(oracle, ctor, descs[1..], Attempt(oracle, ctor, descs[0], st))
  }

  /** The names of the descriptors whose constructor call succeeded. */
  function Registered(descs: seq<ClockDesc>, outs: seq<Option<Handle>>): (r: seq<ClkName>)
    requires |outs| == |descs|
    ensures |r| <= |descs|
  {
    if descs == [] then []
    else (if outs[0].Some? then [descs[0].name] else []) + Registered(descs[1..], outs[1..])
  }

  /** Running two tables back to back is running their concatenation. */
  lemma {:induction false} RegisterAllAppend(oracle: Oracle, ctor: Constructor, a: seq<ClockDesc>,
                                             b: seq<ClockDesc>, st: RegState)
    requires |st.table| == NumClks
    ensures RegisterAll(oracle, ctor, a + b, st)
         == RegisterAll(oracle, ctor, b, RegisterAll(oracle, ctor, a, st))
    ensures Outcomes(oracle, ctor, a + b, st)
         == Outcomes(oracle, ctor, a, st) + Outcomes(oracle, ctor, b, RegisterAll(oracle, ctor, a, st))
    decreases |a|
  {
    if a != [] {
      assert (a + b)[0] == a[0] && (a + b)[1..] == a[1..] + b;
      RegisterAllAppend(oracle, ctor, a[1..], b, Attempt(oracle, ctor, a[0], st));
    } else {
      assert a + b == b;
    }
  }

  /**
   * The i-th constructor call sees exactly the names registered by the
   * calls before it: descriptors are attempted one at a time, in index order.
   */
  lemma {:induction false} OutcomeAt(oracle: Oracle, ctor: Constructor, descs: seq<ClockDesc>,
                                     st: RegState, i: nat)
    requires |st.table| == NumClks && i < |descs|
    ensures Outcomes(oracle, ctor, descs, st)[i]
         == oracle(ctor, descs[i], RegisterAll(oracle, ctor, descs[..i], st).known)
    decreases i
  {
    if i > 0 {
      OutcomeAt(oracle, ctor, descs[1..], Attempt(oracle, ctor, descs[0], st), i - 1);
      assert descs[..i][1..] == descs[1..][..i - 1];
    }
  }

  /** The framework ends up knowing the old names followed by the names of the successful calls, in order. */
  lemma {:induction false} KnownAfterRegister(oracle: Oracle, ctor: Constructor, descs: seq<ClockDesc>,
                                              st: RegState)
    requires |st.table| == NumClks
    ensures RegisterAll(oracle, ctor, descs, st).known
         == st.known + Registered(descs, Outcomes(oracle, ctor, descs, st))
    decreases |descs|
  {
    if descs != [] {
      var st' := Attempt(oracle, ctor, descs[0], st);
      KnownAfterRegister(oracle, ctor, descs[1..], st');
      var outs := Outcomes(oracle, ctor, descs, st);
      assert outs[1..] == Outcomes(oracle, ctor, descs[1..], st');
    }
  }

  /**
   * A slot that no successful call wrote keeps its old contents: failures
   * leave the table unchanged, and a success writes only its own id's slot.
   */
  lemma {:induction false} UntouchedSlot(oracle: Oracle, ctor: Constructor, descs: seq<ClockDesc>,
                                         st: RegState, k: nat)
    requires |st.table| == NumClks && k < NumClks
    requires forall j :: 0 <= j < |descs| && Slot(descs[j].id) == k
               ==> Outcomes(oracle, ctor, descs, st)[j].None?
    ensures RegisterAll(oracle, ctor, descs, st).table[k] == st.table[k]
    decreases |descs|
  {
    if descs != [] {
      var st' := Attempt(oracle, ctor, descs[0], st);
      var outs := Outcomes(oracle, ctor, descs, st);
      assert outs[1..] == Outcomes(oracle, ctor, descs[1..], st');
      forall j | 0 <= j < |descs| - 1 && Slot(descs[1..][j].id) == k
        ensures Outcomes(oracle, ctor, descs[1..], st')[j].None?
      {
        assert outs[j + 1].None?;
      }
      UntouchedSlot(oracle, ctor, descs[1..], st', k);
      if Slot(descs[0].id) == k {
        assert outs[0].None?;
      }
    }
  }

  /**
   * The last successful call for an id is what its slot holds: a later
   * descriptor with the same id overwrites an earlier one, and one whose call
   * fails does not.
   */
  lemma {:induction false} LastSuccessWins(oracle: Oracle, ctor: Constructor, descs: seq<ClockDesc>,
                                           st: RegState, j: nat, h: Handle)
    requires |st.table| == NumClks && j < |descs|
    requires Outcomes(oracle, ctor, descs, st)[j] == Some(h)
    requires forall i :: j < i < |descs| && descs[i].id == descs[j].id
               ==> Outcomes(oracle, ctor, descs, st)[i].None?
    ensures RegisterAll(oracle, ctor, descs, st).table[Slot(descs[j].id)] == Some(h)
    decreases |descs|
  {
    var st' := Attempt(oracle, ctor, descs[0], st);
    var outs := Outcomes(oracle, ctor, descs, st);
    assert outs[1..] == Outcomes(oracle, ctor, descs[1..], st');
    if j == 0 {
      forall i | 0 <= i < |descs| - 1 && Slot(descs[1..][i].id) == Slot(descs[0].id)
        ensures Outcomes(oracle, ctor, descs[1..], st')[i].None?
      {
        SlotInjective(descs[1..][i].id, descs[0].id);
        assert outs[i + 1].None?;
      }
      UntouchedSlot(oracle, ctor, descs[1..], st', Slot(descs[0].id));
    } else {
      LastSuccessWins(oracle, ctor, descs[1..], st', j - 1, h);
    }
  }

  /**
   * A descriptor whose constructor call fails is as if it were not in the
   * table: the loop's result, table and registered names alike, is that of
   * the table without it.
   */
  lemma FailedAttemptIsInvisible(oracle: Oracle, ctor: Constructor, descs: seq<ClockDesc>,
                                 st: RegState, i: nat)
    requires |st.table| == NumClks && i < |descs|
    requires Outcomes(oracle, ctor, descs, st)[i].None?
    ensures RegisterAll(oracle, ctor, descs, st)
         == RegisterAll(oracle, ctor, descs[..i] + descs[i + 1..], st)
  {
    var before := RegisterAll(oracle, ctor, descs[..i], st);
    OutcomeAt(oracle, ctor, descs, st, i);
    assert descs == descs[..i] + ([descs[i]] + descs[i + 1..]);
    RegisterAllAppend(oracle, ctor, descs[..i], [descs[i]] + descs[i + 1..], st);
    assert RegisterAll(oracle, ctor, [descs[i]] + descs[i + 1..], before)
        == RegisterAll(oracle, ctor, descs[i + 1..], before);
    RegisterAllAppend(oracle, ctor, descs[..i], descs[i + 1..], st);
  }

  /** struct stratix10_clock_data: the register base and the provider's clock table. */
  class ClockData {
    var base: nat
    var clks: array<Option<Handle>>
    var clkNum: nat

    /** `clk_num` is the length of the table it describes. */
    ghost predicate Valid()
      reads this
    {
      clks.Length == clkNum
    }

    /** devm_kzalloc: every field zero, no table yet. */
    constructor ()
      ensures Valid() && base == 0 && clkNum == 0 && clks.Length == 0
    {
      base := 0;
      clks := new Option<Handle>[0];
      clkNum := 0;
    }
  }

  /** The clock framework's global registry of clock names; each successful constructor extends it. */
  class ClkRegistry {
    var names: seq<ClkName>

    constructor (roots: seq<ClkName>)
      ensures names == roots
    {
      names := roots;
    }
  }

  /** The abstract view of a table and registry. */
  function State(data: ClockData, registry: ClkRegistry): RegState
    reads data, data.clks, registry
  {
    RegState(data.clks[..], registry.names)
  }

  /** One constructor call: on success the clock framework also records the new clock's name. */
  method CallConstructor(oracle: Oracle, ctor: Constructor, d: ClockDesc, registry: ClkRegistry)
    returns (clk: Option<Handle>)
    modifies registry
    ensures clk == oracle(ctor, d, old(registry.names))
    ensures registry.names == if clk.Some? then old(registry.names) + [d.name] else old(registry.names)
  {
    clk := oracle(ctor, d, registry.names);
    if clk.Some? {
      registry.names := registry.names + [d.name];
    }
  }

  /**
   * The loop shared by the six registration functions: walk `clks[0..nums)`,
   * call `ctor` on each, and on success store the handle at its id.
   */
  method RegisterClocks(ctor: Constructor, clks: seq<ClockDesc>, nums: nat, data: ClockData,
                        registry: ClkRegistry, oracle: Oracle) returns (ret: int)
    requires nums <= |clks|
    requires data.Valid() && data.clkNum == NumClks
    modifies data.clks, registry
    ensures ret == 0 && data.Valid()
    ensures State(data, registry) == RegisterAll(oracle, ctor, clks[..nums], old(State(data, registry)))
  {
    ghost var start := State(data, registry);
    for i := 0 to nums
      invariant RegisterAll(oracle, ctor, clks[i..nums], State(data, registry))
             == RegisterAll(oracle, ctor, clks[..nums], start)
    {
      ghost var before := State(data, registry);
      assert clks[i..nums][0] == clks[i] && clks[i..nums][1..] == clks[i + 1..nums];
      var clk := CallConstructor(oracle, ctor, clks[i], registry);
      if clk.None? {
        // pr_err: the descriptor is reported and skipped
        continue;
      }
      data.clks[Slot(clks[i].id)] := clk;
      assert State(data, registry) == Attempt(oracle, ctor, clks[i], before);
    }
    assert clks[..nums][0..] == clks[..nums];
    return 0;
  }

  method AgilexClkRegisterPll(clks: seq<ClockDesc>, nums: nat, data: ClockData,
                              registry: ClkRegistry, oracle: Oracle) returns (ret: int)
    requires nums <= |clks| && forall d :: d in clks ==> Accepts(AgilexRegisterPll, d)
    requires data.Valid() && data.clkNum == NumClks
    modifies data.clks, registry
    ensures ret == 0 && data.Valid()
    ensures State(data, registry)
         == RegisterAll(oracle, AgilexRegisterPll, clks[..nums], old(State(data, registry)))
  {
    ret := RegisterClocks(AgilexRegisterPll, clks, nums, data, registry, oracle);
  }

  method N5xClkRegisterPll(clks: seq<ClockDesc>, nums: nat, data: ClockData,
                           registry: ClkRegistry, oracle: Oracle) returns (ret: int)
    requires nums <= |clks| && forall d :: d in clks ==> Accepts(N5xRegisterPll, d)
    requires data.Valid() && data.clkNum == NumClks
    modifies data.clks, registry
    ensures ret == 0 && data.Valid()
    ensures State(data, registry)
         == RegisterAll(oracle, N5xRegisterPll, clks[..nums], old(State(data, registry)))
  {
    ret := RegisterClocks(N5xRegisterPll, clks, nums, data, registry, oracle);
  }

  method AgilexClkRegisterCPerip(clks: seq<ClockDesc>, nums: nat, data: ClockData,
                                 registry: ClkRegistry, oracle: Oracle) returns (ret: int)
    requires nums <= |clks| && forall d :: d in clks ==> Accepts(S10RegisterPeriph, d)
    requires data.Valid() && data.clkNum == NumClks
    modifies data.clks, registry
    ensures ret == 0 && data.Valid()
    ensures State(data, registry)
         == RegisterAll(oracle, S10RegisterPeriph, clks[..nums], old(State(data, registry)))
  {
    ret := RegisterClocks(S10RegisterPeriph, clks, nums, data, registry, oracle);
  }

  method N5xClkRegisterCPerip(clks: seq<ClockDesc>, nums: nat, data: ClockData,
                              registry: ClkRegistry, oracle: Oracle) returns (ret: int)
    requires nums <= |clks| && forall d :: d in clks ==> Accepts(N5xRegisterPeriph, d)
    requires data.Valid() && data.clkNum == NumClks
    modifies data.clks, registry
    ensures ret == 0 && data.Valid()
    ensures State(data, registry)
         == RegisterAll(oracle, N5xRegisterPeriph, clks[..nums], old(State(data, registry)))
  {
    ret := RegisterClocks(N5xRegisterPeriph, clks, nums, data, registry, oracle);
  }

  method AgilexClkRegisterCntPerip(clks: seq<ClockDesc>, nums: nat, data: ClockData,
                                   registry: ClkRegistry, oracle: Oracle) returns (ret: int)
    requires nums <= |clks| && forall d :: d in clks ==> Accepts(S10RegisterCntPeriph, d)
    requires data.Valid() && data.clkNum == NumClks
    modifies data.clks, registry
    ensures ret == 0 && data.Valid()
    ensures State(data, registry)
         == RegisterAll(oracle, S10RegisterCntPeriph, clks[..nums], old(State(data, registry)))
  {
    ret := RegisterClocks(S10RegisterCntPeriph, clks, nums, data, registry, oracle);
  }

  method AgilexClkRegisterGate(clks: seq<ClockDesc>, nums: nat, data: ClockData,
                               registry: ClkRegistry, oracle: Oracle) returns (ret: int)
    requires nums <= |clks| && forall d :: d in clks ==> Accepts(AgilexRegisterGate, d)
    requires data.Valid() && data.clkNum == NumClks
    modifies data.clks, registry
    ensures ret == 0 && data.Valid()
    ensures State(data, registry)
         == RegisterAll(oracle, AgilexRegisterGate, clks[..nums], old(State(data, registry)))
  {
    ret := RegisterClocks(AgilexRegisterGate, clks, nums, data, registry, oracle);
  }
}
