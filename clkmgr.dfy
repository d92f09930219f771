/**
 * Table setup, the two variant initialisation procedures and probe dispatch
 * of the Agilex / N5X clock manager (drivers/clk/socfpga/clk-agilex.c,
 * lines 325-421). The kernel services the driver calls (register mapping,
 * allocation, provider registration, device-tree matching) are outcomes
 * supplied in a `Platform` value.
 */
module ClkMgr {
  import opened Wrappers
  import opened ClockIds
  import opened ClockDescs
  import opened AgilexTables
  import opened Registration

  /** Linux error numbers (include/uapi/asm-generic/errno-base.h) and the largest one an error pointer encodes. */
  const ENOMEM: int := 12
  const ENODEV: int := 19
  const MAX_ERRNO: int := 4095

  /** A negative error code that IS_ERR recognises in an error pointer. */
  predicate IsErrno(e: int)
  {
    -MAX_ERRNO <= e < 0
  }

  /** What the kernel services called during probe return for this device. */
  datatype Platform = Platform(
    compatible: string,          // the device node's compatible string
    ioremap: Result<nat, int>,   // devm_ioremap_resource: register base or error code
    clkDataAlloc: bool,          // devm_kzalloc of the clock data succeeds
    tableAlloc: bool,            // devm_kcalloc of the clock table succeeds
    addProvider: int             // of_clk_add_provider's return value
  )

  /** The services report errors the way the kernel does: as IS_ERR codes, or 0 for success. */
  predicate WellBehaved(p: Platform)
  {
    (p.ioremap.Failure? ==> IsErrno(p.ioremap.error))
    && (p.addProvider == 0 || IsErrno(p.addProvider))
  }

  /**
   * The error `__socfpga_agilex_clk_init` returns, if any: the first of the
   * mapping, the two allocations and the provider registration to fail.
   */
  function SetupError(p: Platform): (r: Option<int>)
    requires WellBehaved(p)
    ensures r.Some? ==> IsErrno(r.value)
    ensures r.None? <==> p.ioremap.Success? && p.clkDataAlloc && p.tableAlloc && p.addProvider == 0
    ensures p.ioremap.Failure? ==> r == Some(p.ioremap.error)
    ensures p.ioremap.Success? && !(p.clkDataAlloc && p.tableAlloc) ==> r == Some(-ENOMEM)
    ensures p.ioremap.Success? && p.clkDataAlloc && p.tableAlloc && p.addProvider != 0 ==> r == Some(p.addProvider)
  {
    if p.ioremap.Failure? then Some(p.ioremap.error)
    else if !p.clkDataAlloc then Some(-ENOMEM)
    else if !p.tableAlloc then Some(-ENOMEM)
    else if p.addProvider != 0 then Some(p.addProvider)
    else None
  }

  /** What a variant init returns: the setup error, else 0 however many clocks failed. */
  function InitStatus(p: Platform): (r: int)
    requires WellBehaved(p)
    ensures r == 0 <==> SetupError(p).None?
    ensures SetupError(p).Some? ==> r == SetupError(p).value
  {
    match SetupError(p)
    case Some(e) => e
    case None => 0
  }

  /**
   * __socfpga_agilex_clk_init: map the registers, allocate the clock data and
   * a zeroed table of `nrClks` slots, and publish the table as the provider.
   */
  method SocfpgaAgilexClkInit(p: Platform, nrClks: nat) returns (r: Result<ClockData, int>)
    requires WellBehaved(p)
    ensures r.Failure? <==> SetupError(p).Some?
    ensures r.Failure? ==> r.error == SetupError(p).value
    ensures r.Success? ==> fresh(r.value) && fresh(r.value.clks) && r.value.Valid()
                           && r.value.base == p.ioremap.value && r.value.clkNum == nrClks
                           && forall k :: 0 <= k < nrClks ==> r.value.clks[k] == None
  {
    if p.ioremap.Failure? {
      // pr_err: failed to map clock registers
      return Failure(p.ioremap.error);
    }
    var base := p.ioremap.value;
    if !p.clkDataAlloc {
      return Failure(-ENOMEM);
    }
    var clkData := new ClockData();
    clkData.base := base;
    if !p.tableAlloc {
      return Failure(-ENOMEM);
    }
    var clkTable := new Option<Handle>[nrClks](_ => None);
    clkData.clks := clkTable;
    clkData.clkNum := nrClks;
    var ret := p.addProvider;
    if ret != 0 {
      return Failure(ret);
    }
    return Success(clkData);
  }

  /** The two supported SoC variants. */
  datatype Variant = Agilex | N5x

  /** One call of a registration loop: a constructor and the table it walks. */
  datatype Batch = Batch(ctor: Constructor, descs: seq<ClockDesc>)

  /** The place of a constructor's kind in the required order PLL, C divider, counter, gate. */
  function KindRank(c: Constructor): nat
  {
    match c
    case AgilexRegisterPll => 0
    case N5xRegisterPll => 0
    case S10RegisterPeriph => 1
    case N5xRegisterPeriph => 1
    case S10RegisterCntPeriph => 2
    case AgilexRegisterGate => 3
  }

  /** The batches a variant's init runs, in order. */
  function Batches(v: Variant): (r: seq<Batch>)
    ensures |r| == 4
    ensures forall i :: 0 <= i < 4 ==> KindRank(r[i].ctor) == i
  {
    match v
    case Agilex =>
      [Batch(AgilexRegisterPll, AgilexPllClks), Batch(S10RegisterPeriph, AgilexMainPeripCClks),
       Batch(S10RegisterCntPeriph, AgilexMainPeripCntClks), Batch(AgilexRegisterGate, AgilexGateClks)]
    case N5x =>
      [Batch(N5xRegisterPll, AgilexPllClks), Batch(N5xRegisterPeriph, N5xMainPeripCClks),
       Batch(S10RegisterCntPeriph, AgilexMainPeripCntClks), Batch(AgilexRegisterGate, AgilexGateClks)]
  }

  /**
   * The two variants share the PLL, counter and gate tables and the counter
   * and gate constructors; they differ in the PLL and C constructors and the
   * C table.
   */
  lemma VariantsShareTables()
    ensures Batches(Agilex)[0].descs == Batches(N5x)[0].descs
    ensures Batches(Agilex)[2] == Batches(N5x)[2] && Batches(Agilex)[3] == Batches(N5x)[3]
    ensures Batches(Agilex)[0].ctor != Batches(N5x)[0].ctor
    ensures Batches(Agilex)[1].ctor != Batches(N5x)[1].ctor
    ensures Batches(Agilex)[1].descs != Batches(N5x)[1].descs
  {
    assert Batches(Agilex)[1].descs[0] != Batches(N5x)[1].descs[0];
  }

  /** Each batch's constructor accepts every descriptor of the table it walks. */
  lemma BatchesMatchConstructors(v: Variant)
    ensures forall i, d :: 0 <= i < 4 && d in Batches(v)[i].descs ==> Accepts(Batches(v)[i].ctor, d)
  {
    TablesMatchConstructors();
  }

  /** Running batches one after another, each on the state the previous one left. */
  function RunBatches(oracle: Oracle, batches: seq<Batch>, st: RegState): (r: RegState)
    requires |st.table| == NumClks
    ensures |r.table| == NumClks
    ensures |st.known| <= |r.known| && r.known[..|st.known|] == st.known
    decreases |batches|
  {
    if batches == [] then st
    else RunBatches(oracle, batches[1..], RegisterAll(oracle, batches[0].ctor, batches[0].descs, st))
  }

  /** The state a variant's init leaves, given the names registered before it. */
  function VariantResult(v: Variant, oracle: Oracle, known: seq<ClkName>): RegState
  {
    RunBatches(oracle, Batches(v), RegState(EmptyTable(), known))
  }

  /** agilex_clkmgr_init: set up a table of AGILEX_NUM_CLKS slots, then register PLL, C, counter and gate clocks. */
  method AgilexClkmgrInit(p: Platform, registry: ClkRegistry, oracle: Oracle)
    returns (ret: int, data: ClockData?)
    requires WellBehaved(p)
    modifies registry
    ensures ret == InitStatus(p)
    ensures ret != 0 ==> data == null && registry.names == old(registry.names)
    ensures ret == 0 ==> data != null && fresh(data) && fresh(data.clks) && data.Valid()
                         && data.clkNum == NumClks
                         && State(data, registry) == VariantResult(Agilex, oracle, old(registry.names))
  {
    var r := SocfpgaAgilexClkInit(p, NumClks);
    if r.Failure? {
      return r.error, null;
    }
    data := r.value;
    ghost var st0 := State(data, registry);
    assert st0 == RegState(EmptyTable(), old(registry.names));
    TablesMatchConstructors();
    ghost var b := Batches(Agilex);
    assert AgilexPllClks[..|AgilexPllClks|] == b[0].descs;
    var _ := AgilexClkRegisterPll(AgilexPllClks, |AgilexPllClks|, data, registry, oracle);
    ghost var st1 := State(data, registry);
    assert AgilexMainPeripCClks[..|AgilexMainPeripCClks|] == b[1].descs;
    var _ := AgilexClkRegisterCPerip(AgilexMainPeripCClks, |AgilexMainPeripCClks|, data, registry, oracle);
    ghost var st2 := State(data, registry);
    assert AgilexMainPeripCntClks[..|AgilexMainPeripCntClks|] == b[2].descs;
    var _ := AgilexClkRegisterCntPerip(AgilexMainPeripCntClks, |AgilexMainPeripCntClks|,
                                       data, registry, oracle);
    ghost var st3 := State(data, registry);
    assert AgilexGateClks[..|AgilexGateClks|] == b[3].descs;
    var _ := AgilexClkRegisterGate(AgilexGateClks, |AgilexGateClks|, data, registry, oracle);
    RunFourBatches(oracle, b, st0);
    assert st1 == RegisterAll(oracle, b[0].ctor, b[0].descs, st0);
    assert st2 == RegisterAll(oracle, b[1].ctor, b[1].descs, st1);
    assert st3 == RegisterAll(oracle, b[2].ctor, b[2].descs, st2);
    return 0, data;
  }

  /** n5x_clkmgr_init: as agilex_clkmgr_init, with the N5X PLL and C constructors and C table. */
  method N5xClkmgrInit(p: Platform, registry: ClkRegistry, oracle: Oracle)
    returns (ret: int, data: ClockData?)
    requires WellBehaved(p)
    modifies registry
    ensures ret == InitStatus(p)
    ensures ret != 0 ==> data == null && registry.names == old(registry.names)
    ensures ret == 0 ==> data != null && fresh(data) && fresh(data.clks) && data.Valid()
                         && data.clkNum == NumClks
                         && State(data, registry) == VariantResult(N5x, oracle, old(registry.names))
  {
    var r := SocfpgaAgilexClkInit(p, NumClks);
    if r.Failure? {
      return r.error, null;
    }
    data := r.value;
    ghost var st0 := State(data, registry);
    assert st0 == RegState(EmptyTable(), old(registry.names));
    TablesMatchConstructors();
    ghost var b := Batches(N5x);
    assert AgilexPllClks[..|AgilexPllClks|] == b[0].descs;
    var _ := N5xClkRegisterPll(AgilexPllClks, |AgilexPllClks|, data, registry, oracle);
    ghost var st1 := State(data, registry);
    assert N5xMainPeripCClks[..|N5xMainPeripCClks|] == b[1].descs;
    var _ := N5xClkRegisterCPerip(N5xMainPeripCClks, |N5xMainPeripCClks|, data, registry, oracle);
    ghost var st2 := State(data, registry);
    assert AgilexMainPeripCntClks[..|AgilexMainPeripCntClks|] == b[2].descs;
    var _ := AgilexClkRegisterCntPerip(AgilexMainPeripCntClks, |AgilexMainPeripCntClks|,
                                       data, registry, oracle);
    ghost var st3 := State(data, registry);
    assert AgilexGateClks[..|AgilexGateClks|] == b[3].descs;
    var _ := AgilexClkRegisterGate(AgilexGateClks, |AgilexGateClks|, data, registry, oracle);
    RunFourBatches(oracle, b, st0);
    assert st1 == RegisterAll(oracle, b[0].ctor, b[0].descs, st0);
    assert st2 == RegisterAll(oracle, b[1].ctor, b[1].descs, st1);
    assert st3 == RegisterAll(oracle, b[2].ctor, b[2].descs, st2);
    return 0, data;
  }

  /** Four batches run one after another are `RunBatches` of the four. */
  lemma RunFourBatches(oracle: Oracle, b: seq<Batch>, st: RegState)
    requires |b| == 4 && |st.table| == NumClks
    ensures RunBatches(oracle, b, st)
         == RegisterAll(oracle, b[3].ctor, b[3].descs,
              RegisterAll(oracle, b[2].ctor, b[2].descs,
                RegisterAll(oracle, b[1].ctor, b[1].descs,
                  RegisterAll(oracle, b[0].ctor, b[0].descs, st))))
  {
    var s1 := RegisterAll(oracle, b[0].ctor, b[0].descs, st);
    var s2 := RegisterAll(oracle, b[1].ctor, b[1].descs, s1);
    var s3 := RegisterAll(oracle, b[2].ctor, b[2].descs, s2);
    var s4 := RegisterAll(oracle, b[3].ctor, b[3].descs, s3);
    assert RunBatches(oracle, b[4..], s4) == s4;
    assert RunBatches(oracle, b[3..], s3) == RunBatches(oracle, b[4..], s4);
    assert RunBatches(oracle, b[2..], s2) == RunBatches(oracle, b[3..], s3) by {
      assert b[2..][1..] == b[3..];
    }
    assert RunBatches(oracle, b[1..], s1) == RunBatches(oracle, b[2..], s2) by {
      assert b[1..][1..] == b[2..];
    }
  }

  /** Each table is handed to the constructor of its own descriptor kind. */
  lemma TablesMatchConstructors()
    ensures forall d :: d in AgilexPllClks ==> Accepts(AgilexRegisterPll, d) && Accepts(N5xRegisterPll, d)
    ensures forall d :: d in AgilexMainPeripCClks ==> Accepts(S10RegisterPeriph, d)
    ensures forall d :: d in N5xMainPeripCClks ==> Accepts(N5xRegisterPeriph, d)
    ensures forall d :: d in AgilexMainPeripCntClks ==> Accepts(S10RegisterCntPeriph, d)
    ensures forall d :: d in AgilexGateClks ==> Accepts(AgilexRegisterGate, d)
  {
  }

  /** One entry of the driver's of_device_id match table. */
  datatype MatchEntry = MatchEntry(compatible: string, data: Variant)

  /** agilex_clkmgr_match_table (its empty sentinel entry is the end of the sequence). */
  const AgilexClkmgrMatchTable: seq<MatchEntry> := [
    MatchEntry("intel,agilex-clkmgr", Agilex),
    MatchEntry("intel,easic-n5x-clkmgr", N5x)
  ]

  /**
   * The kernel's `tolower` (lib/ctype.c, not part of this model): the ASCII
   * capitals and the Latin-1 capitals U+00C0 to U+00DE, except U+00D7, map
   * to their small letters; every other character is unchanged.
   */
  function ToLower(c: char): (r: char)
    ensures r == c || (('A' <= c <= 'Z' || ('\U{C0}' <= c <= '\U{DE}' && c != '\U{D7}')) && r as int == c as int + 32)
  {
    if 'A' <= c <= 'Z' || ('\U{C0}' <= c <= '\U{DE}' && c != '\U{D7}') then (c as int + 32) as char else c
  }

  /** `strcasecmp(a, b) == 0`, which is how `of_compat_cmp` compares compatible strings. */
  predicate SameIgnoringCase(a: string, b: string)
  {
    |a| == |b| && forall i :: 0 <= i < |a| ==> ToLower(a[i]) == ToLower(b[i])
  }

  /**
   * of_device_get_match_data: the data of the first entry whose compatible
   * string equals the device's, ignoring case.
   */
  function MatchData(table: seq<MatchEntry>, compatible: string): (r: Option<Variant>)
    ensures r.None? <==> forall i :: 0 <= i < |table| ==> !SameIgnoringCase(table[i].compatible, compatible)
    ensures r.Some? ==> exists i :: 0 <= i < |table| && SameIgnoringCase(table[i].compatible, compatible)
                          && table[i].data == r.value
                          && forall j :: 0 <= j < i ==> !SameIgnoringCase(table[j].compatible, compatible)
  {
    if table == [] then None
    else if SameIgnoringCase(table[0].compatible, compatible) then Some(table[0].data)
    else
      var r := MatchData(table[1..], compatible);
      assert r.Some? ==> exists i :: 0 <= i < |table| - 1 && SameIgnoringCase(table[1..][i].compatible, compatible)
                           && table[1..][i].data == r.value
                           && forall j :: 0 <= j < i ==> !SameIgnoringCase(table[1..][j].compatible, compatible);
      r
  }

  /** Two compatible strings that differ only in case select the same entry. */
  lemma {:induction false} MatchDataIgnoresCase(table: seq<MatchEntry>, a: string, b: string)
    requires SameIgnoringCase(a, b)
    ensures MatchData(table, a) == MatchData(table, b)
    decreases |table|
  {
    if table != [] {
      var c := table[0].compatible;
      assert SameIgnoringCase(c, a) <==> SameIgnoringCase(c, b);
      MatchDataIgnoresCase(table[1..], a, b);
    }
  }

  /**
   * The match table sends each supported compatible string, in any case, to
   * its variant, and every other string to nothing.
   */
  lemma MatchTableSelectsVariant(compatible: string)
    ensures SameIgnoringCase(compatible, "intel,agilex-clkmgr")
            ==> MatchData(AgilexClkmgrMatchTable, compatible) == Some(Agilex)
    ensures SameIgnoringCase(compatible, "intel,easic-n5x-clkmgr")
            ==> MatchData(AgilexClkmgrMatchTable, compatible) == Some(N5x)
    ensures !SameIgnoringCase(compatible, "intel,agilex-clkmgr") && !SameIgnoringCase(compatible, "intel,easic-n5x-clkmgr")
            ==> MatchData(AgilexClkmgrMatchTable, compatible) == None
  {
    var t := AgilexClkmgrMatchTable;
    assert t[0].compatible == "intel,agilex-clkmgr" && t[1].compatible == "intel,easic-n5x-clkmgr";
    assert SameIgnoringCase(compatible, t[0].compatible) <==> SameIgnoringCase(t[0].compatible, compatible);
    assert SameIgnoringCase(compatible, t[1].compatible) <==> SameIgnoringCase(t[1].compatible, compatible);
  }

  /** A capitalised compatible string still selects its variant, as `strcasecmp` does. */
  lemma CapitalisedCompatibleMatches()
    ensures MatchData(AgilexClkmgrMatchTable, "Intel,Agilex-Clkmgr") == Some(Agilex)
    ensures MatchData(AgilexClkmgrMatchTable, "INTEL,EASIC-N5X-CLKMGR") == Some(N5x)
  {
    var a, n := "Intel,Agilex-Clkmgr", "INTEL,EASIC-N5X-CLKMGR";
    forall i | 0 <= i < |a|
      ensures ToLower(a[i]) == ToLower("intel,agilex-clkmgr"[i])
    {
    }
    forall i | 0 <= i < |n|
      ensures ToLower(n[i]) == ToLower("intel,easic-n5x-clkmgr"[i])
    {
    }
    MatchTableSelectsVariant(a);
    MatchTableSelectsVariant(n);
  }

  /**
   * agilex_clkmgr_probe: -ENODEV when the device matches no entry, otherwise
   * exactly what the matched variant's init returns.
   */
  method AgilexClkmgrProbe(p: Platform, registry: ClkRegistry, oracle: Oracle)
    returns (ret: int, data: ClockData?)
    requires WellBehaved(p)
    modifies registry
    ensures MatchData(AgilexClkmgrMatchTable, p.compatible).None?
            ==> ret == -ENODEV && data == null && registry.names == old(registry.names)
    ensures MatchData(AgilexClkmgrMatchTable, p.compatible).Some?
            ==> ret == InitStatus(p)
                && (ret != 0 ==> data == null && registry.names == old(registry.names))
                && (ret == 0 ==> data != null && fresh(data) && data.Valid()
                                 && State(data, registry)
                                    == VariantResult(MatchData(AgilexClkmgrMatchTable, p.compatible).value,
                                                     oracle, old(registry.names)))
  {
    var probeFunc := MatchData(AgilexClkmgrMatchTable, p.compatible);
    if probeFunc.None? {
      return -ENODEV, null;
    }
    match probeFunc.value
    case Agilex =>
      ret, data := AgilexClkmgrInit(p, registry, oracle);
    case N5x =>
      ret, data := N5xClkmgrInit(p, registry, oracle);
  }
}
