/**
 * What the driver's own tables give under the reference constructor of
 * `ClockTopology`, starting from the three external roots: their
 * well-formedness (parent-field convention, parents before children, one
 * name and one id per clock), the effect of the duplicated gate entry of
 * drivers/clk/socfpga/clk-agilex.c:163, and the corrected gate table with
 * the full registration it achieves.
 */
module TableFacts {
  import opened Wrappers
  import opened ClockIds
  import opened ClockDescs
  import opened Registration
  import opened AgilexTables
  import opened ClkMgr
  import opened ClockTopology

  /** Every table keeps the parent-field convention: one fixed parent, or a mux list with its own length. */
  lemma TablesParentFieldsConsistent()
    ensures forall d :: d in AgilexPllClks ==> ParentFieldsConsistent(d)
    ensures forall d :: d in N5xMainPeripCClks ==> ParentFieldsConsistent(d)
    ensures forall d :: d in AgilexMainPeripCClks ==> ParentFieldsConsistent(d)
    ensures forall d :: d in AgilexMainPeripCntClks ==> ParentFieldsConsistent(d)
    ensures forall d :: d in AgilexGateClks ==> ParentFieldsConsistent(d)
  {
    GateParentFieldsConsistent();
  }

  /** The gate table keeps the parent-field convention. */
  lemma GateParentFieldsConsistent()
    ensures forall d :: d in AgilexGateClks ==> ParentFieldsConsistent(d)
  {
  }

  /** The external roots hold the three lowest name ranks, in order. */
  lemma RootsRanked()
    ensures RanksInOrder(ExternalRoots) && |ExternalRoots| == 3
  {
  }

  /** The PLL table registers boot_clk and the two PLLs after the roots, and owns slots 0 to 2. */
  lemma PllTableOrdered()
    ensures RankOrdered(AgilexPllClks, |ExternalRoots|) && SlotOrdered(AgilexPllClks, 0)
  {
    forall i | 0 <= i < |AgilexPllClks|
      ensures NameRank(AgilexPllClks[i].name) == |ExternalRoots| + i
      ensures forall p :: p in Candidates(AgilexPllClks[i]) ==> NameRank(p) < |ExternalRoots| + i
      ensures Slot(AgilexPllClks[i].id) == i
    {
    }
  }

  /** Both C tables divide the PLLs registered before them, and own slots 3 to 10. */
  lemma CTablesOrdered()
    ensures RankOrdered(AgilexMainPeripCClks, 6) && SlotOrdered(AgilexMainPeripCClks, 3)
    ensures RankOrdered(N5xMainPeripCClks, 6) && SlotOrdered(N5xMainPeripCClks, 3)
  {
    forall i | 0 <= i < |AgilexMainPeripCClks|
      ensures NameRank(AgilexMainPeripCClks[i].name) == 6 + i
      ensures forall p :: p in Candidates(AgilexMainPeripCClks[i]) ==> NameRank(p) < 6 + i
      ensures Slot(AgilexMainPeripCClks[i].id) == 3 + i
    {
    }
    forall i | 0 <= i < |N5xMainPeripCClks|
      ensures NameRank(N5xMainPeripCClks[i].name) == 6 + i
      ensures forall p :: p in Candidates(N5xMainPeripCClks[i]) ==> NameRank(p) < 6 + i
      ensures Slot(N5xMainPeripCClks[i].id) == 3 + i
    {
    }
  }

  // CntTableNamesAndSlots and CntTableParents, and the GateFront* and
  // GateBack* lemmas below, state a table's facts a few entries at a time.
  // They are not separate claims about the driver: the split only keeps each
  // proof small enough for the solver, and CntTableOrdered and
  // GateTableOrdered put the pieces together.

  /** The counter table registers the names of ranks 14 to 24 and owns slots 11 to 21. */
  lemma CntTableNamesAndSlots()
    ensures forall i :: 0 <= i < |AgilexMainPeripCntClks| ==>
              NameRank(AgilexMainPeripCntClks[i].name) == 14 + i && Slot(AgilexMainPeripCntClks[i].id) == 11 + i
  {
  }

  /** The parents of the counter table's entries rank below their children. */
  lemma CntTableParents()
    ensures forall i, p :: 0 <= i < |AgilexMainPeripCntClks| && p in Candidates(AgilexMainPeripCntClks[i])
              ==> NameRank(p) < 14 + i
  {
  }

  /** The counter table muxes C outputs and roots registered before it, and owns slots 11 to 21. */
  lemma CntTableOrdered()
    ensures RankOrdered(AgilexMainPeripCntClks, 14) && SlotOrdered(AgilexMainPeripCntClks, 11)
  {
    CntTableNamesAndSlots();
    CntTableParents();
  }

  /** Gate entries 0 to 17 register the names of ranks 25 to 42. */
  lemma GateFrontNames()
    ensures forall i :: 0 <= i < 18 ==> NameRank(AgilexGateClks[i].name) == 25 + i
  {
  }

  /** The parents of gate entries 0 to 8 rank below their children. */
  lemma GateFrontParentsLow()
    ensures forall i, p :: 0 <= i < 9 && p in Candidates(AgilexGateClks[i]) ==> NameRank(p) < 25 + i
  {
  }

  /** The parents of gate entries 9 to 17 rank below their children. */
  lemma GateFrontParentsHigh()
    ensures forall i, p :: 9 <= i < 18 && p in Candidates(AgilexGateClks[i]) ==> NameRank(p) < 25 + i
  {
  }

  /** Gate entries 0 to 17 register names of ranks 25 to 42, each after its parents. */
  lemma GateFrontRanked()
    ensures RankOrdered(AgilexGateClks[..18], 25)
  {
    GateFrontNames();
    GateFrontParentsLow();
    GateFrontParentsHigh();
    var front := AgilexGateClks[..18];
    forall i | 0 <= i < 18
      ensures front[i] == AgilexGateClks[i]
    {
    }
  }

  /** Gate entries 0 to 16 own slots 22 to 38. */
  lemma GateFrontSlotted()
    ensures SlotOrdered(AgilexGateClks[..17], 22)
  {
    var first := AgilexGateClks[..17];
    forall i | 0 <= i < 17
      ensures Slot(first[i].id) == 22 + i
    {
      assert first[i] == AgilexGateClks[i];
    }
  }

  /** Gate entries 18 to 24 register the names of ranks 42 to 48. */
  lemma GateBackNames()
    ensures forall i :: 18 <= i < 25 ==> NameRank(AgilexGateClks[i].name) == 24 + i
  {
  }

  /** The parents of gate entries 18 to 21 rank below their children. */
  lemma GateBackParentsLow()
    ensures forall i, p :: 18 <= i < 22 && p in Candidates(AgilexGateClks[i]) ==> NameRank(p) < 24 + i
  {
  }

  /** The parents of gate entries 22 to 24 rank below their children. */
  lemma GateBackParentsHigh()
    ensures forall i, p :: 22 <= i < 25 && p in Candidates(AgilexGateClks[i]) ==> NameRank(p) < 24 + i
  {
  }

  /** Gate entries 18 to 24 own slots 39 to 45. */
  lemma GateBackSlots()
    ensures forall i :: 18 <= i < 25 ==> Slot(AgilexGateClks[i].id) == 21 + i
  {
  }

  /** Gate entries 18 to 24 register names of ranks 42 to 48 and own slots 39 to 45. */
  lemma GateBackOrdered()
    ensures RankOrdered(AgilexGateClks[18..], 42) && SlotOrdered(AgilexGateClks[18..], 39)
  {
    GateBackNames();
    GateBackParentsLow();
    GateBackParentsHigh();
    GateBackSlots();
    var back := AgilexGateClks[18..];
    forall i | 0 <= i < |back|
      ensures back[i] == AgilexGateClks[18 + i]
      ensures NameRank(back[i].name) == 42 + i && Slot(back[i].id) == 39 + i
      ensures forall p :: p in Candidates(back[i]) ==> NameRank(p) < 42 + i
    {
    }
  }

  /**
   * The gate table as written is ordered except at entry 17: that entry
   * takes the name "s2f_user1_clk" that entry 18 takes again, and the id
   * AGILEX_S2F_USER0_CLK that entry 10 already has.
   */
  lemma GateTableOrdered()
    ensures RankOrdered(AgilexGateClks[..18], 25) && RankOrdered(AgilexGateClks[18..], 42)
    ensures SlotOrdered(AgilexGateClks[..17], 22) && SlotOrdered(AgilexGateClks[18..], 39)
    ensures AgilexGateClks[17].id == AgilexGateClks[10].id == AGILEX_S2F_USER0_CLK
    ensures AgilexGateClks[17].name == AgilexGateClks[18].name == S2fUser1Clk
  {
    GateFrontRanked();
    GateFrontSlotted();
    GateBackOrdered();
  }

  /** The descriptors both variants register, in order: PLL, C, counter and gate tables. */
  lemma FlattenBatches(v: Variant)
    ensures Flatten(Batches(v))
         == AgilexPllClks + Batches(v)[1].descs + AgilexMainPeripCntClks + AgilexGateClks
  {
    FlattenFour(Batches(v));
  }

  /** Two descriptors with one name: the names are not fresh and the run does not resolve. */
  lemma RepeatedNameBreaksResolution(roots: seq<ClkName>, all: seq<ClockDesc>, j: nat, i: nat)
    requires j < i < |all| && all[j].name == all[i].name
    ensures !NamesFresh(roots, all) && !ResolvesFrom(roots, all)
  {
    assert all[i].name == Names(all[..i])[j];
    ResolvesFromCharacterised(roots, all);
  }

  /** In the flattened run, entries 32, 39 and 40 are gate entries 10, 17 and 18. */
  lemma AsWrittenGateEntries(v: Variant)
    ensures |Flatten(Batches(v))| == 47
    ensures Flatten(Batches(v))[32] == AgilexGateClks[10]
    ensures Flatten(Batches(v))[39] == AgilexGateClks[17]
    ensures Flatten(Batches(v))[40] == AgilexGateClks[18]
  {
    FlattenBatches(v);
    assert Flatten(Batches(v)) == Head(v) + AgilexGateClks;
    assert |Head(v)| == 22 && |AgilexGateClks| == 25;
  }

  /**
   * The duplicate entry breaks both table conventions for either variant:
   * the gate entry that registers "s2f_user1_clk" a second time reuses a
   * name, and two descriptors claim the slot of AGILEX_S2F_USER0_CLK.
   */
  lemma AsWrittenTablesDuplicate(v: Variant)
    ensures |Flatten(Batches(v))| == 47
    ensures !NamesFresh(ExternalRoots, Flatten(Batches(v)))
    ensures !ResolvesFrom(ExternalRoots, Flatten(Batches(v)))
    ensures Flatten(Batches(v))[32].id == Flatten(Batches(v))[39].id
  {
    AsWrittenGateEntries(v);
    GateTableOrdered();
    RepeatedNameBreaksResolution(ExternalRoots, Flatten(Batches(v)), 39, 40);
  }

  /**
   * Parents do resolve in the tables as written, for either variant: every
   * fixed parent and every mux candidate is an external root or the name of
   * an entry of an earlier batch or earlier in the same table.
   */
  lemma AsWrittenParentsDeclaredEarlier(v: Variant)
    ensures ParentsDeclaredEarlier(ExternalRoots, Flatten(Batches(v)))
  {
    AsWrittenLayout(v);
    KeptParentsDeclaredEarlier(v);
    assert Head(v) + AgilexGateClks
        == Head(v) + AgilexGateClks[..18] + [AgilexGateClks[18]] + AgilexGateClks[19..];
  }

  /** The same, with the run written as `Kept` and gate entry 18 put back in its place. */
  lemma KeptParentsDeclaredEarlier(v: Variant)
    ensures ParentsDeclaredEarlier(ExternalRoots,
              Head(v) + AgilexGateClks[..18] + [AgilexGateClks[18]] + AgilexGateClks[19..])
  {
    var front := Head(v) + AgilexGateClks[..18];
    var back := AgilexGateClks[19..];
    var x := AgilexGateClks[18];
    KeptRanked(v);
    RootsRanked();
    RankOrderedResolves(ExternalRoots, Kept(v));
    ResolvesFromCharacterised(ExternalRoots, Kept(v));
    assert Kept(v) == front + back;
    GateBackOrdered();
    assert AgilexGateClks[18..][0] == x;
    forall p | p in Candidates(x)
      ensures p in ExternalRoots + Names(front)
    {
      RankBelowIsDeclared(ExternalRoots, front, p);
    }
    ParentsDeclaredEarlierInsert(ExternalRoots, front, x, back);
  }

  /**
   * Under the reference constructor, running the gate table first, straight
   * from the roots, fails its first entry: mpu_clk's parents are counter and
   * PLL clocks the earlier batches register. The batch order is needed.
   */
  lemma GateBatchNeedsEarlierBatches()
    ensures Outcomes(ResolvingCtor, AgilexRegisterGate, AgilexGateClks,
                     RegState(EmptyTable(), ExternalRoots))[0] == None
    ensures !ResolvesFrom(ExternalRoots, AgilexGateClks)
  {
    assert MpuFreeClk in Candidates(AgilexGateClks[0]);
  }

  /** The PLL, C and counter tables of a variant: the batches before the gate table. */
  function Head(v: Variant): (r: seq<ClockDesc>)
    ensures |r| == 22
  {
    AgilexPllClks + Batches(v)[1].descs + AgilexMainPeripCntClks
  }

  /** The batches before the gate table register names of ranks 3 to 24 into slots 0 to 21. */
  lemma HeadOrdered(v: Variant)
    ensures RankOrdered(Head(v), 3) && SlotOrdered(Head(v), 0)
  {
    PllTableOrdered();
    CTablesOrdered();
    CntTableOrdered();
    RankOrderedAppend(AgilexPllClks, Batches(v)[1].descs, 3);
    RankOrderedAppend(AgilexPllClks + Batches(v)[1].descs, AgilexMainPeripCntClks, 3);
    SlotOrderedAppend(AgilexPllClks, Batches(v)[1].descs, 0);
    SlotOrderedAppend(AgilexPllClks + Batches(v)[1].descs, AgilexMainPeripCntClks, 0);
  }

  /** A variant's descriptors with entry 18 of the gate table taken out. */
  function Kept(v: Variant): (r: seq<ClockDesc>)
    ensures |r| == NumClks
  {
    Head(v) + AgilexGateClks[..18] + AgilexGateClks[19..]
  }

  /** Where the duplicate sits in the flattened run: entry 40 is gate entry 18, and dropping it leaves `Kept`. */
  lemma AsWrittenLayout(v: Variant)
    ensures Flatten(Batches(v)) == Head(v) + AgilexGateClks
    ensures Flatten(Batches(v))[..40] == Head(v) + AgilexGateClks[..18]
    ensures Flatten(Batches(v))[40] == AgilexGateClks[18]
    ensures Flatten(Batches(v))[..40] + Flatten(Batches(v))[41..] == Kept(v)
  {
    FlattenBatches(v);
    var all := Flatten(Batches(v));
    assert all[41..] == AgilexGateClks[19..];
    assert all[..40] == Head(v) + AgilexGateClks[..18];
  }

  /** `Kept`, and its part before the refused entry, are in rank order. */
  lemma KeptRanked(v: Variant)
    ensures RankOrdered(Kept(v), 3)
    ensures RankOrdered(Head(v) + AgilexGateClks[..18], 3)
  {
    HeadOrdered(v);
    GateFrontRanked();
    GateBackOrdered();
    var back := AgilexGateClks[19..];
    RankOrderedAppend(Head(v), AgilexGateClks[..18], 3);
    RankOrderedSlice(AgilexGateClks[18..], 42, 1, |AgilexGateClks| - 18);
    assert AgilexGateClks[18..][1..] == back;
    RankOrderedAppend(Head(v) + AgilexGateClks[..18], back, 3);
  }

  /** A run of slot-ordered entries, one entry that takes slot `k`, then slot-ordered entries again. */
  lemma SplicedSlots(front: seq<ClockDesc>, x: ClockDesc, back: seq<ClockDesc>, k: nat)
    requires SlotOrdered(front, 0) && SlotOrdered(back, |front| + 1) && Slot(x.id) == k
    ensures forall j :: 0 <= j < |front| + 1 + |back|
              ==> Slot((front + [x] + back)[j].id) == if j == |front| then k else j
  {
    var all := front + [x] + back;
    forall j | 0 <= j < |all|
      ensures Slot(all[j].id) == if j == |front| then k else j
    {
      if j < |front| {
        assert all[j] == front[j];
      } else if j > |front| {
        assert all[j] == back[j - |front| - 1];
      }
    }
  }

  /**
   * Dropping entry 18 of a gate table whose entries 0 to 16 and 18 on are
   * slot ordered, and whose entry 17 takes slot 32, leaves the slot layout
   * of `Kept`.
   */
  lemma DroppedEntrySlots(head: seq<ClockDesc>, gate: seq<ClockDesc>)
    requires |head| == 22 && |gate| == 25
    requires SlotOrdered(head, 0) && SlotOrdered(gate[..17], 22) && SlotOrdered(gate[18..], 39)
    requires Slot(gate[17].id) == 32
    ensures forall j :: 0 <= j < NumClks ==> Slot((head + gate[..18] + gate[19..])[j].id) == if j == 39 then 32 else j
  {
    var front := head + gate[..17];
    var back := gate[19..];
    SlotOrderedAppend(head, gate[..17], 0);
    SlotOrderedSlice(gate[18..], 39, 1, |gate| - 18);
    assert gate[18..][1..] == back;
    assert head + gate[..18] + gate[19..] == front + [gate[17]] + back;
    SplicedSlots(front, gate[17], back, 32);
  }

  /** Each entry of `Kept` owns its own slot except entry 39, gate entry 17, which owns slot 32. */
  lemma KeptSlots(v: Variant)
    ensures forall j :: 0 <= j < NumClks ==> Slot(Kept(v)[j].id) == if j == 39 then 32 else j
  {
    HeadOrdered(v);
    GateFrontSlotted();
    GateBackOrdered();
    GateS2fUser0Slot();
    DroppedEntrySlots(Head(v), AgilexGateClks);
  }

  /** Gate entry 17 carries the id whose slot is 32. */
  lemma GateS2fUser0Slot()
    ensures Slot(AgilexGateClks[17].id) == 32
  {
  }

  /** `Kept` is in rank order, and each of its entries owns its own slot except entry 39, which owns slot 32. */
  lemma KeptOrdered(v: Variant)
    ensures RankOrdered(Kept(v), 3)
    ensures RankOrdered(Head(v) + AgilexGateClks[..18], 3)
    ensures forall j :: 0 <= j < NumClks ==> Slot(Kept(v)[j].id) == if j == 39 then 32 else j
  {
    KeptRanked(v);
    KeptSlots(v);
  }

  /**
   * Gate entry 18, the real s2f_user1_clk, is refused: by its turn entry 17
   * has registered its name. A refused call leaves no trace, so the run is
   * the run of `Kept`.
   */
  lemma AsWrittenEntryRefused(v: Variant)
    ensures |Flatten(Batches(v))| == 47
    ensures Outcomes(ResolvingCtor, AgilexRegisterGate, Flatten(Batches(v)),
                     RegState(EmptyTable(), ExternalRoots))[40] == None
    ensures RegisterAll(ResolvingCtor, AgilexRegisterGate, Flatten(Batches(v)), RegState(EmptyTable(), ExternalRoots))
         == RegisterAll(ResolvingCtor, AgilexRegisterGate, Kept(v), RegState(EmptyTable(), ExternalRoots))
  {
    var all := Flatten(Batches(v));
    AsWrittenLayout(v);
    KeptRanked(v);
    RootsRanked();
    RankOrderedResolves(ExternalRoots, all[..40]);
    AsWrittenGateEntries(v);
    DuplicatedGateName();
    DuplicateNameRefused(AgilexRegisterGate, all, RegState(EmptyTable(), ExternalRoots), 39, 40);
  }

  /** Gate entries 17 and 18 both carry the name "s2f_user1_clk". */
  lemma DuplicatedGateName()
    ensures AgilexGateClks[17].name == AgilexGateClks[18].name == S2fUser1Clk
  {
  }

  /**
   * A resolving run of 46 descriptors in which entry 39 takes the slot of
   * entry 32 and every other entry owns its own slot: slot 39 stays empty,
   * slot 32 holds entry 39's handle, and every other slot its own entry's.
   */
  lemma ShiftedSlotRun(c: Constructor, kept: seq<ClockDesc>, st: RegState)
    requires st == RegState(EmptyTable(), ExternalRoots) && |kept| == NumClks
    requires ResolvesFrom(st.known, kept)
    requires forall j :: 0 <= j < NumClks ==> Slot(kept[j].id) == if j == 39 then 32 else j
    ensures RegisterAll(ResolvingCtor, c, kept, st).table[39] == None
    ensures RegisterAll(ResolvingCtor, c, kept, st).table[32] == Some(MakeHandle(kept[39]))
    ensures forall k :: 0 <= k < NumClks && k != 39 && k != 32
              ==> RegisterAll(ResolvingCtor, c, kept, st).table[k] == Some(MakeHandle(kept[k]))
  {
    var r := RegisterAll(ResolvingCtor, c, kept, st);
    assert r.table[39] == None by {
      forall j | 0 <= j < |kept|
        ensures Slot(kept[j].id) != 39
      {
      }
      ResolvingRunUntouched(c, kept, st, 39);
    }
    forall k | 0 <= k < NumClks && k != 39
      ensures r.table[k] == Some(MakeHandle(kept[if k == 32 then 39 else k]))
    {
      var j := if k == 32 then 39 else k;
      forall i | j < i < |kept|
        ensures kept[i].id != kept[j].id
      {
      }
      ResolvingRunLastHandle(c, kept, st, j);
    }
  }

  /** The handle gate entry 17 obtains: named "s2f_user1_clk", fed by s2f_user0_mux, no flags. */
  lemma DuplicateEntryHandle()
    ensures MakeHandle(AgilexGateClks[17]) == Handle(S2fUser1Clk, S2fUser0Mux, 0)
  {
  }

  /** Where the two ids sit in the id-indexed table. */
  lemma S2fUserSlotNumbers()
    ensures Slot(AGILEX_S2F_USER0_CLK) == 32 && Slot(AGILEX_S2F_USER1_CLK) == 39
  {
  }

  /**
   * The run of `Kept` from the roots: slot 39 stays empty, slot 32 holds gate
   * entry 17's handle, and every other slot holds the handle of the entry of
   * `Kept` that owns it.
   */
  lemma KeptRun(v: Variant)
    ensures RegisterAll(ResolvingCtor, AgilexRegisterGate, Kept(v), RegState(EmptyTable(), ExternalRoots)).table[39]
         == None
    ensures RegisterAll(ResolvingCtor, AgilexRegisterGate, Kept(v), RegState(EmptyTable(), ExternalRoots)).table[32]
         == Some(MakeHandle(AgilexGateClks[17]))
    ensures forall k :: 0 <= k < NumClks && k != 39 ==>
              RegisterAll(ResolvingCtor, AgilexRegisterGate, Kept(v), RegState(EmptyTable(), ExternalRoots)).table[k].Some?
    ensures forall k :: 0 <= k < NumClks && k != 39 && k != 32 ==>
              RegisterAll(ResolvingCtor, AgilexRegisterGate, Kept(v), RegState(EmptyTable(), ExternalRoots)).table[k]
              == Some(MakeHandle(Kept(v)[k])) && Slot(Kept(v)[k].id) == k
  {
    KeptOrdered(v);
    RankOrderedResolves(ExternalRoots, Kept(v));
    ShiftedSlotRun(AgilexRegisterGate, Kept(v), RegState(EmptyTable(), ExternalRoots));
    assert Kept(v)[39] == AgilexGateClks[17];
  }

  /** A variant's init, under the reference constructor, leaves the state of the run of `Kept`. */
  lemma AsWrittenRunIsKeptRun(v: Variant)
    ensures VariantResult(v, ResolvingCtor, ExternalRoots)
         == RegisterAll(ResolvingCtor, AgilexRegisterGate, Kept(v), RegState(EmptyTable(), ExternalRoots))
  {
    RunBatchesFlat(Batches(v), RegState(EmptyTable(), ExternalRoots), AgilexRegisterGate);
    AsWrittenEntryRefused(v);
  }

  /**
   * The effect of the duplicate under the reference constructor: entry 17
   * registers "s2f_user1_clk" into the slot of AGILEX_S2F_USER0_CLK,
   * overwriting s2f_user0_clk; entry 18, the real s2f_user1_clk, is then
   * refused for its taken name, so the slot of AGILEX_S2F_USER1_CLK stays
   * empty. Every other id's slot holds the handle of its own entry.
   */
  lemma AsWrittenS2fUserSlots(v: Variant)
    ensures VariantResult(v, ResolvingCtor, ExternalRoots).table[Slot(AGILEX_S2F_USER1_CLK)] == None
    ensures VariantResult(v, ResolvingCtor, ExternalRoots).table[Slot(AGILEX_S2F_USER0_CLK)]
         == Some(Handle(S2fUser1Clk, S2fUser0Mux, 0))
    ensures forall k :: 0 <= k < NumClks && k != Slot(AGILEX_S2F_USER1_CLK)
              ==> VariantResult(v, ResolvingCtor, ExternalRoots).table[k].Some?
    ensures forall k :: 0 <= k < NumClks && k != Slot(AGILEX_S2F_USER0_CLK) && k != Slot(AGILEX_S2F_USER1_CLK)
              ==> VariantResult(v, ResolvingCtor, ExternalRoots).table[k] == Some(MakeHandle(Kept(v)[k]))
                  && Slot(Kept(v)[k].id) == k
  {
    AsWrittenRunIsKeptRun(v);
    KeptRun(v);
    DuplicateEntryHandle();
    S2fUserSlotNumbers();
  }

  /**
   * s2f_user0_clk as the two entries of AGILEX_S2F_USER0_CLK describe it
   * together: gate bit 6 of register 0x24, bypass bit 2 of register 0x30,
   * fed by s2f_user0_mux, the mux of its own free-running counter.
   */
  const MergedS2fUser0Clk: ClockDesc :=
    GateClock(AGILEX_S2F_USER0_CLK, S2fUser0Clk, None, Some(S2fUser0Mux), |S2fUser0Mux|, 0, 0x24,
              6, 0, 0, 0, 0x30, 2, 0)

  /** The gate table with one entry per id: entry 10 becomes the merged entry and entry 17 is dropped. */
  const CorrectedGateClks: seq<ClockDesc> :=
    AgilexGateClks[..10] + [MergedS2fUser0Clk] + AgilexGateClks[11..17] + AgilexGateClks[18..]

  /** A variant's batches with the corrected gate table. */
  function CorrectedBatches(v: Variant): (r: seq<Batch>)
    ensures |r| == 4 && r[..3] == Batches(v)[..3] && r[3].ctor == Batches(v)[3].ctor
    ensures r[3].descs == CorrectedGateClks
  {
    Batches(v)[3 := Batch(AgilexRegisterGate, CorrectedGateClks)]
  }

  /** The corrected gate table keeps the parent-field convention. */
  lemma CorrectedGateParentFieldsConsistent()
    ensures forall d :: d in CorrectedGateClks ==> ParentFieldsConsistent(d)
  {
    TablesParentFieldsConsistent();
    forall d | d in CorrectedGateClks
      ensures ParentFieldsConsistent(d)
    {
      if d != MergedS2fUser0Clk {
        assert d in AgilexGateClks;
      }
    }
  }

  /**
   * Replacing entry 10 of a gate table by an entry of the same rank and
   * slot, and dropping entry 17, leaves a table in rank and slot order when
   * the rest of the table is.
   */
  lemma MergedGateOrdered(gate: seq<ClockDesc>, m: ClockDesc)
    requires |gate| == 25
    requires RankOrdered(gate[..18], 25) && SlotOrdered(gate[..17], 22)
    requires RankOrdered(gate[18..], 42) && SlotOrdered(gate[18..], 39)
    requires RankOrdered([m], 35) && SlotOrdered([m], 32)
    ensures RankOrdered(gate[..10] + [m] + gate[11..17] + gate[18..], 25)
    ensures SlotOrdered(gate[..10] + [m] + gate[11..17] + gate[18..], 22)
  {
    var a := gate[..10];
    var b := gate[11..17];
    var c := gate[18..];
    RankOrderedSlice(gate[..18], 25, 0, 10);
    assert gate[..18][0..10] == a;
    RankOrderedSlice(gate[..18], 25, 11, 17);
    assert gate[..18][11..17] == b;
    SlotOrderedSlice(gate[..17], 22, 0, 10);
    assert gate[..17][0..10] == a;
    SlotOrderedSlice(gate[..17], 22, 11, 17);
    assert gate[..17][11..17] == b;
    RankOrderedAppend(a, [m], 25);
    RankOrderedAppend(a + [m], b, 25);
    RankOrderedAppend(a + [m] + b, c, 25);
    SlotOrderedAppend(a, [m], 22);
    SlotOrderedAppend(a + [m], b, 22);
    SlotOrderedAppend(a + [m] + b, c, 22);
  }

  /** The merged entry takes rank 35, after its parents, and slot 32: the place of gate entry 10. */
  lemma MergedEntryOrdered()
    ensures RankOrdered([MergedS2fUser0Clk], 35) && SlotOrdered([MergedS2fUser0Clk], 32)
  {
    var m := MergedS2fUser0Clk;
    assert Candidates(m) == [S2fUser0FreeClk, BootClk];
    assert NameRank(m.name) == 35 && Slot(m.id) == 32;
    assert NameRank(S2fUser0FreeClk) < 35 && NameRank(BootClk) < 35;
    SingleEntryOrdered(m, 35, 32);
  }

  /** One entry of the given rank and slot, whose parents rank lower, is a table in rank and slot order. */
  lemma SingleEntryOrdered(d: ClockDesc, rank: nat, slot: nat)
    requires NameRank(d.name) == rank && Slot(d.id) == slot
    requires forall p :: p in Candidates(d) ==> NameRank(p) < rank
    ensures RankOrdered([d], rank) && SlotOrdered([d], slot)
  {
  }

  /** The corrected gate table registers names of ranks 25 to 48 into slots 22 to 45. */
  lemma CorrectedGateOrdered()
    ensures |CorrectedGateClks| == 24
    ensures RankOrdered(CorrectedGateClks, 25) && SlotOrdered(CorrectedGateClks, 22)
  {
    GateFrontRanked();
    GateFrontSlotted();
    GateBackOrdered();
    MergedEntryOrdered();
    MergedGateOrdered(AgilexGateClks, MergedS2fUser0Clk);
  }

  /** The descriptors a variant registers with the corrected gate table. */
  lemma CorrectedFlatten(v: Variant)
    ensures Flatten(CorrectedBatches(v)) == Head(v) + CorrectedGateClks
  {
    var b := CorrectedBatches(v);
    assert b[0] == Batches(v)[0] && b[1] == Batches(v)[1] && b[2] == Batches(v)[2];
    FlattenFour(b);
  }

  /** With the corrected gate table a variant registers one descriptor per slot, in slot and rank order. */
  lemma CorrectedLayout(v: Variant)
    ensures |Flatten(CorrectedBatches(v))| == NumClks
    ensures RankOrdered(Flatten(CorrectedBatches(v)), 3) && SlotOrdered(Flatten(CorrectedBatches(v)), 0)
  {
    CorrectedFlatten(v);
    HeadOrdered(v);
    CorrectedGateOrdered();
    RankOrderedAppend(Head(v), CorrectedGateClks, 3);
    SlotOrderedAppend(Head(v), CorrectedGateClks, 0);
  }

  /**
   * With the corrected gate table both variants' tables are well formed:
   * every parent is a root or registered earlier, no name is used twice,
   * descriptor i owns slot i, and every entry keeps the parent-field
   * convention.
   */
  lemma CorrectedTablesWellFormed(v: Variant)
    ensures ParentsDeclaredEarlier(ExternalRoots, Flatten(CorrectedBatches(v)))
    ensures NamesFresh(ExternalRoots, Flatten(CorrectedBatches(v)))
    ensures forall i :: 0 <= i < |Flatten(CorrectedBatches(v))| ==> Slot(Flatten(CorrectedBatches(v))[i].id) == i
    ensures forall d :: d in Flatten(CorrectedBatches(v)) ==> ParentFieldsConsistent(d)
  {
    var f := Flatten(CorrectedBatches(v));
    CorrectedFlatten(v);
    CorrectedLayout(v);
    RankOrderedResolves(ExternalRoots, f);
    ResolvesFromCharacterised(ExternalRoots, f);
    TablesParentFieldsConsistent();
    CorrectedGateParentFieldsConsistent();
    forall d | d in f
      ensures ParentFieldsConsistent(d)
    {
      assert d in AgilexPllClks || d in Batches(v)[1].descs || d in AgilexMainPeripCntClks || d in CorrectedGateClks;
    }
  }

  /**
   * With the corrected gate table a variant's init registers every clock:
   * slot i holds the handle of the descriptor that owns it, and the
   * framework ends up knowing the roots followed by every descriptor's name.
   */
  lemma CorrectedRegistersEveryClock(v: Variant)
    ensures |Flatten(CorrectedBatches(v))| == NumClks
    ensures forall i :: 0 <= i < NumClks ==>
              RunBatches(ResolvingCtor, CorrectedBatches(v), RegState(EmptyTable(), ExternalRoots)).table[i]
              == Some(MakeHandle(Flatten(CorrectedBatches(v))[i]))
    ensures RunBatches(ResolvingCtor, CorrectedBatches(v), RegState(EmptyTable(), ExternalRoots)).known
         == ExternalRoots + Names(Flatten(CorrectedBatches(v)))
  {
    CorrectedLayout(v);
    RootsRanked();
    OrderedBatchesFillTable(CorrectedBatches(v), RegState(EmptyTable(), ExternalRoots));
  }

  /** With the corrected table, s2f_user0_clk and s2f_user1_clk each hold their own slot. */
  lemma CorrectedS2fUserSlots(v: Variant)
    ensures RunBatches(ResolvingCtor, CorrectedBatches(v), RegState(EmptyTable(), ExternalRoots))
              .table[Slot(AGILEX_S2F_USER0_CLK)] == Some(Handle(S2fUser0Clk, S2fUser0Mux, 0))
    ensures RunBatches(ResolvingCtor, CorrectedBatches(v), RegState(EmptyTable(), ExternalRoots))
              .table[Slot(AGILEX_S2F_USER1_CLK)] == Some(Handle(S2fUser1Clk, S2fUser1Mux, 0))
  {
    CorrectedRegistersEveryClock(v);
    CorrectedFlatten(v);
    S2fUserSlotNumbers();
    CorrectedS2fUserEntries(v);
  }

  /** Entries 32 and 39 of the corrected run are s2f_user0_clk and s2f_user1_clk. */
  lemma CorrectedS2fUserEntries(v: Variant)
    requires Flatten(CorrectedBatches(v)) == Head(v) + CorrectedGateClks
    ensures MakeHandle(Flatten(CorrectedBatches(v))[32]) == Handle(S2fUser0Clk, S2fUser0Mux, 0)
    ensures MakeHandle(Flatten(CorrectedBatches(v))[39]) == Handle(S2fUser1Clk, S2fUser1Mux, 0)
  {
    assert CorrectedGateClks[10] == MergedS2fUser0Clk;
    assert CorrectedGateClks[17] == AgilexGateClks[18];
  }
}
