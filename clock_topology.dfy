/**
 * The clock tree the registration loops build, under a reference model of
 * the constructors: the clock framework refuses a clock whose name is
 * already registered (-EEXIST) and, in this model, one whose declared
 * parents are not all registered yet. Under that constructor the outcome of
 * a whole run depends only on the order of the descriptors, which is what
 * the driver's tables are written to get right.
 */
module ClockTopology {
  import opened Wrappers
  import opened ClockIds
  import opened ClockDescs
  import opened Registration
  import opened ClkMgr

  /** The handle the reference constructor returns for a descriptor. */
  function MakeHandle(d: ClockDesc): Handle
  {
    Handle(d.name, Candidates(d), d.flags)
  }

  /** The framework accepts `d` when its name is new and every parent it declares is registered. */
  predicate CanRegister(known: seq<ClkName>, d: ClockDesc)
  {
    d.name !in known && forall p :: p in Candidates(d) ==> p in known
  }

  /** The reference constructor: the same for every descriptor kind. */
  function ResolvingCtor(c: Constructor, d: ClockDesc, known: seq<ClkName>): Option<Handle>
  {
    if CanRegister(known, d) then Some(MakeHandle(d)) else None
  }

  /** The names of a run of descriptors, in order. */
  function Names(descs: seq<ClockDesc>): (r: seq<ClkName>)
    ensures |r| == |descs| && forall i :: 0 <= i < |descs| ==> r[i] == descs[i].name
  {
    seq(|descs|, i requires 0 <= i < |descs| => descs[i].name)
  }

  /** Every descriptor, registered in order starting from `known`, is accepted. */
  predicate ResolvesFrom(known: seq<ClkName>, descs: seq<ClockDesc>)
    decreases |descs|
  {
    descs == [] || (CanRegister(known, descs[0]) && ResolvesFrom(known + [descs[0].name], descs[1..]))
  }

  /** Every declared parent is a root or the name of an earlier descriptor. */
  predicate ParentsDeclaredEarlier(roots: seq<ClkName>, descs: seq<ClockDesc>)
  {
    forall i, p :: 0 <= i < |descs| && p in Candidates(descs[i]) ==> p in roots + Names(descs[..i])
  }

  /** No descriptor reuses a root's name or an earlier descriptor's name. */
  predicate NamesFresh(roots: seq<ClkName>, descs: seq<ClockDesc>)
  {
    forall i :: 0 <= i < |descs| ==> descs[i].name !in roots + Names(descs[..i])
  }

  /**
   * A run resolves exactly when the tables are well ordered: parents come
   * before children, and no name is used twice.
   */
  lemma {:induction false} ResolvesFromCharacterised(known: seq<ClkName>, descs: seq<ClockDesc>)
    ensures ResolvesFrom(known, descs) <==> ParentsDeclaredEarlier(known, descs) && NamesFresh(known, descs)
    decreases |descs|
  {
    if descs != [] {
      var known' := known + [descs[0].name];
      var rest := descs[1..];
      ResolvesFromCharacterised(known', rest);
      forall i | 0 <= i < |rest|
        ensures known' + Names(rest[..i]) == known + Names(descs[..i + 1])
        ensures rest[i] == descs[i + 1]
      {
        assert Names(descs[..i + 1]) == [descs[0].name] + Names(rest[..i]);
      }
      assert known + Names(descs[..0]) == known;
      if ParentsDeclaredEarlier(known, descs) && NamesFresh(known, descs) {
        assert CanRegister(known, descs[0]);
        forall i, p | 0 <= i < |rest| && p in Candidates(rest[i])
          ensures p in known' + Names(rest[..i])
        {
          assert p in known + Names(descs[..i + 1]);
        }
        forall i | 0 <= i < |rest|
          ensures rest[i].name !in known' + Names(rest[..i])
        {
          assert descs[i + 1].name !in known + Names(descs[..i + 1]);
        }
      }
      if ResolvesFrom(known, descs) {
        forall i, p | 0 <= i < |descs| && p in Candidates(descs[i])
          ensures p in known + Names(descs[..i])
        {
          if i > 0 {
            assert p in known' + Names(rest[..i - 1]);
          }
        }
        forall i | 0 <= i < |descs|
          ensures descs[i].name !in known + Names(descs[..i])
        {
          if i > 0 {
            assert rest[i - 1].name !in known' + Names(rest[..i - 1]);
          }
        }
      }
    }
  }

  /** Every constructor call of a run returned a handle. */
  predicate AllSucceed(outs: seq<Option<Handle>>)
  {
    forall i :: 0 <= i < |outs| ==> outs[i].Some?
  }

  /** A run's calls all succeed exactly when its first call and all later calls succeed. */
  lemma AllSucceedCons(x: Option<Handle>, rest: seq<Option<Handle>>)
    ensures AllSucceed([x] + rest) <==> x.Some? && AllSucceed(rest)
  {
    var outs := [x] + rest;
    assert outs[0] == x;
    if x.Some? && AllSucceed(rest) {
      forall i | 0 < i < |outs|
        ensures outs[i].Some?
      {
        assert outs[i] == rest[i - 1];
      }
    }
    if AllSucceed(outs) {
      forall i | 0 <= i < |rest|
        ensures rest[i].Some?
      {
        assert outs[i + 1] == rest[i];
      }
    }
  }

  /** Under the reference constructor every successful call returns the descriptor's own handle. */
  lemma {:induction false} ResolvingOutcomeHandles(ctor: Constructor, descs: seq<ClockDesc>, st: RegState)
    requires |st.table| == NumClks
    ensures forall i :: 0 <= i < |descs| && Outcomes(ResolvingCtor, ctor, descs, st)[i].Some?
              ==> Outcomes(ResolvingCtor, ctor, descs, st)[i] == Some(MakeHandle(descs[i]))
    decreases |descs|
  {
    if descs != [] {
      var st' := Attempt(ResolvingCtor, ctor, descs[0], st);
      ResolvingOutcomeHandles(ctor, descs[1..], st');
      var outs := Outcomes(ResolvingCtor, ctor, descs, st);
      var rest := Outcomes(ResolvingCtor, ctor, descs[1..], st');
      assert outs == [ResolvingCtor(ctor, descs[0], st.known)] + rest;
      forall i | 1 <= i < |descs|
        ensures outs[i] == rest[i - 1] && descs[i] == descs[1..][i - 1]
      {
      }
    }
  }

  /** Under the reference constructor a run succeeds for every descriptor exactly when it resolves. */
  lemma {:induction false} ResolvesIffAllRegister(ctor: Constructor, descs: seq<ClockDesc>, st: RegState)
    requires |st.table| == NumClks
    ensures ResolvesFrom(st.known, descs) <==> AllSucceed(Outcomes(ResolvingCtor, ctor, descs, st))
    decreases |descs|
  {
    if descs != [] {
      var x := ResolvingCtor(ctor, descs[0], st.known);
      var st' := Attempt(ResolvingCtor, ctor, descs[0], st);
      var rest := Outcomes(ResolvingCtor, ctor, descs[1..], st');
      assert Outcomes(ResolvingCtor, ctor, descs, st) == [x] + rest;
      AllSucceedCons(x, rest);
      if CanRegister(st.known, descs[0]) {
        assert st'.known == st.known + [descs[0].name];
        ResolvesIffAllRegister(ctor, descs[1..], st');
      }
    }
  }

  /** A resolving run registers the descriptors' names, in order, after the names known before it. */
  lemma {:induction false} ResolvingRunKnown(ctor: Constructor, descs: seq<ClockDesc>, st: RegState)
    requires |st.table| == NumClks && ResolvesFrom(st.known, descs)
    ensures RegisterAll(ResolvingCtor, ctor, descs, st).known == st.known + Names(descs)
    decreases |descs|
  {
    if descs != [] {
      var st' := Attempt(ResolvingCtor, ctor, descs[0], st);
      assert st'.known == st.known + [descs[0].name];
      ResolvingRunKnown(ctor, descs[1..], st');
      assert Names(descs) == [descs[0].name] + Names(descs[1..]);
      assert st'.known + Names(descs[1..]) == st.known + Names(descs);
    }
  }

  /** The descriptors' names occupy ranks `base`, `base + 1`, ... and each parent has a lower rank than its child. */
  predicate RankOrdered(descs: seq<ClockDesc>, base: nat)
  {
    forall i :: 0 <= i < |descs| ==>
      NameRank(descs[i].name) == base + i && forall p :: p in Candidates(descs[i]) ==> NameRank(p) < base + i
  }

  /** The registered names are exactly the names of ranks 0, 1, ..., in order. */
  predicate RanksInOrder(names: seq<ClkName>)
  {
    forall i :: 0 <= i < |names| ==> NameRank(names[i]) == i
  }

  /**
   * Rank order is enough: when the names known so far are the lowest ranks
   * and the descriptors continue that order with parents of lower rank, the
   * run resolves.
   */
  lemma {:induction false} RankOrderedResolves(known: seq<ClkName>, descs: seq<ClockDesc>)
    requires RanksInOrder(known) && RankOrdered(descs, |known|)
    ensures ResolvesFrom(known, descs)
    decreases |descs|
  {
    if descs != [] {
      var d := descs[0];
      forall p | p in Candidates(d)
        ensures p in known
      {
        NameRankInjective(p, known[NameRank(p)]);
      }
      var known' := known + [d.name];
      forall i | 0 <= i < |descs| - 1
        ensures descs[1..][i] == descs[i + 1]
      {
      }
      RankOrderedResolves(known', descs[1..]);
    }
  }

  /** Rank order of two runs joins into rank order of their concatenation. */
  lemma RankOrderedAppend(a: seq<ClockDesc>, b: seq<ClockDesc>, base: nat)
    requires RankOrdered(a, base) && RankOrdered(b, base + |a|)
    ensures RankOrdered(a + b, base)
  {
    forall i | |a| <= i < |a + b|
      ensures (a + b)[i] == b[i - |a|]
    {
    }
  }

  /** A slice of a rank-ordered run is rank ordered from its own start. */
  lemma RankOrderedSlice(a: seq<ClockDesc>, base: nat, lo: nat, hi: nat)
    requires RankOrdered(a, base) && lo <= hi <= |a|
    ensures RankOrdered(a[lo..hi], base + lo)
  {
    forall i | 0 <= i < hi - lo
      ensures a[lo..hi][i] == a[lo + i]
    {
    }
  }

  /** In rank order every rank below the end of a run is a root's or an entry's name. */
  lemma RankBelowIsDeclared(roots: seq<ClkName>, descs: seq<ClockDesc>, p: ClkName)
    requires RanksInOrder(roots) && RankOrdered(descs, |roots|)
    requires NameRank(p) < |roots| + |descs|
    ensures p in roots + Names(descs)
  {
    var r := NameRank(p);
    if r < |roots| {
      NameRankInjective(p, roots[r]);
      assert (roots + Names(descs))[r] == roots[r];
    } else {
      NameRankInjective(p, descs[r - |roots|].name);
      assert (roots + Names(descs))[r] == descs[r - |roots|].name;
    }
  }

  /**
   * Inserting a descriptor whose parents are declared before it keeps every
   * parent declared earlier: the entries after it only gain a name before them.
   */
  lemma ParentsDeclaredEarlierInsert(roots: seq<ClkName>, a: seq<ClockDesc>, x: ClockDesc, b: seq<ClockDesc>)
    requires ParentsDeclaredEarlier(roots, a + b)
    requires forall p :: p in Candidates(x) ==> p in roots + Names(a)
    ensures ParentsDeclaredEarlier(roots, a + [x] + b)
  {
    var ab := a + b;
    var all := a + [x] + b;
    forall i, p | 0 <= i < |all| && p in Candidates(all[i])
      ensures p in roots + Names(all[..i])
    {
      if i < |a| {
        assert all[i] == ab[i] && all[..i] == ab[..i];
      } else if i == |a| {
        assert all[..i] == a;
      } else {
        assert all[i] == ab[i - 1];
        assert p in roots + Names(ab[..i - 1]);
        var k :| 0 <= k < |roots + Names(ab[..i - 1])| && (roots + Names(ab[..i - 1]))[k] == p;
        if k < |roots| {
          assert (roots + Names(all[..i]))[k] == p;
        } else if k - |roots| < |a| {
          assert (roots + Names(all[..i]))[k] == p;
        } else {
          assert (roots + Names(all[..i]))[k + 1] == p;
        }
      }
    }
  }

  /** The descriptors' ids own slots `base`, `base + 1`, ...: no two share an id. */
  predicate SlotOrdered(descs: seq<ClockDesc>, base: nat)
  {
    forall i :: 0 <= i < |descs| ==> Slot(descs[i].id) == base + i
  }

  /** Slot order of two runs joins into slot order of their concatenation. */
  lemma SlotOrderedAppend(a: seq<ClockDesc>, b: seq<ClockDesc>, base: nat)
    requires SlotOrdered(a, base) && SlotOrdered(b, base + |a|)
    ensures SlotOrdered(a + b, base)
  {
    forall i | |a| <= i < |a + b|
      ensures (a + b)[i] == b[i - |a|]
    {
    }
  }

  /** A slice of a slot-ordered run is slot ordered from its own start. */
  lemma SlotOrderedSlice(a: seq<ClockDesc>, base: nat, lo: nat, hi: nat)
    requires SlotOrdered(a, base) && lo <= hi <= |a|
    ensures SlotOrdered(a[lo..hi], base + lo)
  {
    forall i | 0 <= i < hi - lo
      ensures a[lo..hi][i] == a[lo + i]
    {
    }
  }

  /**
   * A resolving run whose descriptor i has id slot i fills slot i with
   * descriptor i's handle and leaves every later slot as it was.
   */
  lemma FullRunFillsSlots(ctor: Constructor, descs: seq<ClockDesc>, st: RegState)
    requires |st.table| == NumClks && |descs| <= NumClks
    requires ResolvesFrom(st.known, descs) && SlotOrdered(descs, 0)
    ensures forall i :: 0 <= i < |descs|
              ==> RegisterAll(ResolvingCtor, ctor, descs, st).table[i] == Some(MakeHandle(descs[i]))
    ensures forall k :: |descs| <= k < NumClks
              ==> RegisterAll(ResolvingCtor, ctor, descs, st).table[k] == st.table[k]
  {
    ResolvesIffAllRegister(ctor, descs, st);
    ResolvingOutcomeHandles(ctor, descs, st);
    forall i | 0 <= i < |descs|
      ensures RegisterAll(ResolvingCtor, ctor, descs, st).table[i] == Some(MakeHandle(descs[i]))
    {
      LastSuccessWins(ResolvingCtor, ctor, descs, st, i, MakeHandle(descs[i]));
    }
    forall k | |descs| <= k < NumClks
      ensures RegisterAll(ResolvingCtor, ctor, descs, st).table[k] == st.table[k]
    {
      UntouchedSlot(ResolvingCtor, ctor, descs, st, k);
    }
  }

  /**
   * A name registered a second time is refused, as the clock framework
   * refuses a duplicate name with -EEXIST, and the refused call leaves no
   * trace: the run is the run without that descriptor.
   */
  lemma DuplicateNameRefused(ctor: Constructor, descs: seq<ClockDesc>, st: RegState, j: nat, i: nat)
    requires |st.table| == NumClks && j < i < |descs|
    requires ResolvesFrom(st.known, descs[..i]) && descs[j].name == descs[i].name
    ensures Outcomes(ResolvingCtor, ctor, descs, st)[i] == None
    ensures RegisterAll(ResolvingCtor, ctor, descs, st)
         == RegisterAll(ResolvingCtor, ctor, descs[..i] + descs[i + 1..], st)
  {
    ResolvingRunKnown(ctor, descs[..i], st);
    assert Names(descs[..i])[j] == descs[i].name;
    assert descs[i].name in RegisterAll(ResolvingCtor, ctor, descs[..i], st).known;
    OutcomeAt(ResolvingCtor, ctor, descs, st, i);
    FailedAttemptIsInvisible(ResolvingCtor, ctor, descs, st, i);
  }

  /** In a resolving run the slot of an id holds the handle of the last descriptor with that id. */
  lemma ResolvingRunLastHandle(ctor: Constructor, descs: seq<ClockDesc>, st: RegState, j: nat)
    requires |st.table| == NumClks && ResolvesFrom(st.known, descs) && j < |descs|
    requires forall i :: j < i < |descs| ==> descs[i].id != descs[j].id
    ensures RegisterAll(ResolvingCtor, ctor, descs, st).table[Slot(descs[j].id)] == Some(MakeHandle(descs[j]))
  {
    var outs := Outcomes(ResolvingCtor, ctor, descs, st);
    ResolvesIffAllRegister(ctor, descs, st);
    ResolvingOutcomeHandles(ctor, descs, st);
    assert outs[j].Some?;
    LastSuccessWins(ResolvingCtor, ctor, descs, st, j, MakeHandle(descs[j]));
  }

  /** In a resolving run a slot no descriptor's id owns keeps its old contents. */
  lemma ResolvingRunUntouched(ctor: Constructor, descs: seq<ClockDesc>, st: RegState, k: nat)
    requires |st.table| == NumClks && ResolvesFrom(st.known, descs) && k < NumClks
    requires forall j :: 0 <= j < |descs| ==> Slot(descs[j].id) != k
    ensures RegisterAll(ResolvingCtor, ctor, descs, st).table[k] == st.table[k]
  {
    UntouchedSlot(ResolvingCtor, ctor, descs, st, k);
  }

  /**
   * A table in rank and slot order, registered after names that hold the
   * lowest ranks, fills every slot with its own descriptor's handle.
   */
  lemma OrderedRunFillsTable(ctor: Constructor, descs: seq<ClockDesc>, st: RegState)
    requires |st.table| == NumClks && |descs| == NumClks
    requires RanksInOrder(st.known) && RankOrdered(descs, |st.known|) && SlotOrdered(descs, 0)
    ensures forall i :: 0 <= i < NumClks ==>
              RegisterAll(ResolvingCtor, ctor, descs, st).table[i] == Some(MakeHandle(descs[i]))
    ensures RegisterAll(ResolvingCtor, ctor, descs, st).known == st.known + Names(descs)
  {
    RankOrderedResolves(st.known, descs);
    ResolvingRunKnown(ctor, descs, st);
    FullRunFillsSlots(ctor, descs, st);
  }

  /** The reference constructor ignores the descriptor kind, so the constructor a loop uses does not matter. */
  lemma {:induction false} KindIrrelevant(c1: Constructor, c2: Constructor, descs: seq<ClockDesc>, st: RegState)
    requires |st.table| == NumClks
    ensures RegisterAll(ResolvingCtor, c1, descs, st) == RegisterAll(ResolvingCtor, c2, descs, st)
    ensures Outcomes(ResolvingCtor, c1, descs, st) == Outcomes(ResolvingCtor, c2, descs, st)
    decreases |descs|
  {
    if descs != [] {
      KindIrrelevant(c1, c2, descs[1..], Attempt(ResolvingCtor, c1, descs[0], st));
    }
  }

  /** All the descriptors of a sequence of batches, in the order they are attempted. */
  function Flatten(batches: seq<Batch>): seq<ClockDesc>
    decreases |batches|
  {
    if batches == [] then [] else batches[0].descs + Flatten(batches[1..])
  }

  /** Four batches flatten to their four tables, one after another. */
  lemma FlattenFour(b: seq<Batch>)
    requires |b| == 4
    ensures Flatten(b) == b[0].descs + b[1].descs + b[2].descs + b[3].descs
  {
    assert b[3..][1..] == b[4..] && Flatten(b[4..]) == [];
    assert Flatten(b[3..]) == b[3].descs;
    assert b[2..][1..] == b[3..];
    assert Flatten(b[2..]) == b[2].descs + b[3].descs;
    assert b[1..][1..] == b[2..];
    assert Flatten(b[1..]) == b[1].descs + b[2].descs + b[3].descs;
  }

  /** Under the reference constructor, running batches one by one is one loop over all their descriptors. */
  lemma {:induction false} RunBatchesFlat(batches: seq<Batch>, st: RegState, c: Constructor)
    requires |st.table| == NumClks
    ensures RunBatches(ResolvingCtor, batches, st) == RegisterAll(ResolvingCtor, c, Flatten(batches), st)
    decreases |batches|
  {
    if batches != [] {
      var b := batches[0];
      KindIrrelevant(b.ctor, c, b.descs, st);
      RegisterAllAppend(ResolvingCtor, c, b.descs, Flatten(batches[1..]), st);
      RunBatchesFlat(batches[1..], RegisterAll(ResolvingCtor, b.ctor, b.descs, st), c);
    }
  }

  /**
   * Batches whose descriptors, taken together, are in rank and slot order
   * fill every slot with its own descriptor's handle under the reference
   * constructor, whatever constructor each batch names.
   */
  lemma OrderedBatchesFillTable(batches: seq<Batch>, st: RegState)
    requires |st.table| == NumClks && |Flatten(batches)| == NumClks
    requires RanksInOrder(st.known) && RankOrdered(Flatten(batches), |st.known|) && SlotOrdered(Flatten(batches), 0)
    ensures forall i :: 0 <= i < NumClks ==>
              RunBatches(ResolvingCtor, batches, st).table[i] == Some(MakeHandle(Flatten(batches)[i]))
    ensures RunBatches(ResolvingCtor, batches, st).known == st.known + Names(Flatten(batches))
  {
    RunBatchesFlat(batches, st, AgilexRegisterGate);
    OrderedRunFillsTable(AgilexRegisterGate, Flatten(batches), st);
  }
}
