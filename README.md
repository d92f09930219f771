# Agilex / eASIC N5X clock manager: clock-table registration

This project models the core of the Linux clock driver for the Intel Agilex and
eASIC N5X clock manager, `drivers/clk/socfpga/clk-agilex.c`, and proves
properties of the model.

The driver holds five constant descriptor tables:
- the PLLs;
- two tables of fixed-parent "C" dividers, one per variant;
- the counter peripherals;
- the gated clocks.

At probe time it does four things:
1. It looks up the device's compatible string in a match table to pick the
   variant (Agilex or N5X).
2. It maps the registers, allocates the clock data and a zeroed, id-indexed
   table of `AGILEX_NUM_CLKS` slots, and publishes that table as the clock
   provider.
3. It runs four registration loops, in the order PLL, C divider, counter,
   gate.
4. Each loop walks its table in order and calls a per-kind constructor. On
   success it stores the returned clock at the descriptor's id. On failure it
   logs and moves on. Every loop returns 0.

The model has seven files:
- `clock_ids.dfy` (`ClockIds`): the ids and their table slots; the clock names
  as interned string literals, with their spelling and its inverse.
- `clock_descs.dfy` (`ClockDescs`):
  - the descriptor datatype, one constructor per C struct;
  - the parent-field convention;
  - the constructors as one abstract, possibly failing oracle.
- `agilex_tables.dfy` (`AgilexTables`): the mux lists and the five tables,
  entry for entry.
- `registration.dfy` (`Registration`):
  - `RegisterAll`, the specification of one loop as a fold;
  - lemmas on what a loop guarantees;
  - the clock data as a class over an `array`;
  - the imperative loop `RegisterClocks` with its six wrappers, proved equal
    to the fold.
- `clkmgr.dfy` (`ClkMgr`): table setup, the two variant inits, the match
  table and probe. Kernel services are modelled as outcomes in a `Platform`
  value.
- `clock_topology.dfy` (`ClockTopology`): a reference constructor and what it
  implies for a whole run. The reference constructor refuses a name that is
  already registered, as the clock framework does with -EEXIST. It also
  refuses a clock whose declared parents are not all registered.
- `table_facts.dfy` (`TableFacts`):
  - the well-formedness of the driver's own tables;
  - the effect of the duplicated gate entry;
  - a corrected gate table, and the full registration it achieves.

The driver's tables are shown to be in order by "rank". Each name gets a rank:
- the external roots `osc1`, `cb-intosc-hs-div2-clk` and `f2s-free-clk` take
  ranks 0 to 2;
- every other name takes the position of its entry in registration order.

Every parent ranks below its child, which is what makes parents resolve. Each
id likewise has a slot (`Slot`). The slot numbers are the model's own: the
model numbers the 46 ids the driver uses 0 to 45 in registration order, so the
entries' ids take slots 0, 1, 2, ... in order. They are not the values of the
`AGILEX_*` macros.

## Model

| member | source | states |
|---|---|---|
| ClockIds.Slot | drivers/clk/socfpga/clk-agilex.c:198 | every id used as `clks[id]` has its own slot below `NumClks`, the model's table size, and `SlotOwner` maps that slot back to the id |
| ClockIds.SlotInjective | drivers/clk/socfpga/clk-agilex.c:198 | two ids write the same slot exactly when they are the same id |
| ClockIds.NameRank | drivers/clk/socfpga/clk-agilex.c:15-179 | each clock name has a rank below the number of names, and `NameOwner` maps that rank back to the name |
| ClockIds.NameRankInjective | drivers/clk/socfpga/clk-agilex.c:15-179 | two names have the same rank exactly when they are the same name |
| ClockIds.FromTextOfText | drivers/clk/socfpga/clk-agilex.c:15-179 | reading back the spelling of any name gives that name |
| ClockIds.TextInjective | drivers/clk/socfpga/clk-agilex.c:15-179 | two names are equal exactly when their string literals are equal, as the clock framework compares names |
| ClockDescs.Candidates | drivers/clk/socfpga/clk-agilex.c:68-179 | a descriptor that keeps the parent-field convention declares exactly `num_parents` parents |
| Registration.Attempt | drivers/clk/socfpga/clk-agilex.c:189-198 | one iteration writes at most its own id's slot and registers at most its own name, and changes the state exactly when the constructor succeeds; what a success stores is stated by `Registration.AttemptStoresHandle` |
| Registration.AttemptStoresHandle | drivers/clk/socfpga/clk-agilex.c:198 | a successful iteration stores the constructor's handle in its id's slot and registers its name |
| Registration.RegisterAll | drivers/clk/socfpga/clk-agilex.c:188-199 | a loop only adds names, at most one per descriptor, after the names known before it |
| Registration.RegisterAllAppend | drivers/clk/socfpga/clk-agilex.c:188-199 | running two tables back to back is running their concatenation, for both the state and the constructor results |
| Registration.OutcomeAt | drivers/clk/socfpga/clk-agilex.c:188-199 | call i sees exactly the names registered by calls 0 to i-1: each descriptor is attempted once, in index order |
| Registration.KnownAfterRegister | drivers/clk/socfpga/clk-agilex.c:188-199 | afterwards the framework knows the old names followed by the names of the successful calls, in order |
| Registration.UntouchedSlot | drivers/clk/socfpga/clk-agilex.c:193-198 | a slot that no successful call's id owns keeps its old contents |
| Registration.LastSuccessWins | drivers/clk/socfpga/clk-agilex.c:198 | a slot holds the handle of the last successful call for its id; later failed calls with that id do not change it |
| Registration.FailedAttemptIsInvisible | drivers/clk/socfpga/clk-agilex.c:193-197 | a failed call leaves no trace: the run equals the run of the table without that descriptor |
| Registration.ClockData.constructor | drivers/clk/socfpga/clk-agilex.c:343 | a fresh zeroed clock data: base 0, no table, `clk_num` 0 |
| Registration.CallConstructor | drivers/clk/socfpga/clk-agilex.c:189-192 | the result is the oracle's answer for the names registered so far, and a success registers the clock's name |
| Registration.RegisterClocks | drivers/clk/socfpga/clk-agilex.c:188-200 | the in-place loop returns 0, keeps `clk_num` equal to the table's length, and leaves the table and the registry equal to `RegisterAll` of `clks[0..nums)` from the old state |
| Registration.N5xClkRegisterCPerip | drivers/clk/socfpga/clk-agilex.c:181-201 | `n5x_clk_register_c_perip`: returns 0; its new state is `RegisterAll` with the N5X C constructor |
| Registration.AgilexClkRegisterCPerip | drivers/clk/socfpga/clk-agilex.c:203-222 | `agilex_clk_register_c_perip`: returns 0; its new state is `RegisterAll` with `s10_register_periph` |
| Registration.AgilexClkRegisterCntPerip | drivers/clk/socfpga/clk-agilex.c:224-249 | `agilex_clk_register_cnt_perip`: returns 0; its new state is `RegisterAll` with `s10_register_cnt_periph` |
| Registration.AgilexClkRegisterGate | drivers/clk/socfpga/clk-agilex.c:251-277 | `agilex_clk_register_gate`: returns 0; its new state is `RegisterAll` with `agilex_register_gate` |
| Registration.AgilexClkRegisterPll | drivers/clk/socfpga/clk-agilex.c:279-300 | `agilex_clk_register_pll`: returns 0; its new state is `RegisterAll` with `agilex_register_pll` |
| Registration.N5xClkRegisterPll | drivers/clk/socfpga/clk-agilex.c:302-323 | `n5x_clk_register_pll`: returns 0; its new state is `RegisterAll` with `n5x_register_pll` |
| ClkMgr.SetupError | drivers/clk/socfpga/clk-agilex.c:336-358 | setup fails exactly when the mapping, an allocation or the provider registration fails; the error is an IS_ERR code, -ENOMEM for either allocation, the mapping's own error when the mapping fails, and the provider registration's own code when that fails |
| ClkMgr.InitStatus | drivers/clk/socfpga/clk-agilex.c:365-367 | a variant init returns 0 exactly when setup succeeded, whatever happens to individual clocks, and otherwise returns the setup error itself |
| ClkMgr.SocfpgaAgilexClkInit | drivers/clk/socfpga/clk-agilex.c:325-359 | fails exactly when `SetupError` reports an error, and returns that error; on success the fresh clock data has the mapped base and `nr_clks` empty slots |
| ClkMgr.Batches | drivers/clk/socfpga/clk-agilex.c:369-401 | a variant runs four batches whose constructor kinds come in the order PLL, C, counter, gate |
| ClkMgr.VariantsShareTables | drivers/clk/socfpga/clk-agilex.c:369-379 | the variants share the PLL table and the counter and gate batches (table and constructor), and differ in the PLL and C constructors and the C table |
| ClkMgr.BatchesMatchConstructors | drivers/clk/socfpga/clk-agilex.c:369-379 | every batch hands its constructor only descriptors of that constructor's kind |
| ClkMgr.TablesMatchConstructors | drivers/clk/socfpga/clk-agilex.c:68-179 | every entry of each table is of the kind its loop's constructor takes |
| ClkMgr.RunBatches | drivers/clk/socfpga/clk-agilex.c:369-401 | running a variant's loops one after another keeps the table size and only adds registered names after the existing ones |
| ClkMgr.RunFourBatches | drivers/clk/socfpga/clk-agilex.c:369-379 | the four loops run one after another, each on the state the previous one left |
| ClkMgr.AgilexClkmgrInit | drivers/clk/socfpga/clk-agilex.c:361-381 | returns the setup error with no name registered, or 0 with a fresh table of `AGILEX_NUM_CLKS` slots whose state is the four Agilex batches run in order |
| ClkMgr.N5xClkmgrInit | drivers/clk/socfpga/clk-agilex.c:383-403 | as `agilex_clkmgr_init`, with the N5X PLL and C constructors and the N5X C table |
| ClkMgr.MatchData | drivers/clk/socfpga/clk-agilex.c:409 | no data exactly when no entry's compatible string equals the device's ignoring case, as `strcasecmp` compares them; otherwise the data of the first entry that does |
| ClkMgr.MatchDataIgnoresCase | drivers/clk/socfpga/clk-agilex.c:409 | two compatible strings that differ only in case select the same data |
| ClkMgr.MatchTableSelectsVariant | drivers/clk/socfpga/clk-agilex.c:415-421 | "intel,agilex-clkmgr" in any case selects the Agilex init, "intel,easic-n5x-clkmgr" in any case the N5X init, and any other string nothing |
| ClkMgr.CapitalisedCompatibleMatches | drivers/clk/socfpga/clk-agilex.c:415-421 | "Intel,Agilex-Clkmgr" selects the Agilex init and "INTEL,EASIC-N5X-CLKMGR" the N5X init |
| ClkMgr.AgilexClkmgrProbe | drivers/clk/socfpga/clk-agilex.c:405-413 | -ENODEV with nothing registered when nothing matches; otherwise exactly the selected init's result and state |
| ClockTopology.ResolvesFromCharacterised | drivers/clk/socfpga/clk-agilex.c:15-179 | a run resolves exactly when each declared parent is a root or an earlier entry's name, and no entry reuses a name |
| ClockTopology.ResolvesIffAllRegister | drivers/clk/socfpga/clk-agilex.c:188-199 | under the reference constructor every call of a loop succeeds exactly when the run resolves |
| ClockTopology.ResolvingOutcomeHandles | drivers/clk/socfpga/clk-agilex.c:189-192 | under the reference constructor each success returns the handle of its own descriptor |
| ClockTopology.ResolvingRunKnown | drivers/clk/socfpga/clk-agilex.c:188-199 | a resolving run registers the descriptors' names, in order |
| ClockTopology.RankOrderedResolves | drivers/clk/socfpga/clk-agilex.c:15-179 | a table in rank order, after names that hold the lowest ranks, resolves |
| ClockTopology.RankBelowIsDeclared | drivers/clk/socfpga/clk-agilex.c:15-179 | in rank order every name ranked below the end of a run is a root or an entry of the run |
| ClockTopology.ParentsDeclaredEarlierInsert | drivers/clk/socfpga/clk-agilex.c:15-179 | inserting an entry whose parents are already declared keeps every parent declared earlier |
| ClockTopology.FullRunFillsSlots | drivers/clk/socfpga/clk-agilex.c:188-199 | a resolving run in slot order fills slot i with the handle of entry i and leaves the later slots alone |
| ClockTopology.DuplicateNameRefused | drivers/clk/socfpga/clk-agilex.c:193-197 | when the entries before it resolve, an entry that repeats an earlier entry's name is refused, and the run is the run without it |
| ClockTopology.ResolvingRunLastHandle | drivers/clk/socfpga/clk-agilex.c:198 | in a resolving run an id's slot holds the handle of the last entry with that id |
| ClockTopology.ResolvingRunUntouched | drivers/clk/socfpga/clk-agilex.c:198 | in a resolving run a slot that no entry's id owns keeps its contents |
| ClockTopology.OrderedRunFillsTable | drivers/clk/socfpga/clk-agilex.c:188-199 | a table with one entry per id, in rank and slot order, puts each entry's handle in its id's slot and registers every name |
| ClockTopology.KindIrrelevant | drivers/clk/socfpga/clk-agilex.c:181-323 | under the reference constructor the constructor kind does not change a run |
| ClockTopology.RunBatchesFlat | drivers/clk/socfpga/clk-agilex.c:369-379 | under the reference constructor the four batches are one loop over their tables, one after another |
| ClockTopology.OrderedBatchesFillTable | drivers/clk/socfpga/clk-agilex.c:369-379 | batches whose tables together hold one entry per id, in rank and slot order, put each entry's handle in its id's slot and register every name |
| TableFacts.TablesParentFieldsConsistent | drivers/clk/socfpga/clk-agilex.c:68-179 | in every table, fixed-parent entries have NULL `parent_names` and `num_parents` 1, and mux entries pass the `ARRAY_SIZE` of their list |
| TableFacts.RootsRanked | drivers/clk/socfpga/clk-agilex.c:15-16 | the external roots hold the three lowest ranks |
| TableFacts.PllTableOrdered | drivers/clk/socfpga/clk-agilex.c:68-75 | the PLL table is in rank order after the roots, and its entries' ids take the model's slots 0 to 2 |
| TableFacts.CTablesOrdered | drivers/clk/socfpga/clk-agilex.c:77-97 | both C tables divide PLLs registered before them, and their entries' ids take the model's slots 3 to 10 |
| TableFacts.CntTableOrdered | drivers/clk/socfpga/clk-agilex.c:99-122 | the counter table muxes earlier clocks and roots, and its entries' ids take the model's slots 11 to 21 |
| TableFacts.GateTableOrdered | drivers/clk/socfpga/clk-agilex.c:124-179 | the gate table is ordered except at entry 17 (:163): that entry reuses the id of entry 10 (:149) and the name of entry 18 (:165) |
| TableFacts.AsWrittenParentsDeclaredEarlier | drivers/clk/socfpga/clk-agilex.c:15-179 | in the tables as written every fixed parent and mux candidate is a root or an earlier entry's name, for both variants |
| TableFacts.AsWrittenTablesDuplicate | drivers/clk/socfpga/clk-agilex.c:149-166 | the tables as written reuse a name and two entries claim the slot of AGILEX_S2F_USER0_CLK, so they do not resolve |
| TableFacts.GateBatchNeedsEarlierBatches | drivers/clk/socfpga/clk-agilex.c:369-379 | the gate table alone fails its first entry: the batch order is needed |
| TableFacts.AsWrittenEntryRefused | drivers/clk/socfpga/clk-agilex.c:163-166 | the real `s2f_user1_clk` entry (:165) is refused because :163 already took its name |
| TableFacts.AsWrittenS2fUserSlots | drivers/clk/socfpga/clk-agilex.c:149-166 | as written, from the roots, the slot of AGILEX_S2F_USER0_CLK ends up holding a clock named "s2f_user1_clk" fed by `s2f_user0_mux`; the slot of AGILEX_S2F_USER1_CLK stays empty; every other slot is filled, and each slot other than those two holds the handle of the entry whose id owns it |
| TableFacts.CorrectedTablesWellFormed | drivers/clk/socfpga/clk-agilex.c:124-179 | with the corrected gate table every parent resolves, no name repeats, entry i's id has the model's slot i, and the parent-field convention holds |
| TableFacts.CorrectedRegistersEveryClock | drivers/clk/socfpga/clk-agilex.c:361-403 | with the corrected gate table a variant puts each id's own entry's handle in that id's slot and registers every name |
| TableFacts.CorrectedS2fUserSlots | drivers/clk/socfpga/clk-agilex.c:149-166 | with the corrected gate table `s2f_user0_clk` and `s2f_user1_clk` each sit in their own id's slot, fed by their own mux |

## Left out

- The per-kind constructors (`agilex_register_pll`, `n5x_register_pll`, `s10_register_periph`, `n5x_register_periph`, `s10_register_cnt_periph`, `agilex_register_gate`) live outside this file. They are one abstract oracle from the constructor kind, the descriptor and the names registered so far to a handle or a failure.
- `ClockDescs.Oracle`: a constructor returns either a valid clock or an error pointer, never NULL. The loops test only `IS_ERR` (clk-agilex.c:193-198), so a NULL return would be stored and would clear the slot; `Option<Handle>` cannot express that outcome. `Registration.UntouchedSlot`, `Registration.FailedAttemptIsInvisible` and `Registration.LastSuccessWins` rely on this assumption.
- Rate, divider and bypass arithmetic, and register bitfield accesses: hardware state behind the constructors. The descriptors keep their register fields as plain numbers.
- `devm_ioremap_resource`, `devm_kzalloc`, `devm_kcalloc`, `of_clk_add_provider` and `of_device_get_match_data` are outcomes in `ClkMgr.Platform`; only the lookup is modelled, as `ClkMgr.MatchData`. A device is modelled with a single compatible string, so the scoring over a list of compatible strings is not modelled.
- `ClkMgr.MatchData` compares compatible strings as `strcasecmp` does, through the kernel's `tolower`. Each character of the model's string stands for one byte of the C string, and the string is taken to hold no NUL byte.
- `pr_err` logging, `platform_driver_register` and `core_initcall`: I/O and driver lifecycle glue.
- The numeric values of the `AGILEX_*` ids and of `AGILEX_NUM_CLKS`: `dt-bindings/clock/agilex-clock.h` is not part of this model. Ids are symbolic, each with a fixed, injective slot below `NumClks` = 46, the number of ids the driver uses. If the header's `AGILEX_NUM_CLKS` is larger, the slots that no id names stay NULL in the driver; the model has no such slots, so its statements about "every slot" are about the slots of the ids the driver uses.
- `stratix10-clk.h`, which declares the descriptor structs, is not part of this model; the datatype follows the field order of the initialisers.
- Clock enable and disable, and concurrent access to the table after registration: clock framework code outside this file.
- `cntr_mux` is declared by the driver and used by no table; it is kept as a constant and plays no further part.
- The reference constructor of `ClockTopology` is stricter than the Linux clock framework, which accepts a clock whose parents are not registered yet and resolves them later. The framework's refusal of a duplicate name is modelled. So the end-to-end results are about well-ordered tables, not a claim that Linux refuses an orphan.
- `ClkMgr.AgilexClkmgrInit` and `ClkMgr.N5xClkmgrInit` run the gate table as written, duplicate included. The corrected table is proved correct separately and is not what the inits use.

## Findings

| source | as written | input that shows it | evidently intended | confidence | as-written member | corrected member |
|---|---|---|---|---|---|---|
| drivers/clk/socfpga/clk-agilex.c:163 | a gate entry with id `AGILEX_S2F_USER0_CLK` (already used at :149), name `"s2f_user1_clk"` (used again at :165) and parent list `s2f_user0_mux`, on the same gate bit (0x24, bit 6) as :149 | either variant's probe with every constructor succeeding whenever a clock's parents are registered and its name is new. :163 overwrites the slot of `AGILEX_S2F_USER0_CLK` with a clock named "s2f_user1_clk". :165 is then refused for the taken name. The slot of `AGILEX_S2F_USER1_CLK` stays empty, while every other id's slot holds its own entry's handle. | one `s2f_user0_clk` entry per id: :149 and :163 merged into one entry named "s2f_user0_clk" on `s2f_user0_mux`, so that both S2F user clocks are registered in their own slots | medium; not executed | TableFacts.AsWrittenS2fUserSlots | TableFacts.CorrectedS2fUserSlots |
