# boostedhiggs in Dafny: trigger de-duplication, truth codes, the H→ττ processor and the cross-section table

This project models the core of the boostedhiggs analysis, a columnar search for boosted
Higgs bosons decaying to tau pairs, and proves properties of that model. It covers four parts.

- **Trigger de-duplication** (`common.dfy`, module `Common`). This is `isOverlap`. It first
  groups the listed triggers by primary dataset (the `trig_to_pd` lists). It then walks the
  year's dataset priority order: it vetoes events that fired triggers of datasets ahead of
  the chunk's own dataset, and requires a trigger of the chunk's own dataset. The model covers
  one event. Its HLT bits are a map, and an absent trigger is a branch missing from the file,
  which the source skips.
- **Generator truth codes** (`truth.dfy`, module `TruthCodes`):
  - `match` with a cutoff, as an argmin over given distances;
  - the flavour codes of `matchedBosonFlavor` and `matchedBosonFlavorLep`;
  - the decay categories of `getHTauTauDecayInfo`.
- **The processor** (`processor.dfy`, module `Processor`). This is `HtautauProcessor`: its
  per-year trigger lists and b-tag working points, and `process` on one chunk. `process`
  does the following:
  - sums the generator weights;
  - ORs the trigger bits into three trigger selections;
  - adds the jet, MET and lepton selections;
  - runs the five cutflow loops;
  - fills the four histograms for every region.

  The accumulator is a class whose fields the methods update in place. The cutflows and
  histograms are maps keyed by region and dataset.
- **The cross-section table** (`xsec.dfy`, module `CrossSections`). This is `make_xsec.py`.
  It collects the Drell-Yan keys binned in Z transverse momentum. It then inserts four
  aliases per key, one per Z decay channel, each carrying the parent's cross section.

`wrappers.dfy` holds `Option`/`Result`. `seqs.dfy` holds the sequence helpers that stand in for
numpy/awkward operations: mask selection, counting, summing, slicing and argmin.

Kinematic quantities are inputs. Angular distances, invariant masses and the
lepton–jet separation bits are given as `real`s or booleans per event and are not computed.

Two error paths are modelled as results.
- Missing trigger branches: only `isOverlap` wraps its HLT reads in `try`, so there a missing
  branch counts as a trigger that did not fire. `process` reads `events.HLT[t]` unguarded, so a
  missing trigger branch ends the chunk. The model returns `MissingBranch` there.
- Unknown years: a year absent from the per-year tables raises `KeyError` in both `process`
  and `isOverlap`. The model returns `UnknownYear`.

## Model

| member | source | states |
|---|---|---|
| Common.GroupTriggers | boostedhiggs/common.py:92-97 | Succeeds exactly when the year has an ordering and every trigger maps to a dataset of it, and fails with `UnknownYear` first for an unknown year. The result has one list per dataset of the ordering; each list has no repeats and holds exactly the given triggers that belong to that dataset. |
| Common.FirstMatch | boostedhiggs/common.py:99-100 | Finds the first dataset of the order that the dataset name starts with; none before it matches, and `None` means none matches at all. |
| Common.FirstFired | boostedhiggs/common.py:99-115 | Finds the first dataset of the order one of whose listed triggers fired; none before it fired, and `None` means none fired. |
| Common.IsOverlap | boostedhiggs/common.py:92-116 | Succeeds exactly when every lookup succeeds, and fails with `UnknownYear` for an unknown year. On success the event is kept exactly when a trigger of the matched dataset fired and no trigger of an earlier dataset did; datasets after the match play no part because of the `break`. A name matching no dataset keeps the events where no listed trigger fired. |
| Common.KeptIffFirstFired | boostedhiggs/common.py:99-115 | An event is kept exactly when the dataset's position in the priority order equals the first position whose triggers fired. |
| Common.NoEventKeptTwice | boostedhiggs/common.py:92-116 | Anti-overlap: two datasets at different priority positions never both keep the same event. |
| Common.MissingBranchActsUnfired | boostedhiggs/common.py:104-115 | A missing HLT branch, swallowed by `try/except`, gives the same decision as a present branch that did not fire. |
| Common.PdToTrig2017Datasets | boostedhiggs/common.py:12-50 | Every 2017 trigger belongs to one of the five 2017 primary datasets. |
| Common.PdToTrig2018Datasets | boostedhiggs/common.py:51-89 | Every 2018 trigger belongs to one of the five 2018 primary datasets (EGamma replacing SingleElectron). |
| Common.ShippedTablesConsistent | boostedhiggs/common.py:6-90 | The two tables cover the same years, and every trigger's dataset is in that year's ordering, so no dataset lookup can fail with the shipped tables. |
| Common.UnknownYearFails | boostedhiggs/common.py:6-9 | 2016 has no ordering, so `isOverlap` cannot succeed for it. |
| TruthCodes.MatchIndex | boostedhiggs/common.py:131-146 | Returns the index of the closest boson, provided it is closer than the cutoff: no distance is smaller, and every earlier one is strictly larger, so ties go to the first. It returns `None` exactly when every distance is at least the cutoff. |
| TruthCodes.GenFlavorMeaning | boostedhiggs/common.py:151 | The jet flavour code is one of 0, 1, 2, 3 and 5, with these meanings: 5 is b and c children, 3 is b without c, 2 is c without b, 1 is light quarks only, and 0 is otherwise, which needs a child heavier than b. Each meaning holds in both directions. |
| TruthCodes.MatchedBosonFlavor | boostedhiggs/common.py:148-152 | An unmatched jet gets 0. A matched jet gets the flavour code of the matched boson's children, which `GenFlavorMeaning` decodes. Every code is in {0, 1, 2, 3, 5}, and the code is 3 or 5 exactly when the matched boson has a b-quark child. |
| TruthCodes.GenFlavorLepMeaning | boostedhiggs/common.py:157 | The lepton code weighs a muon child 3, an electron child 2 and a tau child 1, and the zero-weighted last term adds nothing. Every code is decoded as an iff over which of the three are present. Code 3 is ambiguous: a muon alone, or an electron with a tau. |
| TruthCodes.MatchedBosonFlavorLep | boostedhiggs/common.py:154-158 | An unmatched candidate gets 0, and a matched one gets the lepton code of the matched boson's children. The code lies in 0..6 and is 0 exactly when the candidate is unmatched or the matched boson has no electron, muon or tau child. |
| TruthCodes.DecayCode | boostedhiggs/common.py:187 | The tau-pair category lies in 0..6 and is non-zero exactly when the hadronic, electron and muon counts add up to two. |
| TruthCodes.DecayContent | boostedhiggs/common.py:187 | Each category 1..6 stands for a tau pair, so its counts add up to two. |
| TruthCodes.DecayCodeRoundTrip | boostedhiggs/common.py:187 | A non-zero category determines the counts that produced it. |
| TruthCodes.DecayContentRoundTrip | boostedhiggs/common.py:187 | Encoding the counts of a category gives back that category. |
| TruthCodes.HadTauCode | boostedhiggs/common.py:192-193 | The hadronic tau code is 1 exactly for status 0, 2 exactly for status 1 or 2, 3 exactly for status 10 or 11, and 0 otherwise. |
| TruthCodes.HTauTauDecayInfo | boostedhiggs/common.py:161-194 | The category is the base code from the positive-pt counts. It is kept when some tau pair is close and the two leading momenta exceed 25 GeV. Otherwise it is zeroed with `mod` and negated without it. Each hadronic code is `HadTauCode` of the first or second visible tau's status (15 when absent), so it lies in 0..3 and is 0 when there is no visible tau. |
| Processor.RegionCuts | boostedhiggs/htautauprocessor.py:371-378 | Every region's cut list is non-empty and names no cut twice. |
| Processor.RegionListed | boostedhiggs/htautauprocessor.py:371-404 | The fill order (the region table's) and the cutflow order each list all five regions exactly once. |
| Processor.CandidateJets | boostedhiggs/htautauprocessor.py:241-246 | Gives the qualifying fat jets, truncated to two: a prefix of the qualifying jets whose length is the number of qualifying jets capped at two, so all of them are kept when fewer than two qualify. |
| Processor.CandidateJet | boostedhiggs/htautauprocessor.py:247-250 | The candidate is absent exactly when there are no candidate fat jets. Otherwise it is the candidate with the smallest signed Δφ to the missing momentum, not the smallest absolute Δφ, and the first on a tie. With one candidate it is that jet. |
| Processor.Ak4Jets | boostedhiggs/htautauprocessor.py:260-265 | Gives the good small-radius jets, truncated to four: a prefix of the good jets whose length is the number of good jets capped at four, so all of them are kept when fewer than four qualify. |
| Processor.GoodMuonsAreCounted | boostedhiggs/htautauprocessor.py:277-303 | Good muons never outnumber the loose muons counted by `nmuons`. |
| Processor.GoodElectronsAreCounted | boostedhiggs/htautauprocessor.py:288-309 | Good electrons never outnumber the loose electrons counted by `nelectrons`. |
| Processor.LeptonCategories | boostedhiggs/htautauprocessor.py:318-331 | No-lepton, one-muon and one-electron are pairwise exclusive, and `lepsel` is exactly one-muon or one-electron. |
| Processor.FirstMissing | boostedhiggs/htautauprocessor.py:216-229 | The branch whose read raises first: none exactly when every listed trigger has a branch, otherwise the first listed trigger without a branch: every trigger listed before it has one. |
| Processor.FirstMissingConcat | boostedhiggs/htautauprocessor.py:216-229 | Reading the hadhad, hadmu and hadel lists in turn fails at the first list's first missing branch, or at a later list's when the earlier ones are complete. |
| Processor.TriggerMask | boostedhiggs/htautauprocessor.py:216-229 | The trigger loop succeeds exactly when every listed branch exists, and otherwise names the first listed trigger whose branch is missing, the one whose read raises. On success each event's bit says whether any listed trigger fired. |
| Processor.HadhadTriggersShared | boostedhiggs/htautauprocessor.py:39-156 | For every year, each hadronic trigger is also in the muon and electron channels' trigger lists. |
| Processor.HadhadTriggerImpliesLeptonTriggers | boostedhiggs/htautauprocessor.py:216-229 | Every event passing the hadhad_trigger selection also passes hadmu_trigger and hadel_trigger. |
| Processor.AddedSelectionsFull | boostedhiggs/htautauprocessor.py:216-353 | After the eighteen `selection.add` calls, every named selection is present, with one bit per event. |
| Processor.TriggerSelections | boostedhiggs/htautauprocessor.py:216-229 | Each trigger selection's bit is set exactly when some trigger of the year's list fired. |
| Processor.JetSelections | boostedhiggs/htautauprocessor.py:251-257 | jetacceptance, jetid and n2ddt each hold exactly for the events whose candidate jet passes that cut. |
| Processor.MetLsfSelections | boostedhiggs/htautauprocessor.py:275-353 | met holds exactly for the events with missing momentum above 25 GeV, and jetlsf exactly for those whose candidate jet passes the lepton-subjet cut. |
| Processor.BtagSelections | boostedhiggs/htautauprocessor.py:260-273 | The two b-tag selections compare the opposite-hemisphere and away jets with the year's medium working point. |
| Processor.LeptonSelections | boostedhiggs/htautauprocessor.py:329-331 | noleptons, onemuon and oneelec each hold exactly for the events passing that lepton-count cut. |
| Processor.LeptonKinSelections | boostedhiggs/htautauprocessor.py:332-349 | muonkin, muonDphiAK8, eleckin, elecDphiAK8 and lepDrAK8 each hold exactly for the events passing that kinematic or angular cut. |
| Processor.BuildSelection | boostedhiggs/htautauprocessor.py:216-353 | Succeeds exactly when the year is known and every trigger branch exists. An unknown year gives `UnknownYear`. For a known year the only failure is `MissingBranch`, naming the first missing branch in read order (hadhad, then hadmu, then hadel triggers). On success the selections equal the chunk's specified selections. |
| Processor.Weights | boostedhiggs/htautauprocessor.py:359-366 | There is one weight per event, and recorded data has weight 1. |
| Processor.Bump | boostedhiggs/htautauprocessor.py:385-404 | `cutflow[dataset][step] += x` grows that one entry by `x` and leaves every other entry unchanged. |
| Processor.Append | boostedhiggs/htautauprocessor.py:448-481 | A fill appends to the (histogram, dataset, region) cell and leaves every other cell unchanged. |
| Processor.Entries | boostedhiggs/htautauprocessor.py:448-455 | A fill adds one entry per weight. The i-th entry carries the i-th weight, and its coordinate on each axis is that axis column's i-th value. |
| Processor.Accumulator.constructor | boostedhiggs/htautauprocessor.py:159-212 | `identity()` is empty. |
| Processor.Accumulator.AddSumw | boostedhiggs/htautauprocessor.py:214 | Adds to the dataset's generator-weight sum; cutflows and histograms are unchanged. |
| Processor.Accumulator.AddCutflow | boostedhiggs/htautauprocessor.py:385-404 | The cutflow becomes the bumped cutflow; sums and histograms are unchanged. |
| Processor.Accumulator.Fill | boostedhiggs/htautauprocessor.py:448-481 | The histograms gain the fill's entries in one cell; sums and cutflows are unchanged. |
| Processor.RunCutflow | boostedhiggs/htautauprocessor.py:390-404 | One cutflow loop adds each cut to the running set and records the weight passing that set, step by step. |
| Processor.CutflowStepsNext | boostedhiggs/htautauprocessor.py:391-392 | A loop iteration extends the recorded steps by one cut. |
| Processor.CutflowStepsEntries | boostedhiggs/htautauprocessor.py:390-404 | After `i` steps, each cut's entry has grown by the weight passing that cut and all before it, and no other entry has changed. |
| Processor.CutflowStepsRecord | boostedhiggs/htautauprocessor.py:385-404 | Starting from the total alone, a loop records the region's cutflow. |
| Processor.RegionLoopEffect | boostedhiggs/htautauprocessor.py:390-404 | A region's loop leaves other regions' cutflows alone, and records its own cutflow when started from its total. |
| Processor.CutflowLoopsKeep | boostedhiggs/htautauprocessor.py:390-404 | Other regions' loops leave a region's cutflow alone. |
| Processor.CutflowLoopsRecord | boostedhiggs/htautauprocessor.py:385-404 | The loops of distinct regions record each region's cutflow. |
| Processor.RecordedKept | boostedhiggs/htautauprocessor.py:385-404 | A recorded cutflow stays recorded while its entries are untouched. |
| Processor.TotalsEntries | boostedhiggs/htautauprocessor.py:385-389 | Every region's cutflow starts with the total weight under "none" and nothing under any cut. |
| Processor.AllCutflowsRecorded | boostedhiggs/htautauprocessor.py:380-404 | For every region, the cutflow holds the total under "none" and, under its k-th cut, the weight passing its first k+1 cuts. |
| Processor.RecordTotals | boostedhiggs/htautauprocessor.py:385-389 | Writes the five totals into an empty cutflow. |
| Processor.RecordCutflows | boostedhiggs/htautauprocessor.py:380-404 | Writes the totals and then the five loops, in the source's order. |
| Processor.FiveLoops | boostedhiggs/htautauprocessor.py:390-404 | The five loops run in sequence equal the loops over the cutflow order. |
| Processor.CumulativeCutsShrink | boostedhiggs/htautauprocessor.py:392 | Adding a cut never increases the number of passing events, nor their weight when weights are non-negative, and with no cuts everything passes. |
| Processor.RecordedCutflowNonIncreasing | boostedhiggs/htautauprocessor.py:385-404 | A recorded cutflow never increases from "none" down its cut list when weights are non-negative. |
| Processor.Normalize | boostedhiggs/htautauprocessor.py:425-426 | Gives one value per selected event, in event order. The selected event `i` sits at the position counting the selected events before it and contributes its first value, or 0 when it has none. |
| Processor.NormalizedAxes | boostedhiggs/htautauprocessor.py:425-481 | Every fill has three axis columns. Each selected event contributes, at its position, its first value on that axis, or 0. |
| Processor.FilledEntries | boostedhiggs/htautauprocessor.py:421-481 | A region's fill adds one entry per selected event, in event order. Each entry carries that event's three axis values and its weight. |
| Processor.RegionFillCells | boostedhiggs/htautauprocessor.py:448-481 | A region's fill appends its entries to the region's four cells and touches no other cell. |
| Processor.FillRegion | boostedhiggs/htautauprocessor.py:416-481 | Performs the four fills of one region under its full cut set, with the nominal weight. |
| Processor.FillLoopsNext | boostedhiggs/htautauprocessor.py:483-485 | One more region extends the fills by that region's fill. |
| Processor.FillRegions | boostedhiggs/htautauprocessor.py:483-485 | Fills every region in the region table's order. |
| Processor.FillLoopsKeep | boostedhiggs/htautauprocessor.py:483-485 | Other regions' fills leave a region's cells alone. |
| Processor.FillLoopsFilled | boostedhiggs/htautauprocessor.py:483-485 | Filling distinct regions from empty cells fills each of them. |
| Processor.AllRegionsFilled | boostedhiggs/htautauprocessor.py:416-485 | Each histogram cell holds exactly one entry per event passing that region's cuts, with that event's weight. |
| Processor.HistogramMatchesCutflow | boostedhiggs/htautauprocessor.py:392-421 | A region's histogram weights add up to the last entry of its cutflow, and its entry count is the number of passing events. |
| Processor.HtautauProcessor.constructor | boostedhiggs/htautauprocessor.py:27-28 | The processor keeps its year (2017 by default). |
| Processor.HtautauProcessor.Process | boostedhiggs/htautauprocessor.py:207-492 | Succeeds exactly when the year is known and every trigger branch exists. An unknown year fails with `UnknownYear`; a known year fails only with `MissingBranch`, naming the first missing branch in read order. `sumw` holds the generator weight sum for simulation only. Every region's cutflow is recorded and every region's histograms are filled as specified. |
| CrossSections.Put | make_xsec.py:164-167 | `d[k] = v`: the key maps to `v`, other keys keep their values, and a new key goes last in the key order. |
| CrossSections.PutValid | make_xsec.py:164-167 | Assignment keeps the key order listing each key exactly once. |
| CrossSections.DrellYanKeys | make_xsec.py:159-162 | `zkeys` holds exactly the keys containing "DYJetsToLL_Pt", in the dict's order, without repeats. |
| CrossSections.AddAliases | make_xsec.py:163-167 | One sample's insertions add exactly its four aliases and keep the key order in front. |
| CrossSections.AliasKeys | make_xsec.py:163-167 | Every listed sample's aliases are among the alias keys. |
| CrossSections.Expand | make_xsec.py:163-167 | The final keys are exactly the original keys plus the aliases of the collected keys. |
| CrossSections.ExpandKeepsOrder | make_xsec.py:163-167 | The original keys keep their order, in front of the new ones. |
| CrossSections.ExpandValid | make_xsec.py:163-167 | The expansion keeps the key order in step with the keys. |
| CrossSections.ExpandAliases | make_xsec.py:163-167 | The loop over `zkeys` performs the expansion. |
| CrossSections.MakeTable | make_xsec.py:159-167 | The script expands exactly the keys collected before insertion, and its keys are the originals plus their aliases. |
| CrossSections.AliasInjective | make_xsec.py:164-167 | An alias determines its sample and its channel. |
| CrossSections.AliasesAreDrellYan | make_xsec.py:160-167 | Aliases contain "DYJetsToLL_Pt" too, so without the snapshot they would be expanded again. |
| CrossSections.AddAliasesValues | make_xsec.py:164-167 | A sample's aliases get the sample's value, and other keys keep theirs. |
| CrossSections.AliasesDistinct | make_xsec.py:164-167 | A sample's four aliases differ from each other and from the sample. |
| CrossSections.ExpandKeepsOthers | make_xsec.py:159-167 | A key that is no alias of a collected key keeps its original value. |
| CrossSections.SharedAlias | make_xsec.py:164-167 | Two samples sharing an alias are the same sample. |
| CrossSections.ExpandAliasValues | make_xsec.py:163-167 | Every alias carries its sample's original cross section, provided no collected key is itself an alias of a collected key. |
| CrossSections.AddAliasesCount | make_xsec.py:164-167 | Four fresh aliases add four keys. |
| CrossSections.ExpandCount | make_xsec.py:159-167 | With distinct samples and no alias already present, the table grows by exactly four keys per sample. |

## Left out

- Kinematics: four-vector construction, `delta_phi`, `delta_r`, invariant masses and `rho` are floating-point work done by uproot_methods. They are per-event inputs, namely a fat jet's `metDphi`, a small jet's `candidateAbsDphi`, the lepton–jet angular bits, `jetLepMass` and `jetLepMetMass`.
- Corrections: `corrected_msoftdrop`, `n2ddt_shift`, the pileup weight and the NLO k-factor are imported from corrections.py, which is not part of this model. They arrive as the jet fields `msdcorr`/`n2ddt` and one per-event `corrections` factor. `Processor.Weights` is the generator weight times that factor.
- The `genflavor` computation inside `process`: its value is not used by the fill or the cutflows. The code arithmetic itself is modelled in `TruthCodes`.
- coffea internals: `PackedSelection` is a map from selection to bit column, and `selection.all` is a conjunction. `Weights` is a per-event list. Histogram binning, overflow and accumulator merging are not modelled, and a histogram is the ordered list of its fills per (histogram, dataset, region) cell.
- The numeric `self._accumulator` axis definitions (bin counts and ranges) are not modelled.
- Only the nominal systematic is filled, as in the source; the commented-out systematics and LHE weight loops are left out.
- The FatJet/CustomAK8Puppi fallback of `process` is a branch-name choice. The model reads one fat-jet collection.
- I/O: event reading, `json.dump` of the cross-section table, and pickle output are left out.
- The numbers of the shipped cross-section table are not transcribed. The expansion is proved for every table, and the table happens to have no alias collisions.
- CrossSections.ExpandKeepsOthers: it does not say that every original key keeps its value. When an original key is itself an alias of a collected key (say both `X` and `X_Zee` exist), the insertion overwrites it, as the code does.
- Processor.HistogramMatchesCutflow: it relates real-valued sums exactly. Floating-point rounding of `float(...sum())` is not modelled.
- `getParticles`, `getBosons` and the generator-flag filtering are inputs: a boson is the list of its children's PDG ids.
- Processor.CandidateJet: NaN angles are not modelled.
- The processor models one chunk at a time. The accumulator merge across chunks is coffea's and is left out.
