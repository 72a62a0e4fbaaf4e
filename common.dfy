/** Trigger de-duplication across primary datasets (`isOverlap` in
    boostedhiggs/common.py).

    A primary dataset is the stream of recorded events selected by a family
    of triggers. An event fired by triggers of several families is recorded
    in several datasets; to count it once, each dataset keeps an event only
    when one of its own triggers fired and no trigger of a dataset earlier in
    a per-year priority order fired. A dataset whose name matches no entry of
    the order keeps the events that fired none of the listed triggers.

    One event is modelled: its HLT decisions are a map from trigger name to
    bit, and a trigger absent from the map is a branch missing from the file,
    which the source skips silently. */
module Common {
  import opened Wrappers
  import opened Seqs

  type Year = string
  type Trigger = string
  type PrimaryDataset = string

  /** Priority order of the primary datasets, per data-taking year. */
  const DatasetOrdering: map<Year, seq<PrimaryDataset>> := map[
    "2017" := ["SingleMuon", "SingleElectron", "MET", "JetHT", "Tau"],
    "2018" := ["SingleMuon", "EGamma", "MET", "JetHT", "Tau"]
  ]

  /** The primary dataset each trigger belongs to, per year (the source calls
      this table `pd_to_trig`, though it maps triggers to datasets). */
  const PdToTrig: map<Year, map<Trigger, PrimaryDataset>> :=
    map["2017" := PdToTrig2017, "2018" := PdToTrig2018]

  const PdToTrig2017: map<Trigger, PrimaryDataset> := map[
    "PFHT800" := "JetHT",
    "PFHT900" := "JetHT",
    "AK8PFJet360_TrimMass30" := "JetHT",
    "AK8PFHT700_TrimR0p1PT0p03Mass50" := "JetHT",
    "PFHT650_WideJetMJJ950DEtaJJ1p5" := "JetHT",
    "PFHT650_WideJetMJJ900DEtaJJ1p5" := "JetHT",
    "PFJet450" := "JetHT",
    "PFHT1050" := "JetHT",
    "AK8PFJet400_TrimMass30" := "JetHT",
    "AK8PFJet420_TrimMass30" := "JetHT",
    "AK8PFHT800_TrimMass50" := "JetHT",
    "PFJet500" := "JetHT",
    "AK8PFJet500" := "JetHT",
    "Ele50_CaloIdVT_GsfTrkIdT_PFJet165" := "SingleElectron",
    "Ele115_CaloIdVT_GsfTrkIdT" := "SingleElectron",
    "Ele15_IsoVVVL_PFHT600" := "SingleElectron",
    "Ele35_WPTight_Gsf" := "SingleElectron",
    "Ele15_IsoVVVL_PFHT450_PFMET50" := "SingleElectron",
    "IsoMu27" := "SingleMuon",
    "Mu50" := "SingleMuon",
    "Mu55" := "SingleMuon",
    "Mu15_IsoVVVL_PFHT600" := "SingleMuon",
    "Mu15_IsoVVVL_PFHT450_PFMET50" := "SingleMuon",
    "PFMETNoMu120_PFMHTNoMu120_IDTight" := "MET",
    "PFMETNoMu110_PFMHTNoMu110_IDTight" := "MET",
    "DoubleMediumChargedIsoPFTau35_Trk1_TightID_eta2p1_Reg" := "Tau",
    "DoubleMediumChargedIsoPFTau35_Trk1_eta2p1_Reg" := "Tau",
    "DoubleMediumChargedIsoPFTau40_Trk1_TightID_eta2p1_Reg" := "Tau",
    "DoubleMediumChargedIsoPFTau40_Trk1_eta2p1_Reg" := "Tau",
    "MediumChargedIsoPFTau180HighPtRelaxedIso_Trk50_eta2p1" := "Tau",
    "MediumChargedIsoPFTau180HighPtRelaxedIso_Trk50_eta2p1_1pr" := "Tau",
    "DoubleMediumChargedIsoPFTauHPS35_Trk1_TightID_eta2p1_Reg" := "Tau",
    "DoubleMediumChargedIsoPFTauHPS35_Trk1_eta2p1_Reg" := "Tau",
    "DoubleMediumChargedIsoPFTauHPS40_Trk1_TightID_eta2p1_Reg" := "Tau",
    "DoubleMediumChargedIsoPFTauHPS40_Trk1_eta2p1_Reg" := "Tau",
    "MediumChargedIsoPFTau200HighPtRelaxedIso_Trk50_eta2p1" := "Tau",
    "MediumChargedIsoPFTau220HighPtRelaxedIso_Trk50_eta2p1" := "Tau"
  ]

  const PdToTrig2018: map<Trigger, PrimaryDataset> := map[
    "PFHT800" := "JetHT",
    "PFHT900" := "JetHT",
    "AK8PFJet360_TrimMass30" := "JetHT",
    "AK8PFHT700_TrimR0p1PT0p03Mass50" := "JetHT",
    "PFHT650_WideJetMJJ950DEtaJJ1p5" := "JetHT",
    "PFHT650_WideJetMJJ900DEtaJJ1p5" := "JetHT",
    "PFJet450" := "JetHT",
    "PFHT1050" := "JetHT",
    "AK8PFJet400_TrimMass30" := "JetHT",
    "AK8PFJet420_TrimMass30" := "JetHT",
    "AK8PFHT800_TrimMass50" := "JetHT",
    "PFJet500" := "JetHT",
    "AK8PFJet500" := "JetHT",
    "Ele50_CaloIdVT_GsfTrkIdT_PFJet165" := "EGamma",
    "Ele115_CaloIdVT_GsfTrkIdT" := "EGamma",
    "Ele15_IsoVVVL_PFHT600" := "EGamma",
    "Ele35_WPTight_Gsf" := "EGamma",
    "Ele15_IsoVVVL_PFHT450_PFMET50" := "EGamma",
    "IsoMu27" := "SingleMuon",
    "Mu50" := "SingleMuon",
    "Mu55" := "SingleMuon",
    "Mu15_IsoVVVL_PFHT600" := "SingleMuon",
    "Mu15_IsoVVVL_PFHT450_PFMET50" := "SingleMuon",
    "PFMETNoMu120_PFMHTNoMu120_IDTight" := "MET",
    "PFMETNoMu110_PFMHTNoMu110_IDTight" := "MET",
    "DoubleMediumChargedIsoPFTau35_Trk1_TightID_eta2p1_Reg" := "Tau",
    "DoubleMediumChargedIsoPFTau35_Trk1_eta2p1_Reg" := "Tau",
    "DoubleMediumChargedIsoPFTau40_Trk1_TightID_eta2p1_Reg" := "Tau",
    "DoubleMediumChargedIsoPFTau40_Trk1_eta2p1_Reg" := "Tau",
    "MediumChargedIsoPFTau180HighPtRelaxedIso_Trk50_eta2p1" := "Tau",
    "MediumChargedIsoPFTau180HighPtRelaxedIso_Trk50_eta2p1_1pr" := "Tau",
    "DoubleMediumChargedIsoPFTauHPS35_Trk1_TightID_eta2p1_Reg" := "Tau",
    "DoubleMediumChargedIsoPFTauHPS35_Trk1_eta2p1_Reg" := "Tau",
    "DoubleMediumChargedIsoPFTauHPS40_Trk1_TightID_eta2p1_Reg" := "Tau",
    "DoubleMediumChargedIsoPFTauHPS40_Trk1_eta2p1_Reg" := "Tau",
    "MediumChargedIsoPFTau200HighPtRelaxedIso_Trk50_eta2p1" := "Tau",
    "MediumChargedIsoPFTau220HighPtRelaxedIso_Trk50_eta2p1" := "Tau"
  ]

  /** The two module-level dictionaries `isOverlap` reads. They are passed in
      as a value so that the logic is stated for any contents; `Shipped` holds
      the repository's own. */
  datatype Tables = Tables(
    ordering: map<Year, seq<PrimaryDataset>>,
    pdOf: map<Year, map<Trigger, PrimaryDataset>>)

  const Shipped := Tables(DatasetOrdering, PdToTrig)

  /** The dictionary lookups that raise KeyError in the source. */
  datatype LookupError =
    | UnknownYear(year: Year)
    | UnknownTrigger(trigger: Trigger)
    | UnknownDataset(dataset: PrimaryDataset)

  /** A trigger fired: its branch is present and set. A missing branch counts
      as not fired (the source's `try: ... except: pass`). */
  predicate Fired(hlt: map<Trigger, bool>, t: Trigger) {
    t in hlt && hlt[t]
  }

  /** The primary dataset a trigger belongs to in a year's table, if any. */
  function PdOf(tables: Tables, year: Year, t: Trigger): Option<PrimaryDataset> {
    if year in tables.pdOf && t in tables.pdOf[year] then Some(tables.pdOf[year][t]) else None
  }

  /** Every lookup `isOverlap` makes succeeds: the year has an ordering, and
      every listed trigger has a dataset of that ordering. */
  predicate Resolvable(tables: Tables, triggers: seq<Trigger>, year: Year) {
    && year in tables.ordering
    && forall t :: t in triggers ==>
         PdOf(tables, year, t).Some? && PdOf(tables, year, t).value in tables.ordering[year]
  }

  /** `groups` is the `trig_to_pd` dictionary: one entry per dataset of the
      year's ordering, listing without repetition exactly the given triggers
      that belong to that dataset. */
  ghost predicate Grouping(groups: map<PrimaryDataset, seq<Trigger>>, tables: Tables,
                     triggers: seq<Trigger>, year: Year)
  {
    && year in tables.ordering
    && groups.Keys == SetOf(tables.ordering[year])
    && (forall p :: p in groups ==> NoDup(groups[p]))
    && (forall p, t :: p in groups ==> (t in groups[p] <==> t in triggers && PdOf(tables, year, t) == Some(p)))
  }

  /** Builds `trig_to_pd`: an empty list per dataset of the year's order, then
      each trigger appended to its dataset's list unless already there. */
  method GroupTriggers(tables: Tables, triggers: seq<Trigger>, year: Year)
    returns (r: Result<map<PrimaryDataset, seq<Trigger>>, LookupError>)
    ensures r.Ok? <==> Resolvable(tables, triggers, year)
    ensures year !in tables.ordering ==> r == Err(UnknownYear(year))
    ensures r.Ok? ==> Grouping(r.value, tables, triggers, year)
  {
    if year !in tables.ordering {
      return Err(UnknownYear(year));
    }
    var order := tables.ordering[year];
    var groups: map<PrimaryDataset, seq<Trigger>> := map[];
    var i := 0;
    while i < |order|
      invariant 0 <= i <= |order|
      invariant groups.Keys == SetOf(order[..i])
      invariant forall p :: p in groups ==> groups[p] == []
    {
      assert SetOf(order[..i + 1]) == SetOf(order[..i]) + {order[i]} by {
        assert order[..i + 1] == order[..i] + [order[i]];
      }
      groups := groups[order[i] := []];
      i := i + 1;
    }
    assert order[..i] == order;
    var k := 0;
    while k < |triggers|
      invariant 0 <= k <= |triggers|
      invariant groups.Keys == SetOf(order)
      invariant forall j :: 0 <= j < k ==> PdOf(tables, year, triggers[j]).Some? && PdOf(tables, year, triggers[j]).value in order
      invariant forall p :: p in groups ==> NoDup(groups[p])
      invariant forall p, t :: p in groups ==> (t in groups[p] <==> t in triggers[..k] && PdOf(tables, year, t) == Some(p))
    {
      var t := triggers[k];
      assert t in triggers;
      if year !in tables.pdOf {
        return Err(UnknownYear(year));
      }
      if t !in tables.pdOf[year] {
        return Err(UnknownTrigger(t));
      }
      var p := tables.pdOf[year][t];
      if p !in groups {
        return Err(UnknownDataset(p));
      }
      assert triggers[..k + 1] == triggers[..k] + [t];
      if t !in groups[p] {
        groups := groups[p := groups[p] + [t]];
      }
      k := k + 1;
    }
    assert triggers[..k] == triggers;
    return Ok(groups);
  }

  /** Some trigger of dataset `p` fired in this event. */
  predicate FiredFor(hlt: map<Trigger, bool>, tables: Tables, triggers: seq<Trigger>,
                     year: Year, p: PrimaryDataset)
  {
    exists t :: t in triggers && PdOf(tables, year, t) == Some(p) && Fired(hlt, t)
  }

  /** Position of the first dataset of the order that `dataset` starts with. */
  function FirstMatch(dataset: string, order: seq<PrimaryDataset>): (k: Option<nat>)
    ensures k.Some? ==> k.value < |order| && order[k.value] <= dataset
    ensures k.Some? ==> forall j :: 0 <= j < k.value ==> !(order[j] <= dataset)
    ensures k.None? ==> forall j :: 0 <= j < |order| ==> !(order[j] <= dataset)
  {
    if order == [] then None
    else if order[0] <= dataset then Some(0)
    else match FirstMatch(dataset, order[1..])
      case None => None
      case Some(k) => Some(k + 1)
  }

  /** Position of the first dataset of the order one of whose triggers fired. */
  function FirstFired(hlt: map<Trigger, bool>, tables: Tables, triggers: seq<Trigger>,
                      year: Year, order: seq<PrimaryDataset>): (k: Option<nat>)
    ensures k.Some? ==> k.value < |order| && FiredFor(hlt, tables, triggers, year, order[k.value])
    ensures k.Some? ==> forall j :: 0 <= j < k.value ==> !FiredFor(hlt, tables, triggers, year, order[j])
    ensures k.None? ==> forall j :: 0 <= j < |order| ==> !FiredFor(hlt, tables, triggers, year, order[j])
  {
    if order == [] then None
    else if FiredFor(hlt, tables, triggers, year, order[0]) then Some(0)
    else match FirstFired(hlt, tables, triggers, year, order[1..])
      case None => None
      case Some(k) => Some(k + 1)
  }

  /** What `isOverlap` decides for one event: if the dataset's name starts
      with the k-th dataset of the order, keep the event iff a trigger of that
      dataset fired and none of the k earlier ones did (later datasets play no
      part); if it matches none, keep the event iff no listed trigger fired. */
  predicate Kept(hlt: map<Trigger, bool>, dataset: string, triggers: seq<Trigger>,
                 year: Year, tables: Tables)
    requires year in tables.ordering
  {
    var order := tables.ordering[year];
    match FirstMatch(dataset, order)
    case Some(k) =>
      && FiredFor(hlt, tables, triggers, year, order[k])
      && forall j :: 0 <= j < k ==> !FiredFor(hlt, tables, triggers, year, order[j])
    case None =>
      forall j :: 0 <= j < |order| ==> !FiredFor(hlt, tables, triggers, year, order[j])
  }

  /** `isOverlap` for one event: group the triggers, then walk the year's
      priority order, vetoing on the triggers of each dataset before the one
      the dataset name starts with and requiring one of that dataset's own. */
  method IsOverlap(hlt: map<Trigger, bool>, dataset: string, triggers: seq<Trigger>,
                   year: Year, tables: Tables)
    returns (r: Result<bool, LookupError>)
    ensures r.Ok? <==> Resolvable(tables, triggers, year)
    ensures year !in tables.ordering ==> r == Err(UnknownYear(year))
    ensures r.Ok? ==> r.value == Kept(hlt, dataset, triggers, year, tables)
  {
    var grouped := GroupTriggers(tables, triggers, year);
    if grouped.Err? {
      return Err(grouped.error);
    }
    var groups := grouped.value;
    var order := tables.ordering[year];
    assert forall j :: 0 <= j < |order| ==> order[j] in SetOf(order);
    var overlap := true;
    var i := 0;
    while i < |order|
      invariant 0 <= i <= |order|
      invariant forall j :: 0 <= j < i ==> !(order[j] <= dataset)
      invariant overlap == forall j :: 0 <= j < i ==> !FiredFor(hlt, tables, triggers, year, order[j])
    {
      var p := order[i];
      var group := groups[p];
      if p <= dataset {
        var passPd := false;
        var k := 0;
        while k < |group|
          invariant 0 <= k <= |group|
          invariant passPd == exists m :: 0 <= m < k && Fired(hlt, group[m])
        {
          if group[k] in hlt {
            passPd := passPd || hlt[group[k]];
          }
          k := k + 1;
        }
        assert passPd == FiredFor(hlt, tables, triggers, year, p) by {
          if FiredFor(hlt, tables, triggers, year, p) {
            var t :| t in triggers && PdOf(tables, year, t) == Some(p) && Fired(hlt, t);
            assert t in group;
            var m :| 0 <= m < |group| && group[m] == t;
          }
        }
        overlap := overlap && passPd;
        assert FirstMatch(dataset, order) == Some(i);
        return Ok(overlap);
      } else {
        ghost var before := overlap;
        var k := 0;
        while k < |group|
          invariant 0 <= k <= |group|
          invariant overlap == (before && forall m :: 0 <= m < k ==> !Fired(hlt, group[m]))
        {
          if group[k] in hlt {
            overlap := overlap && !hlt[group[k]];
          }
          k := k + 1;
        }
        assert (forall m :: 0 <= m < |group| ==> !Fired(hlt, group[m]))
               == !FiredFor(hlt, tables, triggers, year, p) by {
          if FiredFor(hlt, tables, triggers, year, p) {
            var t :| t in triggers && PdOf(tables, year, t) == Some(p) && Fired(hlt, t);
            assert t in group;
          }
        }
      }
      i := i + 1;
    }
    assert FirstMatch(dataset, order) == None;
    return Ok(overlap);
  }

  /** The partition `isOverlap` achieves: an event is kept for a dataset
      exactly when the dataset's priority position is the first position whose
      triggers fired (both absent for the datasets matching no prefix, which
      keep the events no listed trigger fired). */
  lemma {:induction false} KeptIffFirstFired(hlt: map<Trigger, bool>, dataset: string,
                                             triggers: seq<Trigger>, year: Year, tables: Tables)
    requires year in tables.ordering
    ensures Kept(hlt, dataset, triggers, year, tables)
        <==> FirstMatch(dataset, tables.ordering[year]) == FirstFired(hlt, tables, triggers, year, tables.ordering[year])
  {
    var order := tables.ordering[year];
    var m := FirstMatch(dataset, order);
    var f := FirstFired(hlt, tables, triggers, year, order);
    match m
    case Some(k) =>
      if f.Some? && f.value < k {
        assert !Kept(hlt, dataset, triggers, year, tables);
      }
    case None =>
  }

  /** Anti-overlap: two datasets at different priority positions (or one at
      none) never both keep the same event. */
  lemma {:induction false} NoEventKeptTwice(hlt: map<Trigger, bool>, d1: string, d2: string,
                                            triggers: seq<Trigger>, year: Year, tables: Tables)
    requires year in tables.ordering
    requires FirstMatch(d1, tables.ordering[year]) != FirstMatch(d2, tables.ordering[year])
    ensures !(Kept(hlt, d1, triggers, year, tables) && Kept(hlt, d2, triggers, year, tables))
  {
    KeptIffFirstFired(hlt, d1, triggers, year, tables);
    KeptIffFirstFired(hlt, d2, triggers, year, tables);
  }

  /** A trigger whose branch is missing is skipped: the decision is the same
      as if the branch were present and unset. */
  lemma {:induction false} MissingBranchActsUnfired(hlt: map<Trigger, bool>, t: Trigger, dataset: string,
                                                    triggers: seq<Trigger>, year: Year, tables: Tables)
    requires year in tables.ordering
    requires t !in hlt
    ensures Kept(hlt, dataset, triggers, year, tables) == Kept(hlt[t := false], dataset, triggers, year, tables)
  {
    forall p | true
      ensures FiredFor(hlt, tables, triggers, year, p) == FiredFor(hlt[t := false], tables, triggers, year, p)
    {
      forall u | true ensures Fired(hlt, u) == Fired(hlt[t := false], u) { }
    }
  }

  lemma PdToTrig2017Datasets()
    ensures forall t :: t in PdToTrig2017 ==>
      PdToTrig2017[t] in {"SingleMuon", "SingleElectron", "MET", "JetHT", "Tau"}
  {
  }

  lemma PdToTrig2018Datasets()
    ensures forall t :: t in PdToTrig2018 ==>
      PdToTrig2018[t] in {"SingleMuon", "EGamma", "MET", "JetHT", "Tau"}
  {
  }

  /** The shipped tables cover the same years, and every trigger's dataset is
      in that year's order, so `UnknownDataset` cannot arise with them. */
  lemma ShippedTablesConsistent()
    ensures PdToTrig.Keys == DatasetOrdering.Keys
    ensures forall y, t :: y in PdToTrig && t in PdToTrig[y] ==> PdToTrig[y][t] in DatasetOrdering[y]
  {
    PdToTrig2017Datasets();
    PdToTrig2018Datasets();
    var o17 := DatasetOrdering["2017"];
    var o18 := DatasetOrdering["2018"];
    assert o17[0] == "SingleMuon" && o17[1] == "SingleElectron" && o17[2] == "MET" && o17[3] == "JetHT" && o17[4] == "Tau";
    assert o18[0] == "SingleMuon" && o18[1] == "EGamma" && o18[2] == "MET" && o18[3] == "JetHT" && o18[4] == "Tau";
  }

  /** Years without an entry, such as 2016, fail on the first lookup. */
  lemma UnknownYearFails(hlt: map<Trigger, bool>, dataset: string, triggers: seq<Trigger>)
    ensures "2016" !in Shipped.ordering
    ensures !Resolvable(Shipped, triggers, "2016")
  {
  }
}
