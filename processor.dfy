/** The per-chunk event selection of `HtautauProcessor`
    (boostedhiggs/htautauprocessor.py): trigger masks, object and event cuts
    combined into named selections, cumulative cutflows per analysis region,
    and histogram filling with one value per selected event.

    A chunk is a dataset name, its HLT branches as columns (one bit per
    event), a record per event for everything else, and whether it carries
    generator weights (simulation) or not (recorded data). Kinematic
    quantities the source computes from four-vectors (jet-MET and jet-jet
    azimuthal distances, lepton-jet separations, invariant masses, corrected
    soft-drop mass, N2-DDT) are fields of these records; per-event weight
    corrections from modules not shown are one opaque factor. */
module Processor {
  import opened Wrappers
  import opened Seqs

  type Year = string
  type Trigger = string

  // ---------------------------------------------------------------------
  // Configuration tables set up by the constructor

  /** Medium working point of the DeepCSV b-tag discriminant, per year. */
  const BtagWPs: map<string, map<Year, real>> :=
    map["medium" := map["2016" := 0.6321, "2017" := 0.4941, "2018" := 0.4184]]

  const Hadhad2016: seq<Trigger> := [
    "PFHT800", "PFHT900", "AK8PFJet360_TrimMass30", "AK8PFHT700_TrimR0p1PT0p03Mass50",
    "PFHT650_WideJetMJJ950DEtaJJ1p5", "PFHT650_WideJetMJJ900DEtaJJ1p5",
    "AK8DiPFJet280_200_TrimMass30_BTagCSV_p20", "PFJet450"]
  const Hadhad2017: seq<Trigger> := [
    "AK8PFJet330_PFAK8BTagCSV_p17", "PFHT1050", "AK8PFJet400_TrimMass30", "AK8PFJet420_TrimMass30",
    "AK8PFHT800_TrimMass50", "PFJet500", "AK8PFJet500"]
  const Hadhad2018: seq<Trigger> := [
    "AK8PFJet400_TrimMass30", "AK8PFJet420_TrimMass30", "AK8PFHT800_TrimMass50", "PFHT1050",
    "PFJet500", "AK8PFJet500", "AK8PFJet330_TrimMass30_PFAK8BoostedDoubleB_np4"]

  const Hadel2016: seq<Trigger> := [
    "Ele50_CaloIdVT_GsfTrkIdT_PFJet165", "Ele115_CaloIdVT_GsfTrkIdT",
    "Ele15_IsoVVVL_PFHT450_PFMET50", "Ele15_IsoVVVL_PFHT600",
    "PFHT800", "PFHT900", "AK8PFJet360_TrimMass30", "AK8PFHT700_TrimR0p1PT0p03Mass50",
    "PFHT650_WideJetMJJ950DEtaJJ1p5", "PFHT650_WideJetMJJ900DEtaJJ1p5",
    "AK8DiPFJet280_200_TrimMass30_BTagCSV_p20", "PFJet450"]
  const Hadel2017: seq<Trigger> := [
    "Ele50_CaloIdVT_GsfTrkIdT_PFJet165", "Ele115_CaloIdVT_GsfTrkIdT",
    "Ele15_IsoVVVL_PFHT450_PFMET50", "Ele15_IsoVVVL_PFHT600",
    "AK8PFJet330_PFAK8BTagCSV_p17", "PFHT1050", "AK8PFJet400_TrimMass30", "AK8PFJet420_TrimMass30",
    "AK8PFHT800_TrimMass50", "PFJet500", "AK8PFJet500"]
  const Hadel2018: seq<Trigger> := [
    "Ele50_CaloIdVT_GsfTrkIdT_PFJet165", "Ele115_CaloIdVT_GsfTrkIdT",
    "Ele15_IsoVVVL_PFHT450_PFMET50", "Ele15_IsoVVVL_PFHT600",
    "AK8PFJet400_TrimMass30", "AK8PFJet420_TrimMass30", "AK8PFHT800_TrimMass50", "PFHT1050",
    "PFJet500", "AK8PFJet500", "AK8PFJet330_TrimMass30_PFAK8BoostedDoubleB_np4"]

  const Hadmu2016: seq<Trigger> := [
    "Mu50", "Mu55", "Mu15_IsoVVVL_PFHT450_PFMET50", "Mu15_IsoVVVL_PFHT600",
    "PFHT800", "PFHT900", "AK8PFJet360_TrimMass30", "AK8PFHT700_TrimR0p1PT0p03Mass50",
    "PFHT650_WideJetMJJ950DEtaJJ1p5", "PFHT650_WideJetMJJ900DEtaJJ1p5",
    "AK8DiPFJet280_200_TrimMass30_BTagCSV_p20", "PFJet450"]
  const Hadmu2017: seq<Trigger> := [
    "Mu50", "Mu55", "Mu15_IsoVVVL_PFHT450_PFMET50", "Mu15_IsoVVVL_PFHT600",
    "AK8PFJet330_PFAK8BTagCSV_p17", "PFHT1050", "AK8PFJet400_TrimMass30", "AK8PFJet420_TrimMass30",
    "AK8PFHT800_TrimMass50", "PFJet500", "AK8PFJet500"]
  const Hadmu2018: seq<Trigger> := [
    "Mu50", "Mu55", "Mu15_IsoVVVL_PFHT450_PFMET50", "Mu15_IsoVVVL_PFHT600",
    "AK8PFJet400_TrimMass30", "AK8PFJet420_TrimMass30", "AK8PFHT800_TrimMass50", "PFHT1050",
    "PFJet500", "AK8PFJet500", "AK8PFJet330_TrimMass30_PFAK8BoostedDoubleB_np4"]

  const HadhadTriggers: map<Year, seq<Trigger>> :=
    map["2016" := Hadhad2016, "2017" := Hadhad2017, "2018" := Hadhad2018]
  const HadelTriggers: map<Year, seq<Trigger>> :=
    map["2016" := Hadel2016, "2017" := Hadel2017, "2018" := Hadel2018]
  const HadmuTriggers: map<Year, seq<Trigger>> :=
    map["2016" := Hadmu2016, "2017" := Hadmu2017, "2018" := Hadmu2018]


  /** The named selections the processor adds, in the order it adds them:
      hadhad_trigger, hadmu_trigger, hadel_trigger, jetacceptance, jetid,
      n2ddt, antiak4btagMediumOppHem, ak4btagMedium08, met, noleptons,
      onemuon, oneelec, muonkin, muonDphiAK8, eleckin, elecDphiAK8, lepDrAK8,
      jetlsf. */
  datatype Cut =
    | HadhadTrigger | HadmuTrigger | HadelTrigger
    | JetAcceptance | JetId | N2ddt | AntiBtagOppHem | BtagAway08 | Met
    | NoLeptons | OneMuon | OneElec | MuonKin | MuonDphiAK8 | ElecKin | ElecDphiAK8 | LepDrAK8 | JetLsf

  /** The analysis regions, keyed in the source as hadhad_signal,
      hadmu_signal, hadel_signal, hadmu_cr_b and hadel_cr_b; each has its
      cutflow entry `cutflow_` plus the key without `_signal`. */
  datatype Region = HadhadSignal | HadmuSignal | HadelSignal | HadmuControl | HadelControl

  /** A cut list usable as a cutflow: no cut twice, at least one. */
  predicate CutListSound(cuts: seq<Cut>) {
    NoDup(cuts) && |cuts| > 0
  }

  /** Each region's ordered list of selections. */
  function RegionCuts(r: Region): (cuts: seq<Cut>)
    ensures CutListSound(cuts)
  {
    match r
    case HadhadSignal => [JetAcceptance, HadhadTrigger, JetId, N2ddt, AntiBtagOppHem, Met, NoLeptons]
    case HadmuSignal => [JetAcceptance, HadmuTrigger, JetId, AntiBtagOppHem, Met, OneMuon, MuonKin, LepDrAK8, JetLsf]
    case HadelSignal => [JetAcceptance, HadelTrigger, JetId, AntiBtagOppHem, Met, OneElec, ElecKin, LepDrAK8, JetLsf]
    case HadmuControl => [JetAcceptance, HadmuTrigger, JetId, BtagAway08, Met, OneMuon, MuonKin, LepDrAK8, JetLsf]
    case HadelControl => [JetAcceptance, HadelTrigger, JetId, BtagAway08, Met, OneElec, ElecKin, LepDrAK8, JetLsf]
  }

  /** The regions in the order the region table lists them, which is the
      order histograms are filled. */
  const RegionOrder: seq<Region> := [HadhadSignal, HadmuSignal, HadelSignal, HadmuControl, HadelControl]

  /** The order of the cutflow loops. */
  const CutflowOrder: seq<Region> := [HadelSignal, HadmuSignal, HadelControl, HadmuControl, HadhadSignal]

  /** The four histograms: jet_kin, lep_kin, mass_kin and evt_kin. */
  datatype Hist = JetKin | LepKin | MassKin | EvtKin

  /** Both region orders list every region exactly once. */
  lemma RegionListed(r: Region)
    ensures NoDup(RegionOrder) && NoDup(CutflowOrder)
    ensures r in RegionOrder && r in CutflowOrder
  {
    match r
    case HadhadSignal =>
    case HadmuSignal =>
    case HadelSignal =>
    case HadmuControl =>
    case HadelControl =>
  }

  // ---------------------------------------------------------------------
  // Events

  datatype Muon = Muon(pt: real, eta: real, dz: real, dxy: real)

  /** `cutBased` is the electron identification level, compared against the
      LOOSE and TIGHT levels of the NanoAOD electron collection. */
  datatype Electron = Electron(pt: real, eta: real, cutBased: int)

  /** A large-radius jet; `msdcorr` and `n2ddt` come from corrections not
      modelled, `metDphi` is the signed azimuthal angle `delta_phi` from the
      jet to the missing momentum, in [-pi, pi). */
  datatype FatJet = FatJet(pt: real, eta: real, jetId: nat, msdcorr: real, n2ddt: real,
                           lsf3: real, metDphi: real)

  /** A small-radius jet; `candidateAbsDphi` is its absolute azimuthal
      distance to the candidate fat jet, when there is one. */
  datatype Jet = Jet(pt: real, jetId: nat, btagDeepB: real, candidateAbsDphi: real)

  /** One event. The lepton-jet angular cuts, the leading lepton's momentum
      and the jet-lepton(-MET) masses are four-vector results, given here. */
  datatype Event = Event(
    metPt: real,
    muons: seq<Muon>,
    electrons: seq<Electron>,
    fatJets: seq<FatJet>,
    jets: seq<Jet>,
    muonDphiAK8: bool,
    elecDphiAK8: bool,
    lepDrAK8: bool,
    lepPt: real,
    lepEta: real,
    jetLepMass: real,
    jetLepMetMass: real,
    genWeight: real,
    corrections: real)

  datatype Chunk = Chunk(dataset: string, hlt: map<Trigger, seq<bool>>, events: seq<Event>,
                         hasGenWeight: bool)

  /** Columns of a chunk have one entry per event. */
  predicate WellFormed(c: Chunk) {
    forall t :: t in c.hlt ==> |c.hlt[t]| == |c.events|
  }

  datatype ProcessError = UnknownYear(year: Year) | MissingBranch(trigger: Trigger)

  function AbsR(x: real): real {
    if x < 0.0 then -x else x
  }

  /** Bit 1 of the jet identification word, `jetId & 2`. */
  predicate TightJetId(jetId: nat) {
    (jetId / 2) % 2 == 1
  }

  // ---------------------------------------------------------------------
  // Jets

  predicate IsCandidateFatJet(j: FatJet) {
    j.pt > 200.0 && AbsR(j.eta) < 2.5 && TightJetId(j.jetId)
  }

  /** The candidate fat jets: the qualifying ones, truncated to the first two. */
  function CandidateJets(e: Event): (r: seq<FatJet>)
    ensures |r| <= 2
    ensures r <= Filter(e.fatJets, IsCandidateFatJet)
    ensures forall j :: j in r ==> j in e.fatJets && IsCandidateFatJet(j)
    ensures |r| == if Count(e.fatJets, IsCandidateFatJet) < 2 then Count(e.fatJets, IsCandidateFatJet) else 2
  {
    Take(Filter(e.fatJets, IsCandidateFatJet), 2)
  }

  /** The candidate jet: among the (at most two) candidates, the one with the
      smallest signed `metDphi`, the first one on ties. The angle is not
      taken in absolute value, so a jet back-to-back with the missing
      momentum on the negative side beats one aligned with it. */
  function CandidateJet(e: Event): (r: Option<FatJet>)
    ensures r.None? <==> CandidateJets(e) == []
    ensures r.Some? ==> r.value in CandidateJets(e)
    ensures r.Some? ==> forall j :: j in CandidateJets(e) ==> r.value.metDphi <= j.metDphi
    ensures |CandidateJets(e)| == 1 ==> r == Some(CandidateJets(e)[0])
    ensures |CandidateJets(e)| == 2 ==> r == Some(
      if CandidateJets(e)[1].metDphi < CandidateJets(e)[0].metDphi then CandidateJets(e)[1] else CandidateJets(e)[0])
  {
    var cj := CandidateJets(e);
    match ArgMin(seq(|cj|, i requires 0 <= i < |cj| => cj[i].metDphi))
    case None => None
    case Some(k) => Some(cj[k])
  }

  predicate IsGoodJet(j: Jet) {
    j.pt > 30.0 && TightJetId(j.jetId)
  }

  /** The small-radius jets considered: the qualifying ones, truncated to
      the first four. */
  function Ak4Jets(e: Event): (r: seq<Jet>)
    ensures |r| <= 4
    ensures r <= Filter(e.jets, IsGoodJet)
    ensures forall j :: j in r ==> j in e.jets && IsGoodJet(j)
    ensures |r| == if Count(e.jets, IsGoodJet) < 4 then Count(e.jets, IsGoodJet) else 4
  {
    Take(Filter(e.jets, IsGoodJet), 4)
  }

  /** numpy's pi / 2 as a double. */
  const HalfPi: real := 1.5707963267948966

  /** The jet is in the hemisphere opposite the candidate jet; with no
      candidate the test holds vacuously, as `.all()` over nothing does. */
  predicate OppositeHemisphere(e: Event, j: Jet) {
    CandidateJet(e).None? || j.candidateAbsDphi > HalfPi
  }

  predicate AwayFromCandidate(e: Event, j: Jet) {
    CandidateJet(e).None? || j.candidateAbsDphi > 0.8
  }

  // ---------------------------------------------------------------------
  // Event cuts

  predicate JetAcceptanceCut(e: Event) {
    match CandidateJet(e)
    case None => false
    case Some(j) => j.pt > 200.0 && j.msdcorr > 40.0 && AbsR(j.eta) < 2.4
  }

  predicate JetIdCut(e: Event) {
    CandidateJet(e).Some? && TightJetId(CandidateJet(e).value.jetId)
  }

  predicate N2ddtCut(e: Event) {
    CandidateJet(e).Some? && CandidateJet(e).value.n2ddt < 0.0
  }

  /** The largest b-tag score of the opposite-hemisphere jets is below the
      working point (the maximum over no jets is minus infinity). */
  predicate AntiBtagCut(e: Event, wp: real) {
    forall j :: j in Ak4Jets(e) && OppositeHemisphere(e, j) ==> j.btagDeepB < wp
  }

  /** The largest b-tag score of the jets away from the candidate exceeds the
      working point. */
  predicate BtagAwayCut(e: Event, wp: real) {
    exists j :: j in Ak4Jets(e) && AwayFromCandidate(e, j) && j.btagDeepB > wp
  }

  predicate MetCut(e: Event) {
    e.metPt > 25.0
  }

  predicate JetLsfCut(e: Event) {
    CandidateJet(e).Some? && CandidateJet(e).value.lsf3 > 0.7
  }

  // ---------------------------------------------------------------------
  // Leptons

  /** The NanoAOD electron identification levels LOOSE and TIGHT. */
  const ElectronLoose: int := 2
  const ElectronTight: int := 4

  predicate GoodMuon(m: Muon) {
    m.pt > 27.0 && AbsR(m.eta) < 2.4 && AbsR(m.dz) < 0.1 && AbsR(m.dxy) < 0.05
  }

  predicate LooseMuon(m: Muon) {
    m.pt > 20.0 && AbsR(m.eta) < 2.4 && AbsR(m.dz) < 0.1 && AbsR(m.dxy) < 0.05
  }

  predicate GoodElectron(el: Electron) {
    el.pt > 35.0 && AbsR(el.eta) < 2.5 && el.cutBased >= ElectronTight
  }

  predicate LooseElectron(el: Electron) {
    el.pt > 20.0 && AbsR(el.eta) < 2.5 && el.cutBased >= ElectronLoose
  }

  function NGoodMuons(e: Event): nat { Count(e.muons, GoodMuon) }
  function NMuons(e: Event): nat { Count(e.muons, LooseMuon) }
  function NGoodElecs(e: Event): nat { Count(e.electrons, GoodElectron) }
  function NElectrons(e: Event): nat { Count(e.electrons, LooseElectron) }

  /** Taus are not counted: the source's tau multiplicity is all zeros. */
  const NTaus: nat := 0

  predicate NoLeptonsCut(e: Event) {
    NMuons(e) == 0 && NElectrons(e) == 0 && NTaus == 0
  }

  predicate OneMuonCut(e: Event) {
    NMuons(e) == 1 && NElectrons(e) == 0 && NTaus == 0 && NGoodMuons(e) == 1
  }

  predicate OneElecCut(e: Event) {
    NMuons(e) == 0 && NElectrons(e) == 1 && NTaus == 0 && NGoodElecs(e) == 1
  }

  /** The single-lepton selection used to build the leading lepton. */
  predicate LepSel(e: Event) {
    || (NMuons(e) == 1 && NElectrons(e) == 0 && NTaus == 0 && NGoodMuons(e) == 1)
    || (NMuons(e) == 0 && NElectrons(e) == 1 && NTaus == 0 && NGoodElecs(e) == 1)
  }

  /** The first muon (of all muons) passes the kinematic cut; the padded
      entry of an event without muons takes no part. */
  predicate MuonKinCut(e: Event) {
    |e.muons| == 0 || (e.muons[0].pt > 27.0 && AbsR(e.muons[0].eta) < 2.1)
  }

  /** The first good electron passes the kinematic cut. */
  predicate ElecKinCut(e: Event) {
    var good := Filter(e.electrons, GoodElectron);
    |good| == 0 || (good[0].pt > 35.0 && AbsR(good[0].eta) < 2.4)
  }

  /** A loose muon is at least a good one, so good muons never outnumber the
      counted muons. */
  lemma GoodMuonsAreCounted(e: Event)
    ensures NGoodMuons(e) <= NMuons(e)
  {
    CountMonotone(e.muons, GoodMuon, LooseMuon);
  }

  /** Likewise for electrons, since TIGHT is at least LOOSE. */
  lemma GoodElectronsAreCounted(e: Event)
    ensures NGoodElecs(e) <= NElectrons(e)
  {
    CountMonotone(e.electrons, GoodElectron, LooseElectron);
  }

  /** The three lepton categories are pairwise exclusive, and the
      single-lepton selection is the union of the two one-lepton ones. */
  lemma LeptonCategories(e: Event)
    ensures !(NoLeptonsCut(e) && OneMuonCut(e))
    ensures !(NoLeptonsCut(e) && OneElecCut(e))
    ensures !(OneMuonCut(e) && OneElecCut(e))
    ensures LepSel(e) <==> OneMuonCut(e) || OneElecCut(e)
  {
  }

  // ---------------------------------------------------------------------
  // Triggers

  /** The OR of the listed HLT bits, event by event. */
  function TriggerColumn(hlt: map<Trigger, seq<bool>>, n: nat, triggers: seq<Trigger>): (m: seq<bool>)
    requires forall t :: t in triggers ==> t in hlt && |hlt[t]| == n
    ensures |m| == n
  {
    seq(n, i requires 0 <= i < n => exists t :: t in triggers && hlt[t][i])
  }

  /** The first listed trigger whose branch the chunk lacks, if any: the
      branch whose read raises first. */
  function FirstMissing(hlt: map<Trigger, seq<bool>>, triggers: seq<Trigger>): (r: Option<Trigger>)
    ensures r.None? <==> forall t :: t in triggers ==> t in hlt
    ensures r.Some? ==> r.value in triggers && r.value !in hlt
    ensures r.Some? ==> exists k :: 0 <= k < |triggers| && triggers[k] == r.value &&
                                    (forall j :: 0 <= j < k ==> triggers[j] in hlt)
  {
    if triggers == [] then None
    else if triggers[0] !in hlt then Some(triggers[0])
    else FirstMissing(hlt, triggers[1..])
  }

  /** A missing branch preceded only by present ones is the first missing. */
  lemma {:induction false} FirstMissingAt(hlt: map<Trigger, seq<bool>>, triggers: seq<Trigger>, k: nat)
    requires k < |triggers| && triggers[k] !in hlt
    requires forall j :: 0 <= j < k ==> triggers[j] in hlt
    ensures FirstMissing(hlt, triggers) == Some(triggers[k])
  {
    if k > 0 {
      FirstMissingAt(hlt, triggers[1..], k - 1);
    }
  }

  /** Reading the lists one after the other fails at the first list's first
      missing branch, or, when that list is complete, at the next one's. */
  lemma {:induction false} FirstMissingConcat(hlt: map<Trigger, seq<bool>>, a: seq<Trigger>, b: seq<Trigger>)
    ensures FirstMissing(hlt, a + b) == if FirstMissing(hlt, a).Some? then FirstMissing(hlt, a) else FirstMissing(hlt, b)
  {
    if a != [] {
      assert (a + b)[1..] == a[1..] + b;
      FirstMissingConcat(hlt, a[1..], b);
    } else {
      assert a + b == b;
    }
  }

  /** The trigger loop: start from all false and OR in each listed branch; a
      missing branch raises. */
  method TriggerMask(hlt: map<Trigger, seq<bool>>, n: nat, triggers: seq<Trigger>)
    returns (r: Result<seq<bool>, Trigger>)
    requires forall t :: t in hlt ==> |hlt[t]| == n
    ensures r.Ok? <==> forall t :: t in triggers ==> t in hlt
    ensures r.Ok? ==> |r.value| == n
    ensures r.Ok? ==> forall i :: 0 <= i < n ==> (r.value[i] <==> exists t :: t in triggers && hlt[t][i])
    ensures r.Err? ==> FirstMissing(hlt, triggers) == Some(r.error)
  {
    var mask := seq(n, i => false);
    var k := 0;
    while k < |triggers|
      invariant 0 <= k <= |triggers|
      invariant forall j :: 0 <= j < k ==> triggers[j] in hlt
      invariant |mask| == n
      invariant forall i :: 0 <= i < n ==> (mask[i] <==> exists j :: 0 <= j < k && hlt[triggers[j]][i])
    {
      var t := triggers[k];
      if t !in hlt {
        FirstMissingAt(hlt, triggers, k);
        return Err(t);
      }
      var column := hlt[t];
      mask := seq(n, i requires 0 <= i < n => mask[i] || column[i]);
      k := k + 1;
    }
    r := Ok(mask);
    forall i | 0 <= i < n
      ensures r.value[i] <==> exists t :: t in triggers && hlt[t][i]
    {
      if exists t :: t in triggers && hlt[t][i] {
        var t :| t in triggers && hlt[t][i];
        var j :| 0 <= j < |triggers| && triggers[j] == t;
      }
    }
  }

  /** For every year, the hadronic triggers are also in the muon and
      electron channels' lists. */
  lemma HadhadTriggersShared(year: Year)
    requires year in HadhadTriggers
    ensures year in HadmuTriggers && year in HadelTriggers
    ensures forall t :: t in HadhadTriggers[year] ==> t in HadmuTriggers[year] && t in HadelTriggers[year]
  {
    assert Hadmu2016[4..] == Hadhad2016 && Hadel2016[4..] == Hadhad2016;
    assert Hadmu2017[4..] == Hadhad2017 && Hadel2017[4..] == Hadhad2017;
    assert Hadmu2018[4..] == Hadhad2018 && Hadel2018[4..] == Hadhad2018;
  }

  // ---------------------------------------------------------------------
  // Selections

  /** A year for which every table has an entry. */
  predicate KnownYear(year: Year) {
    && year in HadhadTriggers && year in HadmuTriggers && year in HadelTriggers
    && "medium" in BtagWPs && year in BtagWPs["medium"]
  }

  predicate HasBranches(c: Chunk, triggers: seq<Trigger>) {
    forall t :: t in triggers ==> t in c.hlt
  }

  /** The per-year settings `process` looks up: the medium b-tag working
      point and the three trigger lists. */
  datatype YearSetup = YearSetup(wp: real, hadhad: seq<Trigger>, hadmu: seq<Trigger>, hadel: seq<Trigger>)

  function SetupOf(year: Year): YearSetup
    requires KnownYear(year)
  {
    YearSetup(BtagWPs["medium"][year], HadhadTriggers[year], HadmuTriggers[year], HadelTriggers[year])
  }

  /** The order in which `process` reads the trigger branches. */
  function ReadOrder(s: YearSetup): seq<Trigger> {
    s.hadhad + s.hadmu + s.hadel
  }

  /** The chunk carries every trigger branch the setup lists. */
  predicate Fits(c: Chunk, s: YearSetup) {
    HasBranches(c, s.hadhad) && HasBranches(c, s.hadmu) && HasBranches(c, s.hadel)
  }

  /** Every lookup of `process` succeeds. */
  predicate Processable(c: Chunk, year: Year) {
    KnownYear(year) && Fits(c, SetupOf(year))
  }

  /** A per-event cut as a column over the chunk. */
  function Column(events: seq<Event>, cut: Event -> bool): (m: seq<bool>)
    ensures |m| == |events|
    ensures forall i :: 0 <= i < |events| ==> (m[i] <==> cut(events[i]))
  {
    seq(|events|, i requires 0 <= i < |events| => cut(events[i]))
  }

  /** The b-tag cuts at a working point, as per-event cuts. */
  function AntiBtagAt(wp: real): Event -> bool {
    (e: Event) => AntiBtagCut(e, wp)
  }

  function BtagAwayAt(wp: real): Event -> bool {
    (e: Event) => BtagAwayCut(e, wp)
  }

  /** The lepton cuts on precomputed angular separations. */
  predicate MuonDphiCut(e: Event) {
    e.muonDphiAK8
  }

  predicate ElecDphiCut(e: Event) {
    e.elecDphiAK8
  }

  predicate LepDrCut(e: Event) {
    e.lepDrAK8
  }

  /** The named selections, one bit per event each. */
  type Selection = map<Cut, seq<bool>>

  /** Every selection is present, with one entry per event. */
  predicate FullSelection(sel: Selection, n: nat) {
    forall c: Cut :: c in sel && |sel[c]| == n
  }

  /** The selections as `process` adds them, one after another, from the
      three trigger masks and the working point. */
  function AddedSelections(events: seq<Event>, hadhad: seq<bool>, hadmu: seq<bool>, hadel: seq<bool>, wp: real): Selection {
    map[]
      [HadhadTrigger := hadhad]
      [HadmuTrigger := hadmu]
      [HadelTrigger := hadel]
      [JetAcceptance := Column(events, JetAcceptanceCut)]
      [JetId := Column(events, JetIdCut)]
      [N2ddt := Column(events, N2ddtCut)]
      [AntiBtagOppHem := Column(events, AntiBtagAt(wp))]
      [BtagAway08 := Column(events, BtagAwayAt(wp))]
      [Met := Column(events, MetCut)]
      [NoLeptons := Column(events, NoLeptonsCut)]
      [OneMuon := Column(events, OneMuonCut)]
      [OneElec := Column(events, OneElecCut)]
      [MuonKin := Column(events, MuonKinCut)]
      [MuonDphiAK8 := Column(events, MuonDphiCut)]
      [ElecKin := Column(events, ElecKinCut)]
      [ElecDphiAK8 := Column(events, ElecDphiCut)]
      [LepDrAK8 := Column(events, LepDrCut)]
      [JetLsf := Column(events, JetLsfCut)]
  }

  /** Whatever the columns, every selection ends up added, each with one
      entry per event. */
  lemma AddedSelectionsFull(events: seq<Event>, hadhad: seq<bool>, hadmu: seq<bool>, hadel: seq<bool>, wp: real)
    requires |hadhad| == |hadmu| == |hadel| == |events|
    ensures FullSelection(AddedSelections(events, hadhad, hadmu, hadel, wp), |events|)
  {
    var sel := AddedSelections(events, hadhad, hadmu, hadel, wp);
    forall k: Cut
      ensures k in sel && |sel[k]| == |events|
    {
      match k
      case HadhadTrigger =>
      case HadmuTrigger =>
      case HadelTrigger =>
      case JetAcceptance =>
      case JetId =>
      case N2ddt =>
      case AntiBtagOppHem =>
      case BtagAway08 =>
      case Met =>
      case NoLeptons =>
      case OneMuon =>
      case OneElec =>
      case MuonKin =>
      case MuonDphiAK8 =>
      case ElecKin =>
      case ElecDphiAK8 =>
      case LepDrAK8 =>
      case JetLsf =>
    }
  }

  /** The named selections of a chunk under a setup. */
  function SelectionWith(c: Chunk, s: YearSetup): (sel: Selection)
    requires WellFormed(c) && Fits(c, s)
    ensures FullSelection(sel, |c.events|)
  {
    var n := |c.events|;
    var hadhad := TriggerColumn(c.hlt, n, s.hadhad);
    var hadmu := TriggerColumn(c.hlt, n, s.hadmu);
    var hadel := TriggerColumn(c.hlt, n, s.hadel);
    AddedSelectionsFull(c.events, hadhad, hadmu, hadel, s.wp);
    AddedSelections(c.events, hadhad, hadmu, hadel, s.wp)
  }

  /** Each trigger selection holds, per event, whether any of the year's
      listed triggers fired. */
  lemma TriggerSelections(c: Chunk, s: YearSetup, i: nat)
    requires WellFormed(c) && Fits(c, s) && i < |c.events|
    ensures SelectionWith(c, s)[HadhadTrigger][i] <==> exists t :: t in s.hadhad && c.hlt[t][i]
    ensures SelectionWith(c, s)[HadmuTrigger][i] <==> exists t :: t in s.hadmu && c.hlt[t][i]
    ensures SelectionWith(c, s)[HadelTrigger][i] <==> exists t :: t in s.hadel && c.hlt[t][i]
  {
  }

  /** Each other jet and MET selection holds, per event, whether that event
      passes the cut. */
  lemma JetSelections(c: Chunk, s: YearSetup, i: nat)
    requires WellFormed(c) && Fits(c, s) && i < |c.events|
    ensures SelectionWith(c, s)[JetAcceptance][i] <==> JetAcceptanceCut(c.events[i])
    ensures SelectionWith(c, s)[JetId][i] <==> JetIdCut(c.events[i])
    ensures SelectionWith(c, s)[N2ddt][i] <==> N2ddtCut(c.events[i])
  {
  }

  /** The MET and lepton-subjet selections hold, per event, whether that
      event passes the cut. */
  lemma MetLsfSelections(c: Chunk, s: YearSetup, i: nat)
    requires WellFormed(c) && Fits(c, s) && i < |c.events|
    ensures SelectionWith(c, s)[Met][i] <==> MetCut(c.events[i])
    ensures SelectionWith(c, s)[JetLsf][i] <==> JetLsfCut(c.events[i])
  {
  }

  /** The b-tag selections hold, per event, whether that event passes the
      cut at the year's working point. */
  lemma BtagSelections(c: Chunk, s: YearSetup, i: nat)
    requires WellFormed(c) && Fits(c, s) && i < |c.events|
    ensures SelectionWith(c, s)[AntiBtagOppHem][i] <==> AntiBtagCut(c.events[i], s.wp)
    ensures SelectionWith(c, s)[BtagAway08][i] <==> BtagAwayCut(c.events[i], s.wp)
  {
  }

  /** Each lepton-count selection holds, per event, whether that event passes the
      cut. */
  lemma LeptonSelections(c: Chunk, s: YearSetup, i: nat)
    requires WellFormed(c) && Fits(c, s) && i < |c.events|
    ensures SelectionWith(c, s)[NoLeptons][i] <==> NoLeptonsCut(c.events[i])
    ensures SelectionWith(c, s)[OneMuon][i] <==> OneMuonCut(c.events[i])
    ensures SelectionWith(c, s)[OneElec][i] <==> OneElecCut(c.events[i])
  {
  }

  /** Each lepton kinematic and angular selection holds, per event, whether
      that event passes the cut. */
  lemma LeptonKinSelections(c: Chunk, s: YearSetup, i: nat)
    requires WellFormed(c) && Fits(c, s) && i < |c.events|
    ensures SelectionWith(c, s)[MuonKin][i] <==> MuonKinCut(c.events[i])
    ensures SelectionWith(c, s)[MuonDphiAK8][i] <==> c.events[i].muonDphiAK8
    ensures SelectionWith(c, s)[ElecKin][i] <==> ElecKinCut(c.events[i])
    ensures SelectionWith(c, s)[ElecDphiAK8][i] <==> c.events[i].elecDphiAK8
    ensures SelectionWith(c, s)[LepDrAK8][i] <==> c.events[i].lepDrAK8
  {
  }

  /** The named selections of a chunk in its year. */
  function SelectionOf(c: Chunk, year: Year): (sel: Selection)
    requires WellFormed(c) && Processable(c, year)
    ensures FullSelection(sel, |c.events|)
  {
    SelectionWith(c, SetupOf(year))
  }

  /** Every hadronic trigger is also listed for the lepton channels, so an
      event passing the hadronic trigger selection passes the muon and the
      electron trigger selections too. */
  lemma HadhadTriggerImpliesLeptonTriggers(c: Chunk, year: Year, i: nat)
    requires WellFormed(c) && Processable(c, year) && i < |c.events|
    ensures SelectionOf(c, year)[HadhadTrigger][i] ==>
      SelectionOf(c, year)[HadmuTrigger][i] && SelectionOf(c, year)[HadelTrigger][i]
  {
    TriggerSelections(c, SetupOf(year), i);
    HadhadTriggersShared(year);
    if SelectionOf(c, year)[HadhadTrigger][i] {
      var t :| t in SetupOf(year).hadhad && c.hlt[t][i];
      assert t in SetupOf(year).hadmu && t in SetupOf(year).hadel;
    }
  }

  /** Builds the named selections in the source's order: the three trigger
      masks (failing on an unknown year or a missing branch), then the jet,
      MET and lepton cuts. */
  method BuildSelection(c: Chunk, year: Year) returns (r: Result<Selection, ProcessError>)
    requires WellFormed(c)
    ensures r.Ok? <==> Processable(c, year)
    ensures r.Ok? ==> r.value == SelectionOf(c, year)
    ensures year !in HadhadTriggers ==> r == Err(UnknownYear(year))
    ensures KnownYear(year) && r.Err? ==> r == Err(MissingBranch(FirstMissing(c.hlt, ReadOrder(SetupOf(year))).value))
  {
    var n := |c.events|;
    var sel: Selection := map[];
    if year !in HadhadTriggers {
      return Err(UnknownYear(year));
    }
    var hadhad := TriggerMask(c.hlt, n, HadhadTriggers[year]);
    if hadhad.Err? {
      FirstMissingConcat(c.hlt, HadhadTriggers[year], HadmuTriggers[year]);
      FirstMissingConcat(c.hlt, HadhadTriggers[year] + HadmuTriggers[year], HadelTriggers[year]);
      return Err(MissingBranch(hadhad.error));
    }
    sel := sel[HadhadTrigger := hadhad.value];
    if year !in HadmuTriggers {
      return Err(UnknownYear(year));
    }
    var hadmu := TriggerMask(c.hlt, n, HadmuTriggers[year]);
    if hadmu.Err? {
      FirstMissingConcat(c.hlt, HadhadTriggers[year], HadmuTriggers[year]);
      FirstMissingConcat(c.hlt, HadhadTriggers[year] + HadmuTriggers[year], HadelTriggers[year]);
      return Err(MissingBranch(hadmu.error));
    }
    sel := sel[HadmuTrigger := hadmu.value];
    if year !in HadelTriggers {
      return Err(UnknownYear(year));
    }
    var hadel := TriggerMask(c.hlt, n, HadelTriggers[year]);
    if hadel.Err? {
      FirstMissingConcat(c.hlt, HadhadTriggers[year], HadmuTriggers[year]);
      FirstMissingConcat(c.hlt, HadhadTriggers[year] + HadmuTriggers[year], HadelTriggers[year]);
      return Err(MissingBranch(hadel.error));
    }
    sel := sel[HadelTrigger := hadel.value];
    sel := sel[JetAcceptance := Column(c.events, JetAcceptanceCut)];
    sel := sel[JetId := Column(c.events, JetIdCut)];
    sel := sel[N2ddt := Column(c.events, N2ddtCut)];
    if "medium" !in BtagWPs || year !in BtagWPs["medium"] {
      return Err(UnknownYear(year));
    }
    var wp := BtagWPs["medium"][year];
    sel := sel[AntiBtagOppHem := Column(c.events, AntiBtagAt(wp))];
    sel := sel[BtagAway08 := Column(c.events, BtagAwayAt(wp))];
    sel := sel[Met := Column(c.events, MetCut)];
    sel := sel[NoLeptons := Column(c.events, NoLeptonsCut)];
    sel := sel[OneMuon := Column(c.events, OneMuonCut)];
    sel := sel[OneElec := Column(c.events, OneElecCut)];
    sel := sel[MuonKin := Column(c.events, MuonKinCut)];
    sel := sel[MuonDphiAK8 := Column(c.events, MuonDphiCut)];
    sel := sel[ElecKin := Column(c.events, ElecKinCut)];
    sel := sel[ElecDphiAK8 := Column(c.events, ElecDphiCut)];
    sel := sel[LepDrAK8 := Column(c.events, LepDrCut)];
    sel := sel[JetLsf := Column(c.events, JetLsfCut)];
    ghost var s := YearSetup(wp, HadhadTriggers[year], HadmuTriggers[year], HadelTriggers[year]);
    assert s == SetupOf(year) && Fits(c, s);
    assert hadhad.value == TriggerColumn(c.hlt, n, s.hadhad);
    assert hadmu.value == TriggerColumn(c.hlt, n, s.hadmu);
    assert hadel.value == TriggerColumn(c.hlt, n, s.hadel);
    assert sel == AddedSelections(c.events, hadhad.value, hadmu.value, hadel.value, wp);
    return Ok(sel);
  }

  /** `selection.all(*names)`: the events passing every named selection. */
  function AllMask(sel: Selection, n: nat, names: set<Cut>): (m: seq<bool>)
    requires FullSelection(sel, n)
    ensures |m| == n
  {
    seq(n, i requires 0 <= i < n => forall c :: c in names ==> sel[c][i])
  }

  /** The events passing every cut of a region. */
  function RegionMask(sel: Selection, n: nat, region: Region): (m: seq<bool>)
    requires FullSelection(sel, n)
    ensures |m| == n
  {
    AllMask(sel, n, SetOf(RegionCuts(region)))
  }

  /** The nominal per-event weight: 1 for recorded data, the generator
      weight times the remaining corrections for simulation. */
  function Weights(c: Chunk): (ws: seq<real>)
    ensures |ws| == |c.events|
    ensures !c.hasGenWeight ==> forall i :: 0 <= i < |ws| ==> ws[i] == 1.0
  {
    seq(|c.events|, i requires 0 <= i < |c.events| =>
      if c.hasGenWeight then c.events[i].genWeight * c.events[i].corrections else 1.0)
  }

  function GenWeights(events: seq<Event>): seq<real> {
    seq(|events|, i requires 0 <= i < |events| => events[i].genWeight)
  }

  // ---------------------------------------------------------------------
  // Output accumulator

  /** One histogram fill: the axis values and the weight of one event. */
  datatype HistEntry = HistEntry(coords: seq<real>, weight: real)

  /** The step of a cutflow: the total before any cut ("none"), or the
      running set of cuts up to and including one cut. */
  datatype Step = NoCut | AfterCut(cut: Cut)

  /** (region's cutflow, dataset, step) -> summed weight; the nested default
      dictionaries of the five cutflow entries, flattened. */
  type Cutflows = map<(Region, string, Step), real>

  /** (histogram, dataset, region) -> fills, in order. */
  type Hists = map<(Hist, string, Region), seq<HistEntry>>

  /** A read of a float-valued default dictionary. */
  function Get(m: map<string, real>, k: string): real {
    if k in m then m[k] else 0.0
  }

  /** A read of `cutflow[dataset][step]`; a missing entry reads as 0. */
  function Entry(cf: Cutflows, region: Region, dataset: string, step: Step): real {
    if (region, dataset, step) in cf then cf[(region, dataset, step)] else 0.0
  }

  /** `cutflow[dataset][step] += x`: one entry grows by `x`, no other
      changes. */
  function Bump(cf: Cutflows, region: Region, dataset: string, step: Step, x: real): (r: Cutflows)
    ensures Entry(r, region, dataset, step) == Entry(cf, region, dataset, step) + x
    ensures forall g, d, s :: (g, d, s) != (region, dataset, step) ==> Entry(r, g, d, s) == Entry(cf, g, d, s)
  {
    cf[(region, dataset, step) := Entry(cf, region, dataset, step) + x]
  }

  /** The fills recorded in one bin of a histogram's categorical axes. */
  function Cell(hs: Hists, h: Hist, dataset: string, region: Region): seq<HistEntry> {
    if (h, dataset, region) in hs then hs[(h, dataset, region)] else []
  }

  /** Filling appends to one cell and leaves all others as they were. */
  function Append(hs: Hists, h: Hist, dataset: string, region: Region, es: seq<HistEntry>): (r: Hists)
    ensures Cell(r, h, dataset, region) == Cell(hs, h, dataset, region) + es
    ensures forall h', d, g :: (h', d, g) != (h, dataset, region) ==> Cell(r, h', d, g) == Cell(hs, h', d, g)
  {
    hs[(h, dataset, region) := Cell(hs, h, dataset, region) + es]
  }

  function EntryWeights(es: seq<HistEntry>): seq<real> {
    seq(|es|, i requires 0 <= i < |es| => es[i].weight)
  }

  /** One fill per event, its coordinates read across the axis columns. */
  function Entries(axes: seq<seq<real>>, ws: seq<real>): (r: seq<HistEntry>)
    requires forall a :: 0 <= a < |axes| ==> |axes[a]| == |ws|
    ensures |r| == |ws|
    ensures EntryWeights(r) == ws
    ensures forall i :: 0 <= i < |r| ==> |r[i].coords| == |axes|
    ensures forall i, a :: 0 <= i < |r| && 0 <= a < |axes| ==> r[i].coords[a] == axes[a][i]
  {
    seq(|ws|, i requires 0 <= i < |ws| =>
      HistEntry(seq(|axes|, a requires 0 <= a < |axes| => axes[a][i]), ws[i]))
  }

  /** The output accumulator: generator weight sums per dataset, the five
      cutflows, and the four histograms. */
  class Accumulator {
    var sumw: map<string, real>
    var cutflow: Cutflows
    var hists: Hists

    /** The empty accumulator (`identity()`). */
    constructor()
      ensures sumw == map[] && cutflow == map[] && hists == map[]
    {
      sumw := map[];
      cutflow := map[];
      hists := map[];
    }

    method AddSumw(dataset: string, x: real)
      modifies this
      ensures sumw == old(sumw)[dataset := Get(old(sumw), dataset) + x]
      ensures cutflow == old(cutflow) && hists == old(hists)
    {
      sumw := sumw[dataset := Get(sumw, dataset) + x];
    }

    method AddCutflow(region: Region, dataset: string, step: Step, x: real)
      modifies this
      ensures cutflow == Bump(old(cutflow), region, dataset, step, x)
      ensures sumw == old(sumw) && hists == old(hists)
    {
      cutflow := Bump(cutflow, region, dataset, step, x);
    }

    method Fill(h: Hist, dataset: string, region: Region, axes: seq<seq<real>>, ws: seq<real>)
      requires forall a :: 0 <= a < |axes| ==> |axes[a]| == |ws|
      modifies this
      ensures hists == Append(old(hists), h, dataset, region, Entries(axes, ws))
      ensures sumw == old(sumw) && cutflow == old(cutflow)
    {
      hists := Append(hists, h, dataset, region, Entries(axes, ws));
    }
  }

  // ---------------------------------------------------------------------
  // Cutflows

  /** The summed weight of the events passing every cut in `cuts`. */
  function PassingWeight(sel: Selection, n: nat, ws: seq<real>, cuts: seq<Cut>): real
    requires FullSelection(sel, n) && |ws| == n
  {
    Sum(Select(ws, AllMask(sel, n, SetOf(cuts))))
  }

  /** The region's cutflow holds, for `dataset`, the total weight under
      "none" and, under each of `cuts`, the weight passing that cut and all
      before it. */
  ghost predicate CutflowRecorded(cf: Cutflows, region: Region, dataset: string, cuts: seq<Cut>,
                                  sel: Selection, n: nat, ws: seq<real>) {
    && FullSelection(sel, n) && |ws| == n
    && Entry(cf, region, dataset, NoCut) == Sum(ws)
    && forall k :: 0 <= k < |cuts| ==> Entry(cf, region, dataset, AfterCut(cuts[k])) == PassingWeight(sel, n, ws, cuts[..k + 1])
  }

  /** The cutflow after the first `i` steps of a cutflow loop over `cuts`:
      step `j` adds, under the `j`-th cut, the weight passing the first `j`
      cuts. */
  function CutflowSteps(cf: Cutflows, region: Region, dataset: string, cuts: seq<Cut>,
                        sel: Selection, n: nat, ws: seq<real>, i: nat): Cutflows
    requires i <= |cuts| && FullSelection(sel, n) && |ws| == n
  {
    if i == 0 then cf
    else
      var prev := CutflowSteps(cf, region, dataset, cuts, sel, n, ws, i - 1);
      Bump(prev, region, dataset, AfterCut(cuts[i - 1]), PassingWeight(sel, n, ws, cuts[..i]))
  }

  /** One cutflow loop: add each cut to the running set and record the
      weight passing the whole set so far. */
  method RunCutflow(acc: Accumulator, region: Region, dataset: string, cuts: seq<Cut>,
                    sel: Selection, n: nat, ws: seq<real>)
    requires FullSelection(sel, n) && |ws| == n
    modifies acc
    ensures acc.cutflow == CutflowSteps(old(acc.cutflow), region, dataset, cuts, sel, n, ws, |cuts|)
    ensures acc.sumw == old(acc.sumw) && acc.hists == old(acc.hists)
  {
    ghost var start := acc.cutflow;
    var allcuts: set<Cut> := {};
    var i := 0;
    while i < |cuts|
      invariant 0 <= i <= |cuts|
      invariant allcuts == SetOf(cuts[..i])
      invariant acc.cutflow == CutflowSteps(start, region, dataset, cuts, sel, n, ws, i)
      invariant acc.sumw == old(acc.sumw) && acc.hists == old(acc.hists)
    {
      var cut := cuts[i];
      SetOfPrefix(cuts, i);
      allcuts := allcuts + {cut};
      ghost var cur := acc.cutflow;
      acc.AddCutflow(region, dataset, AfterCut(cut), Sum(Select(ws, AllMask(sel, n, allcuts))));
      CutflowStepsNext(cur, acc.cutflow, start, region, dataset, cuts, sel, n, ws, i, allcuts);
      i := i + 1;
    }
  }

  /** One more step of a cutflow loop adds the next cut to the running set
      and records the weight passing it. */
  lemma CutflowStepsNext(cur: Cutflows, next: Cutflows, cf: Cutflows, region: Region, dataset: string, cuts: seq<Cut>,
                         sel: Selection, n: nat, ws: seq<real>, i: nat, allcuts: set<Cut>)
    requires i < |cuts| && FullSelection(sel, n) && |ws| == n
    requires cur == CutflowSteps(cf, region, dataset, cuts, sel, n, ws, i)
    requires allcuts == SetOf(cuts[..i + 1])
    requires next == Bump(cur, region, dataset, AfterCut(cuts[i]), Sum(Select(ws, AllMask(sel, n, allcuts))))
    ensures next == CutflowSteps(cf, region, dataset, cuts, sel, n, ws, i + 1)
  {
  }

  /** What a cutflow loop records, entry by entry: each cut's entry grows by
      the weight passing that cut and every one before it; no other entry
      changes. */
  lemma {:induction false} CutflowStepsEntries(cf: Cutflows, region: Region, dataset: string, cuts: seq<Cut>,
                                               sel: Selection, n: nat, ws: seq<real>, i: nat)
    requires i <= |cuts| && FullSelection(sel, n) && |ws| == n
    requires NoDup(cuts)
    ensures forall k :: 0 <= k < i ==>
      Entry(CutflowSteps(cf, region, dataset, cuts, sel, n, ws, i), region, dataset, AfterCut(cuts[k])) ==
        Entry(cf, region, dataset, AfterCut(cuts[k])) + PassingWeight(sel, n, ws, cuts[..k + 1])
    ensures forall g, d, s: Step :: (g != region || d != dataset || !(s.AfterCut? && s.cut in cuts[..i])) ==>
      Entry(CutflowSteps(cf, region, dataset, cuts, sel, n, ws, i), g, d, s) == Entry(cf, g, d, s)
  {
    if i > 0 {
      CutflowStepsEntries(cf, region, dataset, cuts, sel, n, ws, i - 1);
      assert cuts[..i] == cuts[..i - 1] + [cuts[i - 1]];
      assert cuts[i - 1] !in cuts[..i - 1];
    }
  }

  /** A cutflow loop run on a cutflow holding only the region's total
      records the region's cutflow. */
  lemma CutflowStepsRecord(cf: Cutflows, region: Region, dataset: string, cuts: seq<Cut>,
                           sel: Selection, n: nat, ws: seq<real>)
    requires FullSelection(sel, n) && |ws| == n
    requires NoDup(cuts)
    requires Entry(cf, region, dataset, NoCut) == Sum(ws)
    requires forall c :: c in cuts ==> Entry(cf, region, dataset, AfterCut(c)) == 0.0
    ensures CutflowRecorded(CutflowSteps(cf, region, dataset, cuts, sel, n, ws, |cuts|), region, dataset, cuts, sel, n, ws)
  {
    var cf' := CutflowSteps(cf, region, dataset, cuts, sel, n, ws, |cuts|);
    CutflowStepsEntries(cf, region, dataset, cuts, sel, n, ws, |cuts|);
    assert Entry(cf', region, dataset, NoCut) == Entry(cf, region, dataset, NoCut);
    forall k | 0 <= k < |cuts|
      ensures Entry(cf', region, dataset, AfterCut(cuts[k])) == PassingWeight(sel, n, ws, cuts[..k + 1])
    {
      assert cuts[k] in cuts;
    }
  }

  /** A region's whole cutflow loop, over its own cut list. */
  function RegionLoop(cf: Cutflows, region: Region, dataset: string, sel: Selection, n: nat, ws: seq<real>): Cutflows
    requires FullSelection(sel, n) && |ws| == n
  {
    CutflowSteps(cf, region, dataset, RegionCuts(region), sel, n, ws, |RegionCuts(region)|)
  }

  /** A region's loop records its cutflow when it starts from its total
      alone, and leaves every other region's cutflow alone. */
  lemma RegionLoopEffect(cf: Cutflows, region: Region, dataset: string, sel: Selection, n: nat, ws: seq<real>)
    requires FullSelection(sel, n) && |ws| == n
    ensures forall g, d, s :: g != region ==> Entry(RegionLoop(cf, region, dataset, sel, n, ws), g, d, s) == Entry(cf, g, d, s)
    ensures (Entry(cf, region, dataset, NoCut) == Sum(ws) &&
             forall c :: c in RegionCuts(region) ==> Entry(cf, region, dataset, AfterCut(c)) == 0.0) ==>
      CutflowRecorded(RegionLoop(cf, region, dataset, sel, n, ws), region, dataset, RegionCuts(region), sel, n, ws)
  {
    var cuts := RegionCuts(region);
    CutflowStepsEntries(cf, region, dataset, cuts, sel, n, ws, |cuts|);
    if Entry(cf, region, dataset, NoCut) == Sum(ws) && forall c :: c in cuts ==> Entry(cf, region, dataset, AfterCut(c)) == 0.0 {
      CutflowStepsRecord(cf, region, dataset, cuts, sel, n, ws);
    }
  }

  /** The cutflow loops for the regions of `order`, one after another. */
  function CutflowLoops(cf: Cutflows, order: seq<Region>, dataset: string, sel: Selection, n: nat, ws: seq<real>): Cutflows
    requires FullSelection(sel, n) && |ws| == n
    decreases |order|
  {
    if order == [] then cf
    else CutflowLoops(RegionLoop(cf, order[0], dataset, sel, n, ws), order[1..], dataset, sel, n, ws)
  }

  /** The loops of other regions leave a region's cutflow alone. */
  lemma {:induction false} CutflowLoopsKeep(cf: Cutflows, order: seq<Region>, dataset: string, sel: Selection,
                                            n: nat, ws: seq<real>, region: Region)
    requires FullSelection(sel, n) && |ws| == n
    requires region !in order
    ensures forall d, s :: Entry(CutflowLoops(cf, order, dataset, sel, n, ws), region, d, s) == Entry(cf, region, d, s)
    decreases |order|
  {
    if order != [] {
      RegionLoopEffect(cf, order[0], dataset, sel, n, ws);
      CutflowLoopsKeep(RegionLoop(cf, order[0], dataset, sel, n, ws), order[1..], dataset, sel, n, ws, region);
    }
  }

  /** Running the loops of distinct regions, each starting from its total
      alone, records the cutflow of every region among them. */
  lemma {:induction false} CutflowLoopsRecord(cf: Cutflows, order: seq<Region>, dataset: string, sel: Selection,
                                              n: nat, ws: seq<real>, region: Region)
    requires FullSelection(sel, n) && |ws| == n
    requires NoDup(order) && region in order
    requires Entry(cf, region, dataset, NoCut) == Sum(ws)
    requires forall c :: c in RegionCuts(region) ==> Entry(cf, region, dataset, AfterCut(c)) == 0.0
    ensures CutflowRecorded(CutflowLoops(cf, order, dataset, sel, n, ws), region, dataset, RegionCuts(region), sel, n, ws)
    decreases |order|
  {
    var next := RegionLoop(cf, order[0], dataset, sel, n, ws);
    RegionLoopEffect(cf, order[0], dataset, sel, n, ws);
    if order[0] == region {
      assert region !in order[1..];
      CutflowLoopsKeep(next, order[1..], dataset, sel, n, ws, region);
      RecordedKept(next, CutflowLoops(next, order[1..], dataset, sel, n, ws), region, dataset, RegionCuts(region), sel, n, ws);
    } else {
      CutflowLoopsRecord(next, order[1..], dataset, sel, n, ws, region);
    }
  }

  /** A recorded cutflow stays recorded while its own entries are untouched. */
  lemma RecordedKept(cf: Cutflows, cf': Cutflows, region: Region, dataset: string, cuts: seq<Cut>,
                     sel: Selection, n: nat, ws: seq<real>)
    requires CutflowRecorded(cf, region, dataset, cuts, sel, n, ws)
    requires forall d, s :: Entry(cf', region, d, s) == Entry(cf, region, d, s)
    ensures CutflowRecorded(cf', region, dataset, cuts, sel, n, ws)
  {
  }

  /** The five totals under "none". */
  function Totals(dataset: string, total: real): Cutflows {
    var cf1 := Bump(map[], HadelSignal, dataset, NoCut, total);
    var cf2 := Bump(cf1, HadmuSignal, dataset, NoCut, total);
    var cf3 := Bump(cf2, HadelControl, dataset, NoCut, total);
    var cf4 := Bump(cf3, HadmuControl, dataset, NoCut, total);
    Bump(cf4, HadhadSignal, dataset, NoCut, total)
  }

  /** Every cutflow starts from the total under "none" and nothing under
      any cut. */
  lemma TotalsEntries(dataset: string, total: real)
    ensures forall region :: Entry(Totals(dataset, total), region, dataset, NoCut) == total
    ensures forall region, d, c :: Entry(Totals(dataset, total), region, d, AfterCut(c)) == 0.0
  {
    forall region
      ensures Entry(Totals(dataset, total), region, dataset, NoCut) == total
    {
      match region
      case HadhadSignal =>
      case HadmuSignal =>
      case HadelSignal =>
      case HadmuControl =>
      case HadelControl =>
    }
  }

  /** The cutflows of a chunk: the totals, then the five loops in the
      source's order. */
  function AllCutflows(dataset: string, sel: Selection, n: nat, ws: seq<real>): Cutflows
    requires FullSelection(sel, n) && |ws| == n
  {
    CutflowLoops(Totals(dataset, Sum(ws)), CutflowOrder, dataset, sel, n, ws)
  }

  /** Every region's cutflow is recorded in a chunk's cutflows. */
  lemma AllCutflowsRecorded(dataset: string, sel: Selection, n: nat, ws: seq<real>)
    requires FullSelection(sel, n) && |ws| == n
    ensures forall region :: CutflowRecorded(AllCutflows(dataset, sel, n, ws), region, dataset, RegionCuts(region), sel, n, ws)
  {
    forall region
      ensures CutflowRecorded(AllCutflows(dataset, sel, n, ws), region, dataset, RegionCuts(region), sel, n, ws)
    {
      RegionListed(region);
      TotalsEntries(dataset, Sum(ws));
      CutflowLoopsRecord(Totals(dataset, Sum(ws)), CutflowOrder, dataset, sel, n, ws, region);
    }
  }

  /** The total weight under "none" in each of the five cutflows. */
  method RecordTotals(acc: Accumulator, dataset: string, total: real)
    requires acc.cutflow == map[]
    modifies acc
    ensures acc.cutflow == Totals(dataset, total)
    ensures acc.sumw == old(acc.sumw) && acc.hists == old(acc.hists)
  {
    acc.AddCutflow(HadelSignal, dataset, NoCut, total);
    acc.AddCutflow(HadmuSignal, dataset, NoCut, total);
    acc.AddCutflow(HadelControl, dataset, NoCut, total);
    acc.AddCutflow(HadmuControl, dataset, NoCut, total);
    acc.AddCutflow(HadhadSignal, dataset, NoCut, total);
  }

  /** The five cutflows: first the total weight under "none" in each, then
      each region's cut list in turn. */
  method RecordCutflows(acc: Accumulator, dataset: string, sel: Selection, n: nat, ws: seq<real>)
    requires FullSelection(sel, n) && |ws| == n
    requires acc.cutflow == map[]
    modifies acc
    ensures acc.cutflow == AllCutflows(dataset, sel, n, ws)
    ensures acc.sumw == old(acc.sumw) && acc.hists == old(acc.hists)
  {
    RecordTotals(acc, dataset, Sum(ws));
    ghost var c0 := acc.cutflow;
    RunCutflow(acc, HadelSignal, dataset, RegionCuts(HadelSignal), sel, n, ws);
    ghost var c1 := acc.cutflow;
    RunCutflow(acc, HadmuSignal, dataset, RegionCuts(HadmuSignal), sel, n, ws);
    ghost var c2 := acc.cutflow;
    RunCutflow(acc, HadelControl, dataset, RegionCuts(HadelControl), sel, n, ws);
    ghost var c3 := acc.cutflow;
    RunCutflow(acc, HadmuControl, dataset, RegionCuts(HadmuControl), sel, n, ws);
    ghost var c4 := acc.cutflow;
    RunCutflow(acc, HadhadSignal, dataset, RegionCuts(HadhadSignal), sel, n, ws);
    FiveLoops(c0, c1, c2, c3, c4, acc.cutflow, dataset, sel, n, ws);
  }

  /** Five loops run one after another, in the order of `CutflowOrder`. */
  lemma FiveLoops(c0: Cutflows, c1: Cutflows, c2: Cutflows, c3: Cutflows, c4: Cutflows, c5: Cutflows,
                  dataset: string, sel: Selection, n: nat, ws: seq<real>)
    requires FullSelection(sel, n) && |ws| == n
    requires c1 == RegionLoop(c0, HadelSignal, dataset, sel, n, ws)
    requires c2 == RegionLoop(c1, HadmuSignal, dataset, sel, n, ws)
    requires c3 == RegionLoop(c2, HadelControl, dataset, sel, n, ws)
    requires c4 == RegionLoop(c3, HadmuControl, dataset, sel, n, ws)
    requires c5 == RegionLoop(c4, HadhadSignal, dataset, sel, n, ws)
    ensures c5 == CutflowLoops(c0, CutflowOrder, dataset, sel, n, ws)
  {
    assert c5 == CutflowLoops(c4, [HadhadSignal], dataset, sel, n, ws);
    assert c5 == CutflowLoops(c3, [HadmuControl, HadhadSignal], dataset, sel, n, ws);
    assert c5 == CutflowLoops(c2, [HadelControl, HadmuControl, HadhadSignal], dataset, sel, n, ws);
    assert c5 == CutflowLoops(c1, [HadmuSignal, HadelControl, HadmuControl, HadhadSignal], dataset, sel, n, ws);
  }

  /** Adding a cut to the running set never increases the events passing,
      and with non-negative weights never increases their weight; before
      any cut, everything passes. */
  lemma {:induction false} CumulativeCutsShrink(sel: Selection, n: nat, ws: seq<real>, cuts: seq<Cut>, k: nat)
    requires FullSelection(sel, n) && |ws| == n
    requires k < |cuts|
    ensures CountTrue(AllMask(sel, n, SetOf(cuts[..k + 1]))) <= CountTrue(AllMask(sel, n, SetOf(cuts[..k])))
    ensures (forall i :: 0 <= i < n ==> ws[i] >= 0.0) ==>
      PassingWeight(sel, n, ws, cuts[..k + 1]) <= PassingWeight(sel, n, ws, cuts[..k])
    ensures PassingWeight(sel, n, ws, cuts[..0]) == Sum(ws)
  {
    var small := AllMask(sel, n, SetOf(cuts[..k + 1]));
    var big := AllMask(sel, n, SetOf(cuts[..k]));
    assert SetOf(cuts[..k]) <= SetOf(cuts[..k + 1]) by {
      assert cuts[..k + 1] == cuts[..k] + [cuts[k]];
    }
    CountTrueMonotone(small, big);
    if forall i :: 0 <= i < n ==> ws[i] >= 0.0 {
      SelectSumMonotone(ws, small, big);
    }
    assert SetOf(cuts[..0]) == {};
    SelectAll(ws, AllMask(sel, n, {}));
  }

  /** A recorded cutflow, read from "none" down its cut list, never
      increases when the weights are non-negative. */
  lemma RecordedCutflowNonIncreasing(cf: Cutflows, region: Region, dataset: string, cuts: seq<Cut>,
                                     sel: Selection, n: nat, ws: seq<real>, k: nat)
    requires CutflowRecorded(cf, region, dataset, cuts, sel, n, ws)
    requires forall i :: 0 <= i < n ==> ws[i] >= 0.0
    requires k + 1 < |cuts|
    ensures Entry(cf, region, dataset, AfterCut(cuts[k + 1])) <= Entry(cf, region, dataset, AfterCut(cuts[k]))
    ensures Entry(cf, region, dataset, AfterCut(cuts[0])) <= Entry(cf, region, dataset, NoCut)
  {
    CumulativeCutsShrink(sel, n, ws, cuts, k + 1);
    CumulativeCutsShrink(sel, n, ws, cuts, 0);
  }

  // ---------------------------------------------------------------------
  // Histograms

  /** An event's value on a histogram axis: its first value, or 0 when it
      has none (`pad(1, clip=True).fillna(0)`). */
  function FirstOrZero(v: seq<real>): real {
    if |v| > 0 then v[0] else 0.0
  }

  /** `val[cut].pad(1, clip=True).fillna(0).flatten()`: one value per
      selected event, in event order; the selected event `i` comes after the
      `CountTrue(mask[..i])` selected events before it and contributes its
      first value, or 0 when it has none. */
  function Normalize(vals: seq<seq<real>>, mask: seq<bool>): (r: seq<real>)
    requires |vals| == |mask|
    ensures |r| == CountTrue(mask)
    ensures forall i :: 0 <= i < |vals| && mask[i] ==>
      CountTrue(mask[..i]) < |r| && r[CountTrue(mask[..i])] == FirstOrZero(vals[i])
    ensures forall x :: x in r ==> x == 0.0 || exists i :: 0 <= i < |vals| && |vals[i]| > 0 && x == vals[i][0]
  {
    var col := seq(|vals|, i requires 0 <= i < |vals| => FirstOrZero(vals[i]));
    SelectPositions(col, mask);
    Select(col, mask)
  }

  /** A candidate-jet quantity: one value when there is a candidate, none
      otherwise. */
  function CandidateValue(e: Event, f: FatJet -> real): seq<real> {
    match CandidateJet(e)
    case None => []
    case Some(j) => [f(j)]
  }

  /** A lepton-plus-candidate quantity exists only alongside the candidate. */
  function PairValue(e: Event, x: real): seq<real> {
    if CandidateJet(e).Some? then [x] else []
  }

  /** The three axis values of each histogram for one event. */
  function AxisValues(h: Hist, e: Event): (axes: seq<seq<real>>)
    ensures |axes| == 3
  {
    match h
    case JetKin =>
      [CandidateValue(e, (j: FatJet) => j.pt), CandidateValue(e, (j: FatJet) => j.eta), CandidateValue(e, (j: FatJet) => j.msdcorr)]
    case LepKin =>
      [[e.lepPt], [e.lepEta], CandidateValue(e, (j: FatJet) => j.lsf3)]
    case MassKin =>
      [CandidateValue(e, (j: FatJet) => j.msdcorr), PairValue(e, e.jetLepMass), PairValue(e, e.jetLepMetMass)]
    case EvtKin =>
      [[e.metPt], [e.lepPt], CandidateValue(e, (j: FatJet) => j.pt)]
  }

  /** The normalized axis columns of one histogram over the selected events. */
  function NormalizedAxes(h: Hist, events: seq<Event>, mask: seq<bool>): (axes: seq<seq<real>>)
    requires |events| == |mask|
    ensures |axes| == 3
    ensures forall a :: 0 <= a < 3 ==> |axes[a]| == CountTrue(mask)
    ensures forall a, i :: 0 <= a < 3 && 0 <= i < |events| && mask[i] ==>
      CountTrue(mask[..i]) < |axes[a]| && axes[a][CountTrue(mask[..i])] == FirstOrZero(AxisValues(h, events[i])[a])
  {
    seq(3, a requires 0 <= a < 3 =>
      Normalize(seq(|events|, i requires 0 <= i < |events| => AxisValues(h, events[i])[a]), mask))
  }

  /** The entry one event fills into a histogram: its three axis values and
      its weight. */
  function EventEntry(h: Hist, e: Event, w: real): HistEntry {
    HistEntry([FirstOrZero(AxisValues(h, e)[0]), FirstOrZero(AxisValues(h, e)[1]), FirstOrZero(AxisValues(h, e)[2])], w)
  }

  /** What one region's fill adds to a histogram: one three-axis entry per
      selected event, in event order, carrying that event's axis values and
      weight. */
  function FilledEntries(h: Hist, events: seq<Event>, mask: seq<bool>, ws: seq<real>): (r: seq<HistEntry>)
    requires |events| == |mask| == |ws|
    ensures |r| == CountTrue(mask)
    ensures EntryWeights(r) == Select(ws, mask)
    ensures forall i :: 0 <= i < |r| ==> |r[i].coords| == 3
    ensures forall i :: 0 <= i < |events| && mask[i] ==>
      CountTrue(mask[..i]) < |r| && r[CountTrue(mask[..i])] == EventEntry(h, events[i], ws[i])
  {
    var axes := NormalizedAxes(h, events, mask);
    var r := Entries(axes, Select(ws, mask));
    SelectPositions(ws, mask);
    r
  }

  /** The four fills of one region: each histogram's cell for the chunk's
      dataset and the region grows by the entries of the events `mask`
      selects. */
  function RegionFill(hs: Hists, c: Chunk, region: Region, mask: seq<bool>, ws: seq<real>): Hists
    requires |mask| == |ws| == |c.events|
  {
    var h1 := Append(hs, JetKin, c.dataset, region, FilledEntries(JetKin, c.events, mask, ws));
    var h2 := Append(h1, LepKin, c.dataset, region, FilledEntries(LepKin, c.events, mask, ws));
    var h3 := Append(h2, MassKin, c.dataset, region, FilledEntries(MassKin, c.events, mask, ws));
    Append(h3, EvtKin, c.dataset, region, FilledEntries(EvtKin, c.events, mask, ws))
  }

  /** A region's fill appends the region's entries to each of its four
      cells and touches no other cell. */
  lemma RegionFillCells(hs: Hists, c: Chunk, region: Region, mask: seq<bool>, ws: seq<real>)
    requires |mask| == |ws| == |c.events|
    ensures forall h :: (Cell(RegionFill(hs, c, region, mask, ws), h, c.dataset, region) ==
      Cell(hs, h, c.dataset, region) + FilledEntries(h, c.events, mask, ws))
    ensures forall h, d, g :: (d != c.dataset || g != region) ==>
      Cell(RegionFill(hs, c, region, mask, ws), h, d, g) == Cell(hs, h, d, g)
  {
    var d := c.dataset;
    var h1 := Append(hs, JetKin, d, region, FilledEntries(JetKin, c.events, mask, ws));
    var h2 := Append(h1, LepKin, d, region, FilledEntries(LepKin, c.events, mask, ws));
    var h3 := Append(h2, MassKin, d, region, FilledEntries(MassKin, c.events, mask, ws));
    var h4 := Append(h3, EvtKin, d, region, FilledEntries(EvtKin, c.events, mask, ws));
    assert h4 == RegionFill(hs, c, region, mask, ws);
    forall h
      ensures Cell(h4, h, d, region) == Cell(hs, h, d, region) + FilledEntries(h, c.events, mask, ws)
    {
      match h
      case JetKin =>
        assert Cell(h4, h, d, region) == Cell(h3, h, d, region) == Cell(h2, h, d, region) == Cell(h1, h, d, region);
      case LepKin =>
        assert Cell(h4, h, d, region) == Cell(h3, h, d, region) == Cell(h2, h, d, region);
        assert Cell(h1, h, d, region) == Cell(hs, h, d, region);
      case MassKin =>
        assert Cell(h4, h, d, region) == Cell(h3, h, d, region);
        assert Cell(h2, h, d, region) == Cell(h1, h, d, region) == Cell(hs, h, d, region);
      case EvtKin =>
        assert Cell(h3, h, d, region) == Cell(h2, h, d, region) == Cell(h1, h, d, region) == Cell(hs, h, d, region);
    }
  }

  /** The nested `fill` for one region and the nominal systematic. */
  method FillRegion(acc: Accumulator, c: Chunk, region: Region, sel: Selection, ws: seq<real>)
    requires FullSelection(sel, |c.events|) && |ws| == |c.events|
    modifies acc
    ensures acc.hists == RegionFill(old(acc.hists), c, region, RegionMask(sel, |c.events|, region), ws)
    ensures acc.sumw == old(acc.sumw) && acc.cutflow == old(acc.cutflow)
  {
    var mask := AllMask(sel, |c.events|, SetOf(RegionCuts(region)));
    var weight := Select(ws, mask);
    acc.Fill(JetKin, c.dataset, region, NormalizedAxes(JetKin, c.events, mask), weight);
    acc.Fill(LepKin, c.dataset, region, NormalizedAxes(LepKin, c.events, mask), weight);
    acc.Fill(MassKin, c.dataset, region, NormalizedAxes(MassKin, c.events, mask), weight);
    acc.Fill(EvtKin, c.dataset, region, NormalizedAxes(EvtKin, c.events, mask), weight);
  }

  /** The fills of the regions of `order`, one after another. */
  function FillLoops(hs: Hists, c: Chunk, order: seq<Region>, sel: Selection, ws: seq<real>): Hists
    requires FullSelection(sel, |c.events|) && |ws| == |c.events|
    decreases |order|
  {
    if order == [] then hs
    else
      var last := order[|order| - 1];
      RegionFill(FillLoops(hs, c, order[..|order| - 1], sel, ws), c, last, RegionMask(sel, |c.events|, last), ws)
  }

  /** One more region of the fill loop fills that region. */
  lemma FillLoopsNext(hs: Hists, c: Chunk, order: seq<Region>, sel: Selection, ws: seq<real>, i: nat)
    requires FullSelection(sel, |c.events|) && |ws| == |c.events| && i < |order|
    ensures FillLoops(hs, c, order[..i + 1], sel, ws) ==
      RegionFill(FillLoops(hs, c, order[..i], sel, ws), c, order[i], RegionMask(sel, |c.events|, order[i]), ws)
  {
    assert order[..i + 1][..i] == order[..i];
  }

  /** The fill loop: each region, in order, with the nominal systematic. */
  method FillRegions(acc: Accumulator, c: Chunk, sel: Selection, ws: seq<real>)
    requires FullSelection(sel, |c.events|) && |ws| == |c.events|
    modifies acc
    ensures acc.hists == FillLoops(old(acc.hists), c, RegionOrder, sel, ws)
    ensures acc.sumw == old(acc.sumw) && acc.cutflow == old(acc.cutflow)
  {
    var i := 0;
    while i < |RegionOrder|
      invariant 0 <= i <= |RegionOrder|
      invariant acc.hists == FillLoops(old(acc.hists), c, RegionOrder[..i], sel, ws)
      invariant acc.sumw == old(acc.sumw) && acc.cutflow == old(acc.cutflow)
    {
      FillLoopsNext(old(acc.hists), c, RegionOrder, sel, ws, i);
      FillRegion(acc, c, RegionOrder[i], sel, ws);
      i := i + 1;
    }
    assert RegionOrder[..|RegionOrder|] == RegionOrder;
  }

  /** Each histogram holds, for the chunk's dataset and the region, one fill
      per event `mask` selects, weighted by that event's weight. */
  ghost predicate RegionFilled(hs: Hists, c: Chunk, region: Region, mask: seq<bool>, ws: seq<real>) {
    && |mask| == |ws| == |c.events|
    && forall h :: Cell(hs, h, c.dataset, region) == FilledEntries(h, c.events, mask, ws)
  }

  /** The fills of other regions leave a region's cells alone. */
  lemma {:induction false} FillLoopsKeep(hs: Hists, c: Chunk, order: seq<Region>, sel: Selection, ws: seq<real>, region: Region)
    requires FullSelection(sel, |c.events|) && |ws| == |c.events|
    requires region !in order
    ensures forall h :: Cell(FillLoops(hs, c, order, sel, ws), h, c.dataset, region) == Cell(hs, h, c.dataset, region)
    decreases |order|
  {
    if order != [] {
      var init := order[..|order| - 1];
      var last := order[|order| - 1];
      assert forall g :: g in init ==> g in order;
      FillLoopsKeep(hs, c, init, sel, ws, region);
      RegionFillCells(FillLoops(hs, c, init, sel, ws), c, last, RegionMask(sel, |c.events|, last), ws);
    }
  }

  /** Filling distinct regions, each with empty cells to begin with, fills
      every region among them. */
  lemma {:induction false} FillLoopsFilled(hs: Hists, c: Chunk, order: seq<Region>, sel: Selection, ws: seq<real>, region: Region)
    requires FullSelection(sel, |c.events|) && |ws| == |c.events|
    requires NoDup(order) && region in order
    requires forall h :: Cell(hs, h, c.dataset, region) == []
    ensures RegionFilled(FillLoops(hs, c, order, sel, ws), c, region, RegionMask(sel, |c.events|, region), ws)
    decreases |order|
  {
    var init := order[..|order| - 1];
    var last := order[|order| - 1];
    assert order == init + [last];
    RegionFillCells(FillLoops(hs, c, init, sel, ws), c, last, RegionMask(sel, |c.events|, last), ws);
    if last == region {
      assert region !in init;
      FillLoopsKeep(hs, c, init, sel, ws, region);
    } else {
      assert NoDup(init) && region in init;
      FillLoopsFilled(hs, c, init, sel, ws, region);
    }
  }

  /** The fill loop over an empty accumulator fills every region. */
  lemma AllRegionsFilled(c: Chunk, sel: Selection, ws: seq<real>)
    requires FullSelection(sel, |c.events|) && |ws| == |c.events|
    ensures forall region ::
      RegionFilled(FillLoops(map[], c, RegionOrder, sel, ws), c, region, RegionMask(sel, |c.events|, region), ws)
  {
    forall region
      ensures RegionFilled(FillLoops(map[], c, RegionOrder, sel, ws), c, region, RegionMask(sel, |c.events|, region), ws)
    {
      RegionListed(region);
      FillLoopsFilled(map[], c, RegionOrder, sel, ws, region);
    }
  }

  /** What a region's histograms hold adds up to the last entry of its
      cutflow: both are the weight of the events passing every cut. */
  lemma HistogramMatchesCutflow(hs: Hists, cf: Cutflows, c: Chunk, region: Region, cuts: seq<Cut>,
                                sel: Selection, ws: seq<real>, h: Hist)
    requires CutflowRecorded(cf, region, c.dataset, cuts, sel, |c.events|, ws) && |cuts| > 0
    requires RegionFilled(hs, c, region, AllMask(sel, |c.events|, SetOf(cuts)), ws)
    ensures Sum(EntryWeights(Cell(hs, h, c.dataset, region))) == Entry(cf, region, c.dataset, AfterCut(cuts[|cuts| - 1]))
    ensures |Cell(hs, h, c.dataset, region)| == CountTrue(AllMask(sel, |c.events|, SetOf(cuts)))
  {
    assert cuts[..(|cuts| - 1) + 1] == cuts;
  }

  // ---------------------------------------------------------------------
  // The processor

  class HtautauProcessor {
    const year: Year

    constructor(year: Year := "2017")
      ensures this.year == year
    {
      this.year := year;
    }

    /** Processes one chunk. It fails, as the source raises, on a year
        missing from the tables or an HLT branch missing from the chunk. */
    method Process(chunk: Chunk) returns (r: Result<Accumulator, ProcessError>)
      requires WellFormed(chunk)
      ensures r.Ok? <==> Processable(chunk, year)
      ensures year !in HadhadTriggers ==> r == Err(UnknownYear(year))
      ensures KnownYear(year) && r.Err? ==>
        r == Err(MissingBranch(FirstMissing(chunk.hlt, ReadOrder(SetupOf(year))).value))
      ensures r.Ok? ==>
        r.value.sumw == (if chunk.hasGenWeight then map[chunk.dataset := Sum(GenWeights(chunk.events))] else map[])
      ensures r.Ok? ==>
        r.value.cutflow == AllCutflows(chunk.dataset, SelectionOf(chunk, year), |chunk.events|, Weights(chunk))
      ensures r.Ok? ==>
        r.value.hists == FillLoops(map[], chunk, RegionOrder, SelectionOf(chunk, year), Weights(chunk))
      ensures r.Ok? ==> forall region ::
        CutflowRecorded(r.value.cutflow, region, chunk.dataset, RegionCuts(region),
                        SelectionOf(chunk, year), |chunk.events|, Weights(chunk))
      ensures r.Ok? ==> forall region ::
        RegionFilled(r.value.hists, chunk, region, RegionMask(SelectionOf(chunk, year), |chunk.events|, region), Weights(chunk))
    {
      var output := new Accumulator();
      if chunk.hasGenWeight {
        output.AddSumw(chunk.dataset, Sum(GenWeights(chunk.events)));
      }
      var built := BuildSelection(chunk, year);
      if built.Err? {
        return Err(built.error);
      }
      var sel := built.value;
      var ws := Weights(chunk);
      RecordCutflows(output, chunk.dataset, sel, |chunk.events|, ws);
      FillRegions(output, chunk, sel, ws);
      AllCutflowsRecorded(chunk.dataset, sel, |chunk.events|, ws);
      AllRegionsFilled(chunk, sel, ws);
      return Ok(output);
    }
  }
}
