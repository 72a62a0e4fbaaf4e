/** Generator-level classification codes of boostedhiggs/common.py:
    the flavour of the boson a reconstructed jet is matched to
    (`matchedBosonFlavor`, `matchedBosonFlavorLep`) and the decay category of
    a Higgs to tau-tau event (`getHTauTauDecayInfo`).

    Angular distances, four-vector sums and the generator-flag filtering of
    `getParticles` are inputs: a candidate carries its distance to each
    boson, and the tau pair's closeness is a boolean. */
module TruthCodes {
  import opened Wrappers
  import opened Seqs

  /** A generator-level boson, by the PDG ids of its decay products. */
  datatype Boson = Boson(childIds: seq<int>)

  function Abs(x: int): nat {
    if x < 0 then -x else x
  }

  /** `match` with a cutoff: the index of the closest boson (the first one on
      ties), provided it is closer than `maxDr`. */
  function MatchIndex(dists: seq<real>, maxDr: real): (r: Option<nat>)
    ensures r.Some? ==> r.value < |dists| && dists[r.value] < maxDr
    ensures r.Some? ==> forall j :: 0 <= j < |dists| ==> dists[r.value] <= dists[j]
    ensures r.Some? ==> forall j :: 0 <= j < r.value ==> dists[r.value] < dists[j]
    ensures r.None? <==> forall j :: 0 <= j < |dists| ==> dists[j] >= maxDr
  {
    match ArgMin(dists)
    case None => None
    case Some(k) => if dists[k] < maxDr then Some(k) else None
  }

  predicate AnyChild(ids: seq<int>, id: nat) {
    exists i :: 0 <= i < |ids| && Abs(ids[i]) == id
  }

  /** Jet flavour code from the children of the matched boson:
      3 if some child is a b quark, plus 2 if some child is a c quark, plus 1
      if all children are light quarks (|id| < 4). */
  function GenFlavor(ids: seq<int>): int {
    (if AnyChild(ids, 5) then 3 else 0)
    + (if AnyChild(ids, 4) then 2 else 0)
    + (if forall i :: 0 <= i < |ids| ==> Abs(ids[i]) < 4 then 1 else 0)
  }

  /** The flavour code decoded: 5 is b and c, 3 is b without c, 2 is c without
      b, 1 is light quarks only (also no children at all), 0 is anything else;
      so 4 never occurs. */
  lemma {:induction false} GenFlavorMeaning(ids: seq<int>)
    ensures GenFlavor(ids) in {0, 1, 2, 3, 5}
    ensures GenFlavor(ids) == 5 <==> AnyChild(ids, 5) && AnyChild(ids, 4)
    ensures GenFlavor(ids) == 3 <==> AnyChild(ids, 5) && !AnyChild(ids, 4)
    ensures GenFlavor(ids) == 2 <==> !AnyChild(ids, 5) && AnyChild(ids, 4)
    ensures GenFlavor(ids) == 1 <==> forall i :: 0 <= i < |ids| ==> Abs(ids[i]) < 4
    ensures GenFlavor(ids) == 0 <==>
      !AnyChild(ids, 5) && !AnyChild(ids, 4) && exists i :: 0 <= i < |ids| && Abs(ids[i]) > 5
  {
    var light := forall i :: 0 <= i < |ids| ==> Abs(ids[i]) < 4;
    if AnyChild(ids, 5) || AnyChild(ids, 4) {
      assert !light;
    } else if !light {
      var i :| 0 <= i < |ids| && Abs(ids[i]) >= 4;
      assert Abs(ids[i]) > 5;
    }
  }

  /** `matchedBosonFlavor` for one candidate jet: 0 when unmatched, and
      otherwise the flavour code of the matched boson's children, a code in
      {0, 1, 2, 3, 5} that is 3 or 5 exactly when that boson decays to a b
      quark. */
  function MatchedBosonFlavor(dists: seq<real>, bosons: seq<Boson>, maxDr: real := 0.8): (r: int)
    requires |dists| == |bosons|
    ensures MatchIndex(dists, maxDr).None? ==> r == 0
    ensures MatchIndex(dists, maxDr).Some? ==> r == GenFlavor(bosons[MatchIndex(dists, maxDr).value].childIds)
    ensures r in {0, 1, 2, 3, 5}
    ensures (r == 3 || r == 5) <==>
      MatchIndex(dists, maxDr).Some? && AnyChild(bosons[MatchIndex(dists, maxDr).value].childIds, 5)
  {
    match MatchIndex(dists, maxDr)
    case None => 0
    case Some(k) =>
      GenFlavorMeaning(bosons[k].childIds);
      GenFlavor(bosons[k].childIds)
  }

  /** Lepton flavour code: 3 for a muon child, plus 2 for an electron child,
      plus 1 for a tau child (the source's last term is multiplied by 0). */
  function GenFlavorLep(ids: seq<int>): int {
    (if AnyChild(ids, 13) then 3 else 0)
    + (if AnyChild(ids, 11) then 2 else 0)
    + (if AnyChild(ids, 15) then 1 else 0)
  }

  /** The lepton flavour code decoded. Each code but 3 names one set of
      lepton children; 3 is either a muon alone or an electron with a tau. */
  lemma GenFlavorLepMeaning(ids: seq<int>)
    ensures 0 <= GenFlavorLep(ids) <= 6
    ensures GenFlavorLep(ids) >= 4 <==> AnyChild(ids, 13) && (AnyChild(ids, 11) || AnyChild(ids, 15))
    ensures GenFlavorLep(ids) == 6 <==> AnyChild(ids, 13) && AnyChild(ids, 11) && AnyChild(ids, 15)
    ensures GenFlavorLep(ids) == 5 <==> AnyChild(ids, 13) && AnyChild(ids, 11) && !AnyChild(ids, 15)
    ensures GenFlavorLep(ids) == 4 <==> AnyChild(ids, 13) && !AnyChild(ids, 11) && AnyChild(ids, 15)
    ensures GenFlavorLep(ids) == 3 <==>
      (AnyChild(ids, 13) && !AnyChild(ids, 11) && !AnyChild(ids, 15)) ||
      (!AnyChild(ids, 13) && AnyChild(ids, 11) && AnyChild(ids, 15))
    ensures GenFlavorLep(ids) == 2 <==> !AnyChild(ids, 13) && AnyChild(ids, 11) && !AnyChild(ids, 15)
    ensures GenFlavorLep(ids) == 1 <==> !AnyChild(ids, 13) && !AnyChild(ids, 11) && AnyChild(ids, 15)
    ensures GenFlavorLep(ids) == 0 <==> !AnyChild(ids, 13) && !AnyChild(ids, 11) && !AnyChild(ids, 15)
  {
  }

  /** `matchedBosonFlavorLep` for one candidate; an unmatched one gets 0,
      a matched one the lepton flavour code of the matched boson's
      children. */
  function MatchedBosonFlavorLep(dists: seq<real>, bosons: seq<Boson>, maxDr: real := 0.8): (r: int)
    requires |dists| == |bosons|
    ensures MatchIndex(dists, maxDr).None? ==> r == 0
    ensures MatchIndex(dists, maxDr).Some? ==> r == GenFlavorLep(bosons[MatchIndex(dists, maxDr).value].childIds)
    ensures 0 <= r <= 6
    ensures r == 0 <==> (MatchIndex(dists, maxDr).None? ||
      var ids := bosons[MatchIndex(dists, maxDr).value].childIds;
      !AnyChild(ids, 11) && !AnyChild(ids, 13) && !AnyChild(ids, 15))
  {
    match MatchIndex(dists, maxDr)
    case None => 0
    case Some(k) => GenFlavorLep(bosons[k].childIds)
  }

  /** A visible generator tau: its transverse momentum and its decay mode
      (`status` of GenVisTau). */
  datatype VisTau = VisTau(pt: real, status: int)

  /** Objects with positive transverse momentum, `(pt.fillna(0.) > 0.).sum()`. */
  function CountPositive(pts: seq<real>): nat {
    Count(pts, (x: real) => x > 0.0)
  }

  /** The base Higgs to tau-tau decay category from the numbers of hadronic
      taus, electrons from tau decays and muons from tau decays:
      1 had-had, 2 had-e, 3 had-mu, 4 e-mu, 5 e-e, 6 mu-mu, 0 otherwise. */
  function DecayCode(nHad: nat, nEl: nat, nMu: nat): (c: int)
    ensures 0 <= c <= 6
    ensures c != 0 <==> nHad + nEl + nMu == 2
  {
    (if nHad == 2 && nEl == 0 && nMu == 0 then 1 else 0)
    + (if nHad == 1 && nEl == 1 && nMu == 0 then 2 else 0)
    + (if nHad == 1 && nEl == 0 && nMu == 1 then 3 else 0)
    + (if nHad == 0 && nEl == 1 && nMu == 1 then 4 else 0)
    + (if nHad == 0 && nEl == 2 && nMu == 0 then 5 else 0)
    + (if nHad == 0 && nEl == 0 && nMu == 2 then 6 else 0)
  }

  /** The tau-pair content a decay category stands for, as (hadronic,
      electron, muon) counts. */
  function DecayContent(c: int): (n: (nat, nat, nat))
    requires 1 <= c <= 6
    ensures n.0 + n.1 + n.2 == 2
  {
    if c == 1 then (2, 0, 0)
    else if c == 2 then (1, 1, 0)
    else if c == 3 then (1, 0, 1)
    else if c == 4 then (0, 1, 1)
    else if c == 5 then (0, 2, 0)
    else (0, 0, 2)
  }

  /** The category is a faithful code: at most one condition holds, so the
      code determines the counts and vice versa. */
  lemma DecayCodeRoundTrip(nHad: nat, nEl: nat, nMu: nat)
    ensures DecayCode(nHad, nEl, nMu) != 0 ==>
      DecayContent(DecayCode(nHad, nEl, nMu)) == (nHad, nEl, nMu)
  {
  }

  lemma DecayContentRoundTrip(c: int)
    requires 1 <= c <= 6
    ensures DecayCode(DecayContent(c).0, DecayContent(c).1, DecayContent(c).2) == c
  {
  }

  /** Hadronic tau decay mode code: status 0 (one prong) gives 1, status 1
      or 2 (one prong with neutral pions) gives 2, status 10 or 11 (three
      prongs) gives 3, anything else 0. */
  function HadTauCode(status: int): (c: int)
    ensures 0 <= c <= 3
    ensures c == 1 <==> status == 0
    ensures c == 2 <==> status == 1 || status == 2
    ensures c == 3 <==> status == 10 || status == 11
  {
    (if status == 0 then 1 else 0)
    + (if status == 1 || status == 2 then 2 else 0)
    + (if status == 10 || status == 11 then 3 else 0)
  }

  /** Status of the i-th visible tau, 15 when there is none. */
  function StatusOr15(taus: seq<VisTau>, i: nat): int {
    if i < |taus| then taus[i].status else 15
  }

  /** The (up to) two leading entries of the concatenated tau momenta all
      exceed 25 GeV; padded entries take no part. */
  predicate LeadingTausHard(pts: seq<real>) {
    forall i :: 0 <= i < |pts| && i < 2 ==> pts[i] > 25.0
  }

  datatype DecayInfo = DecayInfo(hTauTau: int, hadTau1: int, hadTau2: int)

  /** `getHTauTauDecayInfo` for one event. `closePair` states that some pair
      of the two leading taus lies within 0 < dR < 0.8. The category is kept
      when the taus pass that and the momentum cut; otherwise, with `mod`, it
      is zeroed, and without it, negated. The two hadronic codes are those of
      the first and second visible tau's decay mode. */
  function HTauTauDecayInfo(visTaus: seq<VisTau>, elTauPts: seq<real>, muTauPts: seq<real>,
                            closePair: bool, mod: bool := false): (r: DecayInfo)
    ensures var visPts := seq(|visTaus|, i requires 0 <= i < |visTaus| => visTaus[i].pt);
            var base := DecayCode(CountPositive(visPts), CountPositive(elTauPts), CountPositive(muTauPts));
            var passes := closePair && LeadingTausHard(visPts + elTauPts + muTauPts);
            r.hTauTau == (if passes then base else if mod then 0 else -base)
    ensures -6 <= r.hTauTau <= 6
    ensures r.hadTau1 == HadTauCode(StatusOr15(visTaus, 0)) && r.hadTau2 == HadTauCode(StatusOr15(visTaus, 1))
    ensures 0 <= r.hadTau1 <= 3 && 0 <= r.hadTau2 <= 3
    ensures visTaus == [] ==> r.hadTau1 == 0 && r.hadTau2 == 0
  {
    var visPts := seq(|visTaus|, i requires 0 <= i < |visTaus| => visTaus[i].pt);
    var base := DecayCode(CountPositive(visPts), CountPositive(elTauPts), CountPositive(muTauPts));
    var passes := closePair && LeadingTausHard(visPts + elTauPts + muTauPts);
    var hTauTau := if mod then base * (if passes then 1 else 0)
                   else base * (2 * (if passes then 1 else 0) - 1);
    DecayInfo(hTauTau, HadTauCode(StatusOr15(visTaus, 0)), HadTauCode(StatusOr15(visTaus, 1)))
  }
}
