/**
 * Light-nuclei efficiency tasks. The generated-level task counts physical
 * primary pions, antiprotons and antihelium-3 within |y| <= 0.5; the
 * reconstructed-level task gates events on sel8 and tracks on having ITS
 * clusters, fills TPC and ITS QA histograms, and counts a track for a species
 * when its TPC n-sigma lies in the open window (low, high), its Monte Carlo
 * particle has that species' PDG code and its rapidity lies in (-0.5, 0.5).
 */
module NucleiSpectraEfficiencyLight {
  import opened Wrappers
  import opened Histograms

  const PdgPion := 211
  const PdgAntiProton := -2212
  const PdgAntiHelium3 := -1000020030

  function Abs(x: real): real
  {
    if x < 0.0 then -x else x
  }

  // ---------------------------------------------------------------------------
  // Generated particles
  // ---------------------------------------------------------------------------

  /** A generated Monte Carlo particle; its rapidity is computed by the framework. */
  datatype McParticle = McParticle(isPhysicalPrimary: bool, y: real, pdgCode: int, pt: real)

  datatype GenHist = HistGenPtPion | HistGenPtProton | HistGenPtHe3

  /** One iteration of the generated-particle loop. */
  function GenFill(h: Registry<GenHist>, p: McParticle): Registry<GenHist>
  {
    if !p.isPhysicalPrimary then h
    else if Abs(p.y) > 0.5 then h
    else
      var h1 := if p.pdgCode == PdgPion then Fill(h, HistGenPtPion, Entry1(p.pt)) else h;
      var h2 := if p.pdgCode == PdgAntiProton then Fill(h1, HistGenPtProton, Entry1(p.pt)) else h1;
      if p.pdgCode == PdgAntiHelium3 then Fill(h2, HistGenPtHe3, Entry1(p.pt)) else h2
  }

  /** The registry after the generated-particle loop has visited `ps` in order. */
  function GenFills(h: Registry<GenHist>, ps: seq<McParticle>): Registry<GenHist>
  {
    if ps == [] then h else GenFill(GenFills(h, ps[..|ps| - 1]), ps[|ps| - 1])
  }

  /**
   * The histogram a generated particle is counted in, if any: none unless it
   * is a physical primary with |y| <= 0.5, then decided by its PDG code alone.
   */
  function GenClass(p: McParticle): Option<GenHist>
  {
    if !p.isPhysicalPrimary || Abs(p.y) > 0.5 then None
    else if p.pdgCode == PdgPion then Some(HistGenPtPion)
    else if p.pdgCode == PdgAntiProton then Some(HistGenPtProton)
    else if p.pdgCode == PdgAntiHelium3 then Some(HistGenPtHe3)
    else None
  }

  /** A generated particle adds its pt to the one histogram GenClass names, and to no other. */
  lemma GenFillEffect(h: Registry<GenHist>, p: McParticle, k: GenHist)
    ensures Entries(GenFill(h, p), k) == Entries(h, k) + if GenClass(p) == Some(k) then [Entry1(p.pt)] else []
  {
  }

  /** Number of particles of `ps` that GenClass puts into histogram `k`. */
  function NumGenClassified(ps: seq<McParticle>, k: GenHist): (n: nat)
    ensures n <= |ps|
  {
    if ps == [] then 0
    else NumGenClassified(ps[..|ps| - 1], k) + if GenClass(ps[|ps| - 1]) == Some(k) then 1 else 0
  }

  /** Over the whole loop, each histogram gains exactly one entry per particle classified into it. */
  lemma {:induction false} GenFillsCount(h: Registry<GenHist>, ps: seq<McParticle>, k: GenHist)
    ensures Count(GenFills(h, ps), k) == Count(h, k) + NumGenClassified(ps, k)
  {
    if ps != [] {
      GenFillsCount(h, ps[..|ps| - 1], k);
      GenFillEffect(GenFills(h, ps[..|ps| - 1]), ps[|ps| - 1], k);
    }
  }

  /** Non-primaries and particles with |y| > 0.5 are skipped: removing them changes nothing. */
  lemma {:induction false} GenSkipsUnselected(h: Registry<GenHist>, ps: seq<McParticle>, q: McParticle)
    requires !q.isPhysicalPrimary || Abs(q.y) > 0.5
    ensures GenFills(h, ps + [q]) == GenFills(h, ps)
  {
    assert (ps + [q])[..|ps + [q]| - 1] == ps;
  }

  /** The three histograms together gain at most one entry per particle. */
  lemma GenAtMostOneHistogram(h: Registry<GenHist>, p: McParticle)
    ensures Count(GenFill(h, p), HistGenPtPion) + Count(GenFill(h, p), HistGenPtProton) + Count(GenFill(h, p), HistGenPtHe3)
         <= Count(h, HistGenPtPion) + Count(h, HistGenPtProton) + Count(h, HistGenPtHe3) + 1
  {
    GenFillEffect(h, p, HistGenPtPion);
    GenFillEffect(h, p, HistGenPtProton);
    GenFillEffect(h, p, HistGenPtHe3);
  }

  /** The generated-level task and its registry. */
  class NucleiSpectraEfficiencyLightGen {
    var spectra: Registry<GenHist>

    constructor ()
      ensures spectra == map[]
    {
      spectra := map[];
    }

    /** Loop over the generated particles of one Monte Carlo collision. */
    method Process(mcParticles: seq<McParticle>)
      modifies this
      ensures spectra == GenFills(old(spectra), mcParticles)
    {
      for i := 0 to |mcParticles|
        invariant spectra == GenFills(old(spectra), mcParticles[..i])
      {
        var p := mcParticles[i];
        assert mcParticles[..i + 1][..i] == mcParticles[..i];
        if !p.isPhysicalPrimary {
          continue;
        }
        if Abs(p.y) > 0.5 {
          continue;
        }
        if p.pdgCode == PdgPion {
          spectra := Fill(spectra, HistGenPtPion, Entry1(p.pt));
        }
        if p.pdgCode == PdgAntiProton {
          spectra := Fill(spectra, HistGenPtProton, Entry1(p.pt));
        }
        if p.pdgCode == PdgAntiHelium3 {
          spectra := Fill(spectra, HistGenPtHe3, Entry1(p.pt));
        }
      }
      assert mcParticles[..|mcParticles|] == mcParticles;
    }
  }

  // ---------------------------------------------------------------------------
  // Reconstructed tracks
  // ---------------------------------------------------------------------------

  /** A reconstructed collision (already filtered on its z-vertex by the framework). */
  datatype RecCollision = RecCollision(sel8: bool, posZ: real)

  /**
   * A reconstructed track with its Monte Carlo label. `he3NSigmaShift` is the
   * momentum-dependent correction added to the helium-3 n-sigma, and the three
   * rapidities are those of the track under the pion, proton and helium-3 mass
   * hypotheses (helium-3 with twice the track pt); all are computed by foreign
   * code and taken as given.
   */
  datatype RecTrack = RecTrack(
    itsNCls: nat,
    pt: real,
    sign: int,
    tpcInnerParam: real,
    tpcSignal: real,
    tpcNSigmaPi: real,
    tpcNSigmaPr: real,
    tpcNSigmaHe: real,
    he3NSigmaShift: real,
    mcPdgCode: int,
    mcIsPhysicalPrimary: bool,
    rapidityPion: real,
    rapidityProton: real,
    rapidityHe3: real)

  datatype RecHist =
    | HistEvSel | HistRecVtxZ
    | HistRecPtPion | HistRecPtProton | HistRecPtHe3
    | HistTpcSignal | HistTpcNsigmaPi | HistTpcNsigmaPr | HistTpcNsigmaHe3
    | HistItsClusters

  /** The two labelled bins of the event-selection histogram. */
  const BinAll := 0.0
  const BinSel8 := 1.0

  /** The open n-sigma window of the reconstructed selection. */
  predicate InWindow(nsigma: real, low: real, high: real)
  {
    nsigma > low && nsigma < high
  }

  predicate InRapidity(y: real)
  {
    y > -0.5 && y < 0.5
  }

  /** The rigidity signed by the track charge, the abscissa of the dE/dx plot. */
  function SignedInnerParam(t: RecTrack): real
  {
    t.tpcInnerParam * t.sign as real
  }

  function NSigmaHe3(t: RecTrack): real
  {
    t.tpcNSigmaHe + t.he3NSigmaShift
  }

  /** The TPC and ITS QA fills of a track that has ITS clusters. */
  function RecQaFill(h: Registry<RecHist>, t: RecTrack): Registry<RecHist>
  {
    var h1 := Fill(h, HistTpcSignal, Entry2(SignedInnerParam(t), t.tpcSignal));
    var h2 := Fill(h1, HistTpcNsigmaPi, Entry2(t.tpcInnerParam, t.tpcNSigmaPi));
    var h3 := Fill(h2, HistTpcNsigmaPr, Entry2(t.tpcInnerParam, t.tpcNSigmaPr));
    var h4 := Fill(h3, HistTpcNsigmaHe3, Entry2(t.tpcInnerParam, NSigmaHe3(t)));
    Fill(h4, HistItsClusters, Entry1(t.itsNCls as real))
  }

  /** The three species checks of a track that has ITS clusters, in source order. */
  function RecSpeciesFill(h: Registry<RecHist>, low: real, high: real, t: RecTrack): Registry<RecHist>
  {
    var h1 :=
      if InWindow(t.tpcNSigmaPi, low, high) && t.mcPdgCode == PdgPion && t.mcIsPhysicalPrimary && InRapidity(t.rapidityPion)
      then Fill(h, HistRecPtPion, Entry1(t.pt)) else h;
    var h2 :=
      if InWindow(t.tpcNSigmaPr, low, high) && t.mcPdgCode == PdgAntiProton && t.mcIsPhysicalPrimary && InRapidity(t.rapidityProton)
      then Fill(h1, HistRecPtProton, Entry1(t.pt)) else h1;
    if InWindow(NSigmaHe3(t), low, high) && t.mcPdgCode == PdgAntiHelium3 && InRapidity(t.rapidityHe3)
    then Fill(h2, HistRecPtHe3, Entry1(t.pt * 2.0)) else h2
  }

  /** One iteration of the reconstructed-track loop: tracks without ITS clusters are skipped. */
  function RecTrackFill(h: Registry<RecHist>, low: real, high: real, t: RecTrack): Registry<RecHist>
  {
    if t.itsNCls == 0 then h else RecSpeciesFill(RecQaFill(h, t), low, high, t)
  }

  /** The registry after the reconstructed-track loop has visited `ts` in order. */
  function RecTrackFills(h: Registry<RecHist>, low: real, high: real, ts: seq<RecTrack>): Registry<RecHist>
  {
    if ts == [] then h else RecTrackFill(RecTrackFills(h, low, high, ts[..|ts| - 1]), low, high, ts[|ts| - 1])
  }

  /** The registry after process has run on one collision and its tracks. */
  function RecProcess(h: Registry<RecHist>, low: real, high: real, c: RecCollision, ts: seq<RecTrack>): Registry<RecHist>
  {
    var h1 := Fill(h, HistEvSel, Entry1(BinAll));
    if !c.sel8 then h1
    else
      var h2 := Fill(Fill(h1, HistEvSel, Entry1(BinSel8)), HistRecVtxZ, Entry1(c.posZ));
      RecTrackFills(h2, low, high, ts)
  }

  /**
   * The reconstructed-species histogram a track is counted in and the value
   * filled: the PDG codes are mutually exclusive, so there is at most one;
   * helium-3 is recorded at twice the track pt and, unlike pions and
   * antiprotons, is not required to be a physical primary.
   */
  function RecClass(t: RecTrack, low: real, high: real): Option<(RecHist, real)>
  {
    if t.itsNCls == 0 then None
    else if t.mcPdgCode == PdgPion then
      (if InWindow(t.tpcNSigmaPi, low, high) && t.mcIsPhysicalPrimary && InRapidity(t.rapidityPion)
       then Some((HistRecPtPion, t.pt)) else None)
    else if t.mcPdgCode == PdgAntiProton then
      (if InWindow(t.tpcNSigmaPr, low, high) && t.mcIsPhysicalPrimary && InRapidity(t.rapidityProton)
       then Some((HistRecPtProton, t.pt)) else None)
    else if t.mcPdgCode == PdgAntiHelium3 then
      (if InWindow(NSigmaHe3(t), low, high) && InRapidity(t.rapidityHe3)
       then Some((HistRecPtHe3, t.pt * 2.0)) else None)
    else None
  }

  predicate IsSpeciesHist(k: RecHist)
  {
    k == HistRecPtPion || k == HistRecPtProton || k == HistRecPtHe3
  }

  predicate IsQaHist(k: RecHist)
  {
    k == HistTpcSignal || k == HistTpcNsigmaPi || k == HistTpcNsigmaPr || k == HistTpcNsigmaHe3 || k == HistItsClusters
  }

  /** The entry a classification adds to histogram `k`. */
  function ClassEntries(c: Option<(RecHist, real)>, k: RecHist): seq<Entry>
  {
    match c
    case Some((j, v)) => if j == k then [Entry1(v)] else []
    case None => []
  }

  /** The QA fills add one entry to each QA histogram and touch no other. */
  lemma RecQaFillEffect(h: Registry<RecHist>, t: RecTrack, k: RecHist)
    ensures Count(RecQaFill(h, t), k) == Count(h, k) + if IsQaHist(k) then 1 else 0
    ensures !IsQaHist(k) ==> Entries(RecQaFill(h, t), k) == Entries(h, k)
  {
  }

  /** The species checks add exactly the entry RecClass names. */
  lemma RecSpeciesFillEffect(h: Registry<RecHist>, low: real, high: real, t: RecTrack, k: RecHist)
    requires t.itsNCls != 0
    ensures Entries(RecSpeciesFill(h, low, high, t), k) == Entries(h, k) + ClassEntries(RecClass(t, low, high), k)
  {
  }

  /**
   * One track: a species histogram gains the entry RecClass names (and only
   * that one); a track with ITS clusters adds one entry to each QA histogram;
   * the event histograms are untouched; a track without ITS clusters changes
   * nothing.
   */
  lemma RecTrackFillEffect(h: Registry<RecHist>, low: real, high: real, t: RecTrack, k: RecHist)
    ensures IsSpeciesHist(k) ==>
      Entries(RecTrackFill(h, low, high, t), k) == Entries(h, k) + ClassEntries(RecClass(t, low, high), k)
    ensures IsQaHist(k) ==>
      Count(RecTrackFill(h, low, high, t), k) == Count(h, k) + if t.itsNCls == 0 then 0 else 1
    ensures !IsSpeciesHist(k) && !IsQaHist(k) ==> Entries(RecTrackFill(h, low, high, t), k) == Entries(h, k)
    ensures t.itsNCls == 0 ==> RecTrackFill(h, low, high, t) == h
  {
    if t.itsNCls != 0 {
      RecQaFillEffect(h, t, k);
      RecSpeciesFillEffect(RecQaFill(h, t), low, high, t, k);
    }
  }

  /** Number of tracks of `ts` that RecClass puts into histogram `k`. */
  function NumRecClassified(ts: seq<RecTrack>, low: real, high: real, k: RecHist): (n: nat)
    ensures n <= |ts|
  {
    if ts == [] then 0
    else NumRecClassified(ts[..|ts| - 1], low, high, k) + |ClassEntries(RecClass(ts[|ts| - 1], low, high), k)|
  }

  /** Number of tracks of `ts` with at least one ITS cluster. */
  function NumWithIts(ts: seq<RecTrack>): (n: nat)
    ensures n <= |ts|
  {
    if ts == [] then 0 else NumWithIts(ts[..|ts| - 1]) + if ts[|ts| - 1].itsNCls == 0 then 0 else 1
  }

  /**
   * Over the track loop, a species histogram gains one entry per track
   * classified into it, and the ITS-cluster QA histogram one per track with
   * ITS clusters.
   */
  lemma {:induction false} RecTrackFillsCount(h: Registry<RecHist>, low: real, high: real, ts: seq<RecTrack>, k: RecHist)
    ensures IsSpeciesHist(k) ==> Count(RecTrackFills(h, low, high, ts), k) == Count(h, k) + NumRecClassified(ts, low, high, k)
    ensures Count(RecTrackFills(h, low, high, ts), HistItsClusters) == Count(h, HistItsClusters) + NumWithIts(ts)
  {
    if ts != [] {
      var init := ts[..|ts| - 1];
      RecTrackFillsCount(h, low, high, init, k);
      RecTrackFillEffect(RecTrackFills(h, low, high, init), low, high, ts[|ts| - 1], k);
      RecTrackFillEffect(RecTrackFills(h, low, high, init), low, high, ts[|ts| - 1], HistItsClusters);
    }
  }

  /** Every track counted for a species has ITS clusters, so a species count never exceeds the ITS QA count. */
  lemma {:induction false} ClassifiedHaveIts(ts: seq<RecTrack>, low: real, high: real, k: RecHist)
    requires IsSpeciesHist(k)
    ensures NumRecClassified(ts, low, high, k) <= NumWithIts(ts)
  {
    if ts != [] {
      ClassifiedHaveIts(ts[..|ts| - 1], low, high, k);
    }
  }

  /** A track with no ITS cluster can be dropped from the loop without changing any histogram. */
  lemma {:induction false} RecSkipsTracksWithoutIts(h: Registry<RecHist>, low: real, high: real, ts: seq<RecTrack>, t: RecTrack)
    requires t.itsNCls == 0
    ensures RecTrackFills(h, low, high, ts + [t]) == RecTrackFills(h, low, high, ts)
  {
    assert (ts + [t])[..|ts + [t]| - 1] == ts;
  }

  /** An event failing sel8 only increments the "all" bin. */
  lemma RejectedEventOnlyCountsAll(h: Registry<RecHist>, low: real, high: real, c: RecCollision, ts: seq<RecTrack>)
    requires !c.sel8
    ensures RecProcess(h, low, high, c, ts) == Fill(h, HistEvSel, Entry1(BinAll))
  {
  }

  /** The window is open: an n-sigma equal to either edge is not counted for that species. */
  lemma WindowEdgesExcluded(t: RecTrack, low: real, high: real)
    ensures t.tpcNSigmaPi == low || t.tpcNSigmaPi == high ==>
      ClassEntries(RecClass(t, low, high), HistRecPtPion) == []
    ensures t.tpcNSigmaPr == low || t.tpcNSigmaPr == high ==>
      ClassEntries(RecClass(t, low, high), HistRecPtProton) == []
    ensures NSigmaHe3(t) == low || NSigmaHe3(t) == high ==>
      ClassEntries(RecClass(t, low, high), HistRecPtHe3) == []
  {
  }

  /** The reconstructed-level task: its n-sigma window and its registry. */
  class NucleiSpectraEfficiencyLightRec {
    const nsigmacutLow: real
    const nsigmacutHigh: real
    var spectra: Registry<RecHist>

    constructor (nsigmacutLow: real, nsigmacutHigh: real)
      ensures this.nsigmacutLow == nsigmacutLow && this.nsigmacutHigh == nsigmacutHigh
      ensures spectra == map[]
    {
      this.nsigmacutLow := nsigmacutLow;
      this.nsigmacutHigh := nsigmacutHigh;
      spectra := map[];
    }

    /** Event gate, vertex fill, then the loop over the collision's tracks. */
    method Process(collision: RecCollision, tracks: seq<RecTrack>)
      modifies this
      ensures spectra == RecProcess(old(spectra), nsigmacutLow, nsigmacutHigh, collision, tracks)
    {
      spectra := Fill(spectra, HistEvSel, Entry1(BinAll));
      if collision.sel8 {
        spectra := Fill(spectra, HistEvSel, Entry1(BinSel8));
      } else {
        return;
      }
      spectra := Fill(spectra, HistRecVtxZ, Entry1(collision.posZ));
      ghost var start := spectra;

      for i := 0 to |tracks|
        invariant spectra == RecTrackFills(start, nsigmacutLow, nsigmacutHigh, tracks[..i])
      {
        assert tracks[..i + 1][..i] == tracks[..i];
        ProcessTrack(tracks[i]);
      }
      assert tracks[..|tracks|] == tracks;
    }

    /** The body of the track loop for one track. */
    method ProcessTrack(track: RecTrack)
      modifies this
      ensures spectra == RecTrackFill(old(spectra), nsigmacutLow, nsigmacutHigh, track)
    {
      if track.itsNCls == 0 {
        return;
      }
      var nSigmaHe3 := track.tpcNSigmaHe;
      nSigmaHe3 := nSigmaHe3 + track.he3NSigmaShift;
      var nSigmaPr := track.tpcNSigmaPr;
      var nSigmaPi := track.tpcNSigmaPi;
      FillTrackQa(track, nSigmaPi, nSigmaPr, nSigmaHe3);
      FillTrackSpecies(track, nSigmaPi, nSigmaPr, nSigmaHe3);
    }

    /** The QA fills of a track with ITS clusters. */
    method FillTrackQa(track: RecTrack, nSigmaPi: real, nSigmaPr: real, nSigmaHe3: real)
      requires nSigmaPi == track.tpcNSigmaPi && nSigmaPr == track.tpcNSigmaPr && nSigmaHe3 == NSigmaHe3(track)
      modifies this
      ensures spectra == RecQaFill(old(spectra), track)
    {
      spectra := Fill(spectra, HistTpcSignal, Entry2(SignedInnerParam(track), track.tpcSignal));
      spectra := Fill(spectra, HistTpcNsigmaPi, Entry2(track.tpcInnerParam, nSigmaPi));
      spectra := Fill(spectra, HistTpcNsigmaPr, Entry2(track.tpcInnerParam, nSigmaPr));
      spectra := Fill(spectra, HistTpcNsigmaHe3, Entry2(track.tpcInnerParam, nSigmaHe3));
      spectra := Fill(spectra, HistItsClusters, Entry1(track.itsNCls as real));
    }

    /** The three species checks of a track with ITS clusters. */
    method FillTrackSpecies(track: RecTrack, nSigmaPi: real, nSigmaPr: real, nSigmaHe3: real)
      requires nSigmaPi == track.tpcNSigmaPi && nSigmaPr == track.tpcNSigmaPr && nSigmaHe3 == NSigmaHe3(track)
      modifies this
      ensures spectra == RecSpeciesFill(old(spectra), nsigmacutLow, nsigmacutHigh, track)
    {
      if nSigmaPi > nsigmacutLow && nSigmaPi < nsigmacutHigh {
        if track.mcPdgCode == PdgPion && track.mcIsPhysicalPrimary {
          if track.rapidityPion > -0.5 && track.rapidityPion < 0.5 {
            spectra := Fill(spectra, HistRecPtPion, Entry1(track.pt));
          }
        }
      }
      if nSigmaPr > nsigmacutLow && nSigmaPr < nsigmacutHigh {
        if track.mcPdgCode == PdgAntiProton && track.mcIsPhysicalPrimary {
          if track.rapidityProton > -0.5 && track.rapidityProton < 0.5 {
            spectra := Fill(spectra, HistRecPtProton, Entry1(track.pt));
          }
        }
      }
      if nSigmaHe3 > nsigmacutLow && nSigmaHe3 < nsigmacutHigh {
        if track.mcPdgCode == PdgAntiHelium3 {
          if track.rapidityHe3 > -0.5 && track.rapidityHe3 < 0.5 {
            spectra := Fill(spectra, HistRecPtHe3, Entry1(track.pt * 2.0));
          }
        }
      }
    }
  }
}
