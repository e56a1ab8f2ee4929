/**
 * TPC spectra analyser on skimmed tracks: every track is counted as
 * "Unselected" (momentum and transverse momentum), then once for each of the
 * nine particle species whose TPC n-sigma lies within the configured cut.
 */
module SpectraTpcAnalyser {
  import opened Histograms

  /** Number of particle species (Np). */
  const Np := 9

  /** A species index: electron, muon, pion, kaon, proton, deuteron, triton, helium-3, alpha. */
  type Species = i: int | 0 <= i < Np

  /** Species labels and the names of their momentum and transverse-momentum histograms. */
  const SpeciesLabels: seq<string> := ["e", "#mu", "#pi", "K", "p", "d", "t", "^{3}He", "#alpha"]
  const PNames: seq<string> :=
    ["p/El", "p/Mu", "p/Pi", "p/Ka", "p/Pr", "p/De", "p/Tr", "p/He", "p/Al"]
  const PtNames: seq<string> :=
    ["pt/El", "pt/Mu", "pt/Pi", "pt/Ka", "pt/Pr", "pt/De", "pt/Tr", "pt/He", "pt/Al"]

  /** The histograms of the task's registry. */
  datatype TpcHist = PUnselected | PtUnselected | PSpecies(s: Species) | PtSpecies(s: Species)

  /** The registry name of each histogram. */
  function HistName(k: TpcHist): string
  {
    match k
    case PUnselected => "p/Unselected"
    case PtUnselected => "pt/Unselected"
    case PSpecies(s) => PNames[s]
    case PtSpecies(s) => PtNames[s]
  }

  /** The per-species tables have exactly Np entries, and distinct histograms have distinct names. */
  lemma NameTables()
    ensures |SpeciesLabels| == |PNames| == |PtNames| == Np
    ensures forall a: TpcHist, b: TpcHist :: HistName(a) == HistName(b) ==> a == b
  {
    forall a: TpcHist, b: TpcHist | HistName(a) == HistName(b)
      ensures a == b
    {
      var na := HistName(a);
      // The first character tells p from pt; the character after the slash
      // (position 2 or 3) and the next one tell the species apart.
      if a.PSpecies? || a.PUnselected? {
        assert na[0] == 'p' && na[1] == '/';
      } else {
        assert na[0] == 'p' && na[1] == 't' && na[2] == '/';
      }
    }
  }

  /** A skimmed track: momentum, transverse momentum and the nine TPC n-sigma values. */
  datatype LfTrack = LfTrack(
    p: real,
    pt: real,
    tpcNSigmaEl: real,
    tpcNSigmaMu: real,
    tpcNSigmaPi: real,
    tpcNSigmaKa: real,
    tpcNSigmaPr: real,
    tpcNSigmaDe: real,
    tpcNSigmaTr: real,
    tpcNSigmaHe: real,
    tpcNSigmaAl: real)

  /** The n-sigma values of a track, indexed by species. */
  function NSigmas(t: LfTrack): (a: seq<real>)
    ensures |a| == Np
    ensures a[0] == t.tpcNSigmaEl && a[1] == t.tpcNSigmaMu && a[2] == t.tpcNSigmaPi
    ensures a[3] == t.tpcNSigmaKa && a[4] == t.tpcNSigmaPr && a[5] == t.tpcNSigmaDe
    ensures a[6] == t.tpcNSigmaTr && a[7] == t.tpcNSigmaHe && a[8] == t.tpcNSigmaAl
  {
    [t.tpcNSigmaEl, t.tpcNSigmaMu, t.tpcNSigmaPi, t.tpcNSigmaKa, t.tpcNSigmaPr,
     t.tpcNSigmaDe, t.tpcNSigmaTr, t.tpcNSigmaHe, t.tpcNSigmaAl]
  }

  function Abs(x: real): real
  {
    if x < 0.0 then -x else x
  }

  /** Species `s` accepts a track iff its n-sigma does not exceed the cut in absolute value. */
  predicate Accepts(nsigma: seq<real>, s: Species, cut: real)
    requires |nsigma| == Np
  {
    !(Abs(nsigma[s]) > cut)
  }

  /** The fills of one species for one track (fillParticleHistos). */
  function FillSpecies(h: Registry<TpcHist>, cut: real, t: LfTrack, nsigma: seq<real>, s: Species): Registry<TpcHist>
    requires |nsigma| == Np
  {
    if !Accepts(nsigma, s, cut) then h
    else Fill(Fill(h, PSpecies(s), Entry1(t.p)), PtSpecies(s), Entry1(t.pt))
  }

  /** The fills of species 0 .. n-1, in that order. */
  function FillSpeciesBelow(h: Registry<TpcHist>, cut: real, t: LfTrack, nsigma: seq<real>, n: nat): Registry<TpcHist>
    requires |nsigma| == Np && n <= Np
  {
    if n == 0 then h else FillSpecies(FillSpeciesBelow(h, cut, t, nsigma, n - 1), cut, t, nsigma, n - 1)
  }

  /** The registry after one call of process on track `t`. */
  function ProcessTrack(h: Registry<TpcHist>, cut: real, t: LfTrack): Registry<TpcHist>
  {
    var h1 := Fill(Fill(h, PUnselected, Entry1(t.p)), PtUnselected, Entry1(t.pt));
    FillSpeciesBelow(h1, cut, t, NSigmas(t), Np)
  }

  /** The registry after process has been called on each track of `ts`, in order. */
  function ProcessTracks(h: Registry<TpcHist>, cut: real, ts: seq<LfTrack>): Registry<TpcHist>
  {
    if ts == [] then h else ProcessTrack(ProcessTracks(h, cut, ts[..|ts| - 1]), cut, ts[|ts| - 1])
  }

  /** What the fills of species 0 .. n-1 add to histogram `k`. */
  function SpeciesAdded(cut: real, t: LfTrack, nsigma: seq<real>, n: nat, k: TpcHist): seq<Entry>
    requires |nsigma| == Np
  {
    match k
    case PSpecies(s) => if s < n && Accepts(nsigma, s, cut) then [Entry1(t.p)] else []
    case PtSpecies(s) => if s < n && Accepts(nsigma, s, cut) then [Entry1(t.pt)] else []
    case _ => []
  }

  /** What the fills of species `s` alone add to histogram `k`. */
  function SpeciesStep(cut: real, t: LfTrack, nsigma: seq<real>, s: Species, k: TpcHist): seq<Entry>
    requires |nsigma| == Np
  {
    if k.PSpecies? && k.s == s && Accepts(nsigma, s, cut) then [Entry1(t.p)]
    else if k.PtSpecies? && k.s == s && Accepts(nsigma, s, cut) then [Entry1(t.pt)]
    else []
  }

  lemma FillSpeciesEffect(h: Registry<TpcHist>, cut: real, t: LfTrack, nsigma: seq<real>, s: Species, k: TpcHist)
    requires |nsigma| == Np
    ensures Entries(FillSpecies(h, cut, t, nsigma, s), k) == Entries(h, k) + SpeciesStep(cut, t, nsigma, s, k)
  {
  }

  lemma SpeciesAddedStep(cut: real, t: LfTrack, nsigma: seq<real>, n: nat, k: TpcHist)
    requires |nsigma| == Np && 0 < n <= Np
    ensures SpeciesAdded(cut, t, nsigma, n, k) == SpeciesAdded(cut, t, nsigma, n - 1, k) + SpeciesStep(cut, t, nsigma, n - 1, k)
  {
  }

  /** What the species fills 0 .. n-1 add to histogram `k`. */
  lemma {:induction false} FillSpeciesBelowEffect(h: Registry<TpcHist>, cut: real, t: LfTrack, nsigma: seq<real>, n: nat, k: TpcHist)
    requires |nsigma| == Np && n <= Np
    ensures Entries(FillSpeciesBelow(h, cut, t, nsigma, n), k) == Entries(h, k) + SpeciesAdded(cut, t, nsigma, n, k)
  {
    if n > 0 {
      var prev := FillSpeciesBelow(h, cut, t, nsigma, n - 1);
      FillSpeciesBelowEffect(h, cut, t, nsigma, n - 1, k);
      FillSpeciesEffect(prev, cut, t, nsigma, n - 1, k);
      SpeciesAddedStep(cut, t, nsigma, n, k);
      var next := FillSpeciesBelow(h, cut, t, nsigma, n);
      assert next == FillSpecies(prev, cut, t, nsigma, n - 1);
      FillsCompose2(h, prev, next, k, SpeciesAdded(cut, t, nsigma, n - 1, k),
        SpeciesStep(cut, t, nsigma, n - 1, k));
    }
  }

  /**
   * One track adds exactly one entry to each "Unselected" histogram, and to the
   * p and pt histograms of species `s` together one entry each (p and pt
   * respectively) iff |nsigma[s]| <= cut; nothing else.
   */
  lemma ProcessTrackEffect(h: Registry<TpcHist>, cut: real, t: LfTrack, s: Species)
    ensures Entries(ProcessTrack(h, cut, t), PUnselected) == Entries(h, PUnselected) + [Entry1(t.p)]
    ensures Entries(ProcessTrack(h, cut, t), PtUnselected) == Entries(h, PtUnselected) + [Entry1(t.pt)]
    ensures Entries(ProcessTrack(h, cut, t), PSpecies(s)) ==
      Entries(h, PSpecies(s)) + if Abs(NSigmas(t)[s]) <= cut then [Entry1(t.p)] else []
    ensures Entries(ProcessTrack(h, cut, t), PtSpecies(s)) ==
      Entries(h, PtSpecies(s)) + if Abs(NSigmas(t)[s]) <= cut then [Entry1(t.pt)] else []
  {
    var h1 := Fill(Fill(h, PUnselected, Entry1(t.p)), PtUnselected, Entry1(t.pt));
    FillSpeciesBelowEffect(h1, cut, t, NSigmas(t), Np, PUnselected);
    FillSpeciesBelowEffect(h1, cut, t, NSigmas(t), Np, PtUnselected);
    FillSpeciesBelowEffect(h1, cut, t, NSigmas(t), Np, PSpecies(s));
    FillSpeciesBelowEffect(h1, cut, t, NSigmas(t), Np, PtSpecies(s));
  }

  /** The cut is inclusive: an n-sigma exactly at +cut or -cut is accepted. */
  lemma BoundaryAccepted(h: Registry<TpcHist>, cut: real, t: LfTrack, s: Species)
    requires NSigmas(t)[s] == cut || NSigmas(t)[s] == -cut
    requires cut >= 0.0
    ensures Count(ProcessTrack(h, cut, t), PSpecies(s)) == Count(h, PSpecies(s)) + 1
  {
    ProcessTrackEffect(h, cut, t, s);
  }

  /** The nine checks are independent: a track within the cut for every species is counted nine times. */
  lemma TrackCountedForEverySpecies(h: Registry<TpcHist>, cut: real, t: LfTrack)
    requires forall s: Species :: Abs(NSigmas(t)[s]) <= cut
    ensures forall s: Species :: Count(ProcessTrack(h, cut, t), PSpecies(s)) == Count(h, PSpecies(s)) + 1
  {
    forall s: Species
      ensures Count(ProcessTrack(h, cut, t), PSpecies(s)) == Count(h, PSpecies(s)) + 1
    {
      ProcessTrackEffect(h, cut, t, s);
    }
  }

  /** Number of tracks of `ts` that species `s` accepts. */
  function NumAccepted(ts: seq<LfTrack>, s: Species, cut: real): (n: nat)
    ensures n <= |ts|
  {
    if ts == [] then 0
    else NumAccepted(ts[..|ts| - 1], s, cut) + if Abs(NSigmas(ts[|ts| - 1])[s]) <= cut then 1 else 0
  }

  /**
   * Over a run of tracks, each "Unselected" histogram gains one entry per
   * track, and the p and pt histograms of a species each gain one entry per
   * track the species accepts: they are always filled together.
   */
  lemma {:induction false} ProcessTracksCounts(h: Registry<TpcHist>, cut: real, ts: seq<LfTrack>, s: Species)
    ensures Count(ProcessTracks(h, cut, ts), PUnselected) == Count(h, PUnselected) + |ts|
    ensures Count(ProcessTracks(h, cut, ts), PtUnselected) == Count(h, PtUnselected) + |ts|
    ensures Count(ProcessTracks(h, cut, ts), PSpecies(s)) == Count(h, PSpecies(s)) + NumAccepted(ts, s, cut)
    ensures Count(ProcessTracks(h, cut, ts), PtSpecies(s)) == Count(h, PtSpecies(s)) + NumAccepted(ts, s, cut)
  {
    if ts != [] {
      var init := ts[..|ts| - 1];
      ProcessTracksCounts(h, cut, init, s);
      ProcessTrackEffect(ProcessTracks(h, cut, init), cut, ts[|ts| - 1], s);
    }
  }

  /** The analysis task: its configured cut and its histogram registry. */
  class TpcSpectraAnalyserTask {
    const nsigmacut: real
    var histos: Registry<TpcHist>

    /** A task with the given cut and an empty registry (init books the histograms). */
    constructor (nsigmacut: real)
      ensures this.nsigmacut == nsigmacut && histos == map[]
    {
      this.nsigmacut := nsigmacut;
      histos := map[];
    }

    /** fillParticleHistos for species `s`: fill p and pt unless |nsigma[s]| exceeds the cut. */
    method FillParticleHistos(s: Species, track: LfTrack, nsigma: seq<real>)
      requires |nsigma| == Np
      modifies this
      ensures histos == FillSpecies(old(histos), nsigmacut, track, nsigma, s)
    {
      if Abs(nsigma[s]) > nsigmacut {
        return;
      }
      histos := Fill(histos, PSpecies(s), Entry1(track.p));
      histos := Fill(histos, PtSpecies(s), Entry1(track.pt));
    }

    /** Fill the "Unselected" histograms, then run the nine species checks in order. */
    method Process(track: LfTrack)
      modifies this
      ensures histos == ProcessTrack(old(histos), nsigmacut, track)
    {
      var nsigma := NSigmas(track);
      histos := Fill(histos, PUnselected, Entry1(track.p));
      histos := Fill(histos, PtUnselected, Entry1(track.pt));
      ghost var h1 := histos;

      FillParticleHistos(0, track, nsigma);
      assert histos == FillSpeciesBelow(h1, nsigmacut, track, nsigma, 1);
      FillParticleHistos(1, track, nsigma);
      assert histos == FillSpeciesBelow(h1, nsigmacut, track, nsigma, 2);
      FillParticleHistos(2, track, nsigma);
      assert histos == FillSpeciesBelow(h1, nsigmacut, track, nsigma, 3);
      FillParticleHistos(3, track, nsigma);
      assert histos == FillSpeciesBelow(h1, nsigmacut, track, nsigma, 4);
      FillParticleHistos(4, track, nsigma);
      assert histos == FillSpeciesBelow(h1, nsigmacut, track, nsigma, 5);
      FillParticleHistos(5, track, nsigma);
      assert histos == FillSpeciesBelow(h1, nsigmacut, track, nsigma, 6);
      FillParticleHistos(6, track, nsigma);
      assert histos == FillSpeciesBelow(h1, nsigmacut, track, nsigma, 7);
      FillParticleHistos(7, track, nsigma);
      assert histos == FillSpeciesBelow(h1, nsigmacut, track, nsigma, 8);
      FillParticleHistos(8, track, nsigma);
    }
  }
}
