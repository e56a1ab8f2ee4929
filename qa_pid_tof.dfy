/**
 * TOF PID quality assurance. An ordered chain of event cuts and an ordered
 * chain of track cuts each fill one bin of a counter histogram per stage
 * reached; the per-species processing routes every selected track's TOF
 * n-sigma to the positive- or negative-charge histogram, and with the
 * rapidity cut enabled stops at the first selected track outside |y| <= 0.5.
 */
module QaPidTof {
  import opened Histograms

  /** Number of particle species. */
  const Np := 9

  /** Species hypothesis: electron, muon, pion, kaon, proton, deuteron, triton, helium-3, alpha. */
  type Species = i: int | 0 <= i < Np

  /** Configurables: which trigger selection to apply (1: sel7, 2: sel8, other: none), track cuts, rapidity cut. */
  datatype TofConfig = TofConfig(applyEvSel: int, applyTrackCut: bool, applyRapidityCut: bool)

  datatype TofCollision = TofCollision(sel7: bool, sel8: bool, posZ: real, collisionTime: real, collisionTimeRes: real)

  /**
   * A track of the joined tables. `rapidity`, `tofNSigma`, `tofExpSignalDiff`
   * and `tofExpSigma` are the values for the species hypothesis being
   * processed, computed by foreign code and taken as given.
   */
  datatype TofTrack = TofTrack(
    isGlobalTrack: bool,
    hasITS: bool,
    hasTPC: bool,
    hasTOF: bool,
    sign: int,
    p: real,
    pt: real,
    eta: real,
    phi: real,
    length: real,
    tofSignal: real,
    tofExpMom: real,
    pidForTracking: int,
    rapidity: real,
    tofNSigma: real,
    tofExpSignalDiff: real,
    tofExpSigma: real)

  datatype TofHist =
    | EvSel | TrackSelection | VertexZ | ParticleHypo | TrackMultiplicity | TofMultiplicity
    | CollTime | CollTimeReso | TofSignal | PExp | Eta | Phi | EtaPhi | Length | Pt | P
    | Expected(s: Species) | ExpectedDiff(s: Species) | ExpSigma(s: Species)
    | NSigma(s: Species) | NSigmaPt(s: Species) | NSigmaPosPt(s: Species) | NSigmaNegPt(s: Species)

  function Abs(x: real): real
  {
    if x < 0.0 then -x else x
  }

  /** A time in nanoseconds expressed in picoseconds. */
  function ToPs(t: real): real
  {
    t * 1000.0
  }

  // ---------------------------------------------------------------------------
  // Event selection
  // ---------------------------------------------------------------------------

  /** The trigger requirement: sel7 for applyEvSel 1, sel8 for 2, none otherwise. */
  predicate PassesTrigger(applyEvSel: int, c: TofCollision)
  {
    if applyEvSel == 1 then c.sel7
    else if applyEvSel == 2 then c.sel8
    else true
  }

  /** The selection isEventSelected returns. */
  predicate EventSelected(applyEvSel: int, c: TofCollision)
  {
    PassesTrigger(applyEvSel, c) && !(Abs(c.posZ) > 10.0)
  }

  /** With applyEvSel 1 the event needs sel7, with 2 sel8, with any other value no trigger bit. */
  lemma TriggerRequirement(applyEvSel: int, c: TofCollision)
    ensures applyEvSel == 1 ==> (PassesTrigger(applyEvSel, c) <==> c.sel7)
    ensures applyEvSel == 2 ==> (PassesTrigger(applyEvSel, c) <==> c.sel8)
    ensures applyEvSel != 1 && applyEvSel != 2 ==> PassesTrigger(applyEvSel, c)
  {
  }

  /** An event with |posZ| > 10 is rejected whatever the trigger bits. */
  lemma VertexCutRejects(applyEvSel: int, c: TofCollision)
    requires Abs(c.posZ) > 10.0
    ensures !EventSelected(applyEvSel, c)
  {
  }

  /** Tracks counted in the track multiplicity: all, or only global tracks when track cuts apply. */
  function NumCounted(applyTrackCut: bool, ts: seq<TofTrack>): (n: nat)
    ensures n <= |ts|
  {
    if ts == [] then 0
    else
      var last := ts[|ts| - 1];
      NumCounted(applyTrackCut, ts[..|ts| - 1]) + (if applyTrackCut && !last.isGlobalTrack then 0 else 1)
  }

  /** Counted tracks that also have TOF: the TOF multiplicity. */
  function NumCountedWithTof(applyTrackCut: bool, ts: seq<TofTrack>): (n: nat)
    ensures n <= NumCounted(applyTrackCut, ts)
  {
    if ts == [] then 0
    else
      var last := ts[|ts| - 1];
      NumCountedWithTof(applyTrackCut, ts[..|ts| - 1]) + (if (applyTrackCut && !last.isGlobalTrack) || !last.hasTOF then 0 else 1)
  }

  /** The multiplicity loop of isEventSelected. */
  method CountMultiplicities(applyTrackCut: bool, tracks: seq<TofTrack>) returns (ntracks: nat, tofmult: nat)
    ensures ntracks == NumCounted(applyTrackCut, tracks)
    ensures tofmult == NumCountedWithTof(applyTrackCut, tracks)
    ensures tofmult <= ntracks <= |tracks|
  {
    ntracks, tofmult := 0, 0;
    for i := 0 to |tracks|
      invariant ntracks == NumCounted(applyTrackCut, tracks[..i])
      invariant tofmult == NumCountedWithTof(applyTrackCut, tracks[..i])
    {
      assert tracks[..i + 1][..i] == tracks[..i];
      var t := tracks[i];
      if applyTrackCut && !t.isGlobalTrack {
        continue;
      }
      ntracks := ntracks + 1;
      if !t.hasTOF {
        continue;
      }
      tofmult := tofmult + 1;
    }
    assert tracks[..|tracks|] == tracks;
  }

  /** The bins 1 .. n of a counter histogram, one entry each. */
  function BinsUpTo(n: nat): (s: seq<Entry>)
    ensures |s| == n
  {
    if n == 0 then [] else BinsUpTo(n - 1) + [Entry1(n as real)]
  }

  /** The fills of isEventSelected with histograms enabled. */
  function EventFills(h: Registry<TofHist>, cfg: TofConfig, c: TofCollision, ts: seq<TofTrack>): Registry<TofHist>
  {
    var h1 := Fill(h, EvSel, Entry1(1.0));
    if !PassesTrigger(cfg.applyEvSel, c) then h1
    else
      var ntracks := NumCounted(cfg.applyTrackCut, ts);
      var tofmult := NumCountedWithTof(cfg.applyTrackCut, ts);
      var h3 := Fill(Fill(h1, EvSel, Entry1(2.0)), EvSel, Entry1(3.0));
      if Abs(c.posZ) > 10.0 then h3
      else
        var h4 := Fill(h3, EvSel, Entry1(4.0));
        var h5 := Fill(h4, VertexZ, Entry1(c.posZ));
        var h6 := Fill(h5, TrackMultiplicity, Entry1(ntracks as real));
        var h7 := Fill(h6, TofMultiplicity, Entry1(tofmult as real));
        var h8 := Fill(h7, CollTime, Entry1(ToPs(c.collisionTime)));
        Fill(h8, CollTimeReso, Entry2(tofmult as real, ToPs(c.collisionTimeRes)))
  }

  /** How many bins of event/evsel one event fills: 1 if the trigger fails, 3 if the vertex cut fails, else 4. */
  function EventStages(applyEvSel: int, c: TofCollision): nat
  {
    if !PassesTrigger(applyEvSel, c) then 1 else if Abs(c.posZ) > 10.0 then 3 else 4
  }

  /** One event fills bins 1 .. EventStages of event/evsel, and bin 4 exactly when it is selected. */
  lemma EventFillsBins(h: Registry<TofHist>, cfg: TofConfig, c: TofCollision, ts: seq<TofTrack>)
    ensures Entries(EventFills(h, cfg, c, ts), EvSel) == Entries(h, EvSel) + BinsUpTo(EventStages(cfg.applyEvSel, c))
    ensures EventStages(cfg.applyEvSel, c) == 4 <==> EventSelected(cfg.applyEvSel, c)
  {
    assert BinsUpTo(1) == [Entry1(1.0)];
    assert BinsUpTo(3) == [Entry1(1.0), Entry1(2.0), Entry1(3.0)];
    assert BinsUpTo(4) == [Entry1(1.0), Entry1(2.0), Entry1(3.0), Entry1(4.0)];
  }

  // ---------------------------------------------------------------------------
  // Track selection
  // ---------------------------------------------------------------------------

  /**
   * How many bins of event/trackselection a track fills: the checks are global
   * track, ITS, TPC, TOF, in that order, and each passed check adds one bin.
   */
  function TrackStages(t: TofTrack): (n: nat)
    ensures 1 <= n <= 5
  {
    if !t.isGlobalTrack then 1
    else if !t.hasITS then 2
    else if !t.hasTPC then 3
    else if !t.hasTOF then 4
    else 5
  }

  /** The selection isTrackSelected returns. */
  predicate TrackSelected(t: TofTrack)
  {
    TrackStages(t) == 5
  }

  /** A track is selected iff it is a global track with ITS, TPC and TOF. */
  lemma TrackSelectedIff(t: TofTrack)
    ensures TrackSelected(t) <==> t.isGlobalTrack && t.hasITS && t.hasTPC && t.hasTOF
  {
  }

  /** The QA fills of a selected track. */
  function SelectedTrackFills(h: Registry<TofHist>, t: TofTrack): Registry<TofHist>
  {
    var h1 := Fill(h, ParticleHypo, Entry1(t.pidForTracking as real));
    var h2 := Fill(h1, TofSignal, Entry2(t.p, t.tofSignal));
    var h3 := Fill(h2, PExp, Entry2(t.p, t.tofExpMom));
    var h4 := Fill(h3, Eta, Entry1(t.eta));
    var h5 := Fill(h4, Phi, Entry1(t.phi));
    var h6 := Fill(h5, EtaPhi, Entry2(t.eta, t.phi));
    var h7 := Fill(h6, Length, Entry1(t.length));
    var h8 := Fill(h7, Pt, Entry1(t.pt));
    Fill(h8, P, Entry1(t.p))
  }

  /** The fills of isTrackSelected with histograms enabled: one counter bin per check passed, then the QA fills. */
  function TrackFills(h: Registry<TofHist>, t: TofTrack): Registry<TofHist>
  {
    var h1 := Fill(h, TrackSelection, Entry1(1.0));
    if !t.isGlobalTrack then h1
    else
      var h2 := Fill(h1, TrackSelection, Entry1(2.0));
      if !t.hasITS then h2
      else
        var h3 := Fill(h2, TrackSelection, Entry1(3.0));
        if !t.hasTPC then h3
        else
          var h4 := Fill(h3, TrackSelection, Entry1(4.0));
          if !t.hasTOF then h4
          else SelectedTrackFills(Fill(h4, TrackSelection, Entry1(5.0)), t)
  }

  /**
   * One track fills bins 1 .. TrackStages of event/trackselection, so bin k
   * only if checks 1 .. k-1 passed, and leaves event/evsel alone.
   */
  lemma TrackFillsBins(h: Registry<TofHist>, t: TofTrack)
    ensures Entries(TrackFills(h, t), TrackSelection) == Entries(h, TrackSelection) + BinsUpTo(TrackStages(t))
    ensures Entries(TrackFills(h, t), EvSel) == Entries(h, EvSel)
  {
    assert BinsUpTo(1) == [Entry1(1.0)];
    assert BinsUpTo(2) == BinsUpTo(1) + [Entry1(2.0)];
    assert BinsUpTo(3) == BinsUpTo(2) + [Entry1(3.0)];
    assert BinsUpTo(4) == BinsUpTo(3) + [Entry1(4.0)];
    assert BinsUpTo(5) == BinsUpTo(4) + [Entry1(5.0)];
    var h1 := Fill(h, TrackSelection, Entry1(1.0));
    var h2 := Fill(h1, TrackSelection, Entry1(2.0));
    var h3 := Fill(h2, TrackSelection, Entry1(3.0));
    var h4 := Fill(h3, TrackSelection, Entry1(4.0));
    var h5 := Fill(h4, TrackSelection, Entry1(5.0));
    var e := Entries(h, TrackSelection);
    assert Entries(h1, TrackSelection) == e + BinsUpTo(1);
    assert Entries(h2, TrackSelection) == e + BinsUpTo(2);
    assert Entries(h3, TrackSelection) == e + BinsUpTo(3);
    assert Entries(h4, TrackSelection) == e + BinsUpTo(4);
    assert Entries(h5, TrackSelection) == e + BinsUpTo(5);
    assert Entries(h5, EvSel) == Entries(h, EvSel);
    if !t.isGlobalTrack {
      assert TrackFills(h, t) == h1;
    } else if !t.hasITS {
      assert TrackFills(h, t) == h2;
    } else if !t.hasTPC {
      assert TrackFills(h, t) == h3;
    } else if !t.hasTOF {
      assert TrackFills(h, t) == h4;
    } else {
      assert TrackFills(h, t) == SelectedTrackFills(h5, t);
      SelectedTrackFillsKeepsCounters(h5, t);
    }
  }

  /** The QA fills of a selected track touch neither counter histogram. */
  lemma SelectedTrackFillsKeepsCounters(h: Registry<TofHist>, t: TofTrack)
    ensures Entries(SelectedTrackFills(h, t), TrackSelection) == Entries(h, TrackSelection)
    ensures Entries(SelectedTrackFills(h, t), EvSel) == Entries(h, EvSel)
  {
  }

  // ---------------------------------------------------------------------------
  // Counter bins are non-increasing
  // ---------------------------------------------------------------------------

  /** A stage sequence adds one entry to each bin 1 .. n and none elsewhere. */
  lemma {:induction false} CountAtBinsUpTo(n: nat, k: nat)
    ensures CountAt(BinsUpTo(n), k as real) == if 1 <= k <= n then 1 else 0
  {
    if n > 0 {
      CountAtBinsUpTo(n - 1, k);
      assert BinsUpTo(n)[..n - 1] == BinsUpTo(n - 1);
    }
  }

  /** The content of bin k of a counter histogram whose bin k is filled at k. */
  function BinCount(s: seq<Entry>, k: nat): nat
  {
    CountAt(s, k as real)
  }

  /** Bin k + 1 holds no more entries than bin k, for every k in 1 .. m-1. */
  ghost predicate NonIncreasing(s: seq<Entry>, m: nat)
  {
    forall k: nat :: 1 <= k < m ==> BinCount(s, k + 1) <= BinCount(s, k)
  }

  /** Appending the bins of one event or track keeps the counters non-increasing. */
  lemma AppendBinsKeepsNonIncreasing(s: seq<Entry>, m: nat, n: nat)
    requires NonIncreasing(s, m)
    ensures NonIncreasing(s + BinsUpTo(n), m)
  {
    forall k: nat | 1 <= k < m
      ensures BinCount(s + BinsUpTo(n), k + 1) <= BinCount(s + BinsUpTo(n), k)
    {
      CountAtAppend(s, BinsUpTo(n), (k + 1) as real);
      CountAtAppend(s, BinsUpTo(n), k as real);
      CountAtBinsUpTo(n, k + 1);
      CountAtBinsUpTo(n, k);
      assert BinCount(s, k + 1) <= BinCount(s, k);
    }
  }

  /** The fills of process: the event selection with histograms, then every track's selection. */
  function ProcessFills(h: Registry<TofHist>, cfg: TofConfig, c: TofCollision, ts: seq<TofTrack>): Registry<TofHist>
  {
    TrackLoopFills(EventFills(h, cfg, c, ts), ts)
  }

  function TrackLoopFills(h: Registry<TofHist>, ts: seq<TofTrack>): Registry<TofHist>
  {
    if ts == [] then h else TrackFills(TrackLoopFills(h, ts[..|ts| - 1]), ts[|ts| - 1])
  }

  /** The track loop leaves event/evsel alone and keeps event/trackselection non-increasing over bins 1 .. 5. */
  lemma {:induction false} TrackLoopKeepsNonIncreasing(h: Registry<TofHist>, ts: seq<TofTrack>)
    requires NonIncreasing(Entries(h, TrackSelection), 5)
    ensures NonIncreasing(Entries(TrackLoopFills(h, ts), TrackSelection), 5)
    ensures Entries(TrackLoopFills(h, ts), EvSel) == Entries(h, EvSel)
  {
    if ts != [] {
      var h' := TrackLoopFills(h, ts[..|ts| - 1]);
      TrackLoopKeepsNonIncreasing(h, ts[..|ts| - 1]);
      TrackFillsBins(h', ts[|ts| - 1]);
      AppendBinsKeepsNonIncreasing(Entries(h', TrackSelection), 5, TrackStages(ts[|ts| - 1]));
    }
  }

  // ---------------------------------------------------------------------------
  // Per-species processing
  // ---------------------------------------------------------------------------

  /** The fills of one selected track that passed the rapidity cut. */
  function NSigmaFills(h: Registry<TofHist>, id: Species, fillFull: bool, c: TofCollision, t: TofTrack): Registry<TofHist>
  {
    var h1 := Fill(h, NSigma(id), Entry2(t.p, t.tofNSigma));
    var h2 := Fill(h1, NSigmaPt(id), Entry2(t.pt, t.tofNSigma));
    var h3 := if t.sign > 0 then Fill(h2, NSigmaPosPt(id), Entry2(t.pt, t.tofNSigma))
              else Fill(h2, NSigmaNegPt(id), Entry2(t.pt, t.tofNSigma));
    if !fillFull then h3
    else
      var tof := t.tofSignal - ToPs(c.collisionTime);
      var h4 := Fill(h3, Expected(id), Entry2(t.p, tof - t.tofExpSignalDiff));
      var h5 := Fill(h4, ExpectedDiff(id), Entry2(t.p, t.tofExpSignalDiff));
      Fill(h5, ExpSigma(id), Entry2(t.p, t.tofExpSigma))
  }

  /** Does the rapidity cut stop the loop at this (selected) track? */
  predicate StopsLoop(cfg: TofConfig, t: TofTrack)
  {
    cfg.applyRapidityCut && Abs(t.rapidity) > 0.5
  }

  /** The fills of the track loop of processSingleParticle over `ts`, in order, up to the first stop. */
  function SingleParticleLoop(h: Registry<TofHist>, cfg: TofConfig, id: Species, fillFull: bool, c: TofCollision, ts: seq<TofTrack>): Registry<TofHist>
    decreases |ts|
  {
    if ts == [] then h
    else if !TrackSelected(ts[0]) then SingleParticleLoop(h, cfg, id, fillFull, c, ts[1..])
    else if StopsLoop(cfg, ts[0]) then h
    else SingleParticleLoop(NSigmaFills(h, id, fillFull, c, ts[0]), cfg, id, fillFull, c, ts[1..])
  }

  /** The fills of processSingleParticle: nothing unless the event is selected. */
  function SingleParticleFills(h: Registry<TofHist>, cfg: TofConfig, id: Species, fillFull: bool, c: TofCollision, ts: seq<TofTrack>): Registry<TofHist>
  {
    if !EventSelected(cfg.applyEvSel, c) then h else SingleParticleLoop(h, cfg, id, fillFull, c, ts)
  }

  /** The histograms processSingleParticle may fill for species `id`. */
  predicate SpeciesHist(k: TofHist, id: Species)
  {
    k in {Expected(id), ExpectedDiff(id), ExpSigma(id), NSigma(id), NSigmaPt(id), NSigmaPosPt(id), NSigmaNegPt(id)}
  }

  /** The n-sigma fills of one track touch only the histograms of its species. */
  lemma NSigmaFillsOnlySpecies(h: Registry<TofHist>, id: Species, fillFull: bool, c: TofCollision, t: TofTrack, k: TofHist)
    requires !SpeciesHist(k, id)
    ensures Entries(NSigmaFills(h, id, fillFull, c, t), k) == Entries(h, k)
  {
  }

  /**
   * processSingleParticle fills only the histograms of its species: its event
   * and track selections run without histograms, so the counters event/evsel
   * and event/trackselection, like every other histogram, are left as they are.
   */
  lemma {:induction false} SingleParticleLoopOnlySpecies(h: Registry<TofHist>, cfg: TofConfig, id: Species, fillFull: bool, c: TofCollision, ts: seq<TofTrack>, k: TofHist)
    requires !SpeciesHist(k, id)
    ensures Entries(SingleParticleLoop(h, cfg, id, fillFull, c, ts), k) == Entries(h, k)
    decreases |ts|
  {
    if ts != [] && TrackSelected(ts[0]) && !StopsLoop(cfg, ts[0]) {
      NSigmaFillsOnlySpecies(h, id, fillFull, c, ts[0], k);
      SingleParticleLoopOnlySpecies(NSigmaFills(h, id, fillFull, c, ts[0]), cfg, id, fillFull, c, ts[1..], k);
    } else if ts != [] && !TrackSelected(ts[0]) {
      SingleParticleLoopOnlySpecies(h, cfg, id, fillFull, c, ts[1..], k);
    }
  }

  /** The same for the whole of processSingleParticle, event selection included. */
  lemma SingleParticleFillsOnlySpecies(h: Registry<TofHist>, cfg: TofConfig, id: Species, fillFull: bool, c: TofCollision, ts: seq<TofTrack>, k: TofHist)
    requires !SpeciesHist(k, id)
    ensures Entries(SingleParticleFills(h, cfg, id, fillFull, c, ts), k) == Entries(h, k)
  {
    SingleParticleLoopOnlySpecies(h, cfg, id, fillFull, c, ts, k);
  }

  /** A track's n-sigma goes to exactly one of the sign histograms: positive charge to pos, zero or negative to neg. */
  lemma NSigmaFillsRouting(h: Registry<TofHist>, id: Species, fillFull: bool, c: TofCollision, t: TofTrack)
    ensures Count(NSigmaFills(h, id, fillFull, c, t), NSigmaPt(id)) == Count(h, NSigmaPt(id)) + 1
    ensures Count(NSigmaFills(h, id, fillFull, c, t), NSigmaPosPt(id)) == Count(h, NSigmaPosPt(id)) + if t.sign > 0 then 1 else 0
    ensures Count(NSigmaFills(h, id, fillFull, c, t), NSigmaNegPt(id)) == Count(h, NSigmaNegPt(id)) + if t.sign > 0 then 0 else 1
  {
  }

  /**
   * Over the whole loop the two sign histograms together gain exactly as many
   * entries as the n-sigma-versus-pt histogram: every filled track is routed
   * to exactly one of them.
   */
  lemma {:induction false} SignRoutingPartitions(h: Registry<TofHist>, cfg: TofConfig, id: Species, fillFull: bool, c: TofCollision, ts: seq<TofTrack>)
    ensures var r := SingleParticleLoop(h, cfg, id, fillFull, c, ts);
      Count(r, NSigmaPosPt(id)) + Count(r, NSigmaNegPt(id)) - Count(h, NSigmaPosPt(id)) - Count(h, NSigmaNegPt(id))
        == Count(r, NSigmaPt(id)) - Count(h, NSigmaPt(id))
    decreases |ts|
  {
    if ts != [] && TrackSelected(ts[0]) && !StopsLoop(cfg, ts[0]) {
      NSigmaFillsRouting(h, id, fillFull, c, ts[0]);
      SignRoutingPartitions(NSigmaFills(h, id, fillFull, c, ts[0]), cfg, id, fillFull, c, ts[1..]);
    } else if ts != [] && !TrackSelected(ts[0]) {
      SignRoutingPartitions(h, cfg, id, fillFull, c, ts[1..]);
    }
  }

  /**
   * With the rapidity cut, a selected track outside |y| <= 0.5 ends the loop:
   * whatever follows it contributes nothing (the source returns rather than
   * continuing).
   */
  lemma {:induction false} RapidityCutStopsLoop(h: Registry<TofHist>, cfg: TofConfig, id: Species, fillFull: bool, c: TofCollision, ts: seq<TofTrack>, k: nat)
    requires k < |ts| && TrackSelected(ts[k]) && StopsLoop(cfg, ts[k])
    ensures SingleParticleLoop(h, cfg, id, fillFull, c, ts) == SingleParticleLoop(h, cfg, id, fillFull, c, ts[..k])
    decreases k
  {
    if k > 0 {
      assert ts[..k][0] == ts[0] && ts[..k][1..] == ts[1..][..k - 1];
      if !TrackSelected(ts[0]) {
        RapidityCutStopsLoop(h, cfg, id, fillFull, c, ts[1..], k - 1);
      } else if !StopsLoop(cfg, ts[0]) {
        RapidityCutStopsLoop(NSigmaFills(h, id, fillFull, c, ts[0]), cfg, id, fillFull, c, ts[1..], k - 1);
      }
    }
  }

  /** Number of selected tracks in `ts`. */
  function NumSelected(ts: seq<TofTrack>): (n: nat)
    ensures n <= |ts|
    decreases |ts|
  {
    if ts == [] then 0 else (if TrackSelected(ts[0]) then 1 else 0) + NumSelected(ts[1..])
  }

  /** Without the rapidity cut, every selected track fills the n-sigma histogram exactly once. */
  lemma {:induction false} NoRapidityCutFillsEverySelected(h: Registry<TofHist>, cfg: TofConfig, id: Species, fillFull: bool, c: TofCollision, ts: seq<TofTrack>)
    requires !cfg.applyRapidityCut
    ensures Count(SingleParticleLoop(h, cfg, id, fillFull, c, ts), NSigma(id)) == Count(h, NSigma(id)) + NumSelected(ts)
    decreases |ts|
  {
    if ts != [] {
      if TrackSelected(ts[0]) {
        NoRapidityCutFillsEverySelected(NSigmaFills(h, id, fillFull, c, ts[0]), cfg, id, fillFull, c, ts[1..]);
      } else {
        NoRapidityCutFillsEverySelected(h, cfg, id, fillFull, c, ts[1..]);
      }
    }
  }

  // ---------------------------------------------------------------------------
  // The task
  // ---------------------------------------------------------------------------

  /** The TOF QA task: its configuration and its histogram registry. */
  class TofPidQa {
    const cfg: TofConfig
    var histos: Registry<TofHist>

    /** The counter histograms never hold more entries in a later bin than in an earlier one. */
    ghost predicate Valid()
      reads this
    {
      NonIncreasing(Entries(histos, EvSel), 4) && NonIncreasing(Entries(histos, TrackSelection), 5)
    }

    constructor (cfg: TofConfig)
      ensures this.cfg == cfg && histos == map[] && Valid()
    {
      this.cfg := cfg;
      histos := map[];
    }

    /** isEventSelected: returns the event decision; fills event/evsel stage by stage when asked to. */
    method IsEventSelected(fillHistograms: bool, collision: TofCollision, tracks: seq<TofTrack>) returns (selected: bool)
      modifies this
      ensures selected == EventSelected(cfg.applyEvSel, collision)
      ensures histos == if fillHistograms then EventFills(old(histos), cfg, collision, tracks) else old(histos)
    {
      if fillHistograms {
        histos := Fill(histos, EvSel, Entry1(1.0));
      }
      if cfg.applyEvSel == 1 {
        if !collision.sel7 {
          return false;
        }
      } else if cfg.applyEvSel == 2 {
        if !collision.sel8 {
          return false;
        }
      }
      if fillHistograms {
        histos := Fill(histos, EvSel, Entry1(2.0));
      }
      var ntracks, tofmult := 0, 0;
      if fillHistograms {
        ntracks, tofmult := CountMultiplicities(cfg.applyTrackCut, tracks);
        histos := Fill(histos, EvSel, Entry1(3.0));
      }
      if Abs(collision.posZ) > 10.0 {
        return false;
      }
      if fillHistograms {
        histos := Fill(histos, EvSel, Entry1(4.0));
        histos := Fill(histos, VertexZ, Entry1(collision.posZ));
        histos := Fill(histos, TrackMultiplicity, Entry1(ntracks as real));
        histos := Fill(histos, TofMultiplicity, Entry1(tofmult as real));
        var collisionTimePs := ToPs(collision.collisionTime);
        histos := Fill(histos, CollTime, Entry1(collisionTimePs));
        histos := Fill(histos, CollTimeReso, Entry2(tofmult as real, ToPs(collision.collisionTimeRes)));
      }
      return true;
    }

    /** isTrackSelected: returns the track decision; fills event/trackselection stage by stage when asked to. */
    method IsTrackSelected(fillHistograms: bool, track: TofTrack) returns (selected: bool)
      modifies this
      ensures selected == TrackSelected(track)
      ensures histos == if fillHistograms then TrackFills(old(histos), track) else old(histos)
    {
      if fillHistograms {
        histos := Fill(histos, TrackSelection, Entry1(1.0));
      }
      if !track.isGlobalTrack {
        return false;
      }
      if fillHistograms {
        histos := Fill(histos, TrackSelection, Entry1(2.0));
      }
      if !track.hasITS {
        return false;
      }
      if fillHistograms {
        histos := Fill(histos, TrackSelection, Entry1(3.0));
      }
      if !track.hasTPC {
        return false;
      }
      if fillHistograms {
        histos := Fill(histos, TrackSelection, Entry1(4.0));
      }
      if !track.hasTOF {
        return false;
      }
      if fillHistograms {
        histos := Fill(histos, TrackSelection, Entry1(5.0));
        histos := Fill(histos, ParticleHypo, Entry1(track.pidForTracking as real));
        histos := Fill(histos, TofSignal, Entry2(track.p, track.tofSignal));
        histos := Fill(histos, PExp, Entry2(track.p, track.tofExpMom));
        histos := Fill(histos, Eta, Entry1(track.eta));
        histos := Fill(histos, Phi, Entry1(track.phi));
        histos := Fill(histos, EtaPhi, Entry2(track.eta, track.phi));
        histos := Fill(histos, Length, Entry1(track.length));
        histos := Fill(histos, Pt, Entry1(track.pt));
        histos := Fill(histos, P, Entry1(track.p));
      }
      return true;
    }

    /**
     * process: the event selection with histograms, then the selection of
     * every track, whatever the event decision. The counters stay
     * non-increasing bin to bin.
     */
    method Process(collision: TofCollision, tracks: seq<TofTrack>)
      requires Valid()
      modifies this
      ensures Valid()
      ensures histos == ProcessFills(old(histos), cfg, collision, tracks)
    {
      var _ := IsEventSelected(true, collision, tracks);
      ghost var afterEvent := histos;
      EventFillsBins(old(histos), cfg, collision, tracks);
      AppendBinsKeepsNonIncreasing(Entries(old(histos), EvSel), 4, EventStages(cfg.applyEvSel, collision));
      assert Entries(afterEvent, TrackSelection) == Entries(old(histos), TrackSelection);
      for i := 0 to |tracks|
        invariant histos == TrackLoopFills(afterEvent, tracks[..i])
      {
        assert tracks[..i + 1][..i] == tracks[..i];
        var _ := IsTrackSelected(true, tracks[i]);
      }
      assert tracks[..|tracks|] == tracks;
      TrackLoopKeepsNonIncreasing(afterEvent, tracks);
    }

    /**
     * processSingleParticle for species `id`, with or without the full
     * histograms; the counters are untouched, so they stay non-increasing.
     */
    method ProcessSingleParticle(id: Species, fillFullHistograms: bool, collision: TofCollision, tracks: seq<TofTrack>)
      requires Valid()
      modifies this
      ensures Valid()
      ensures histos == SingleParticleFills(old(histos), cfg, id, fillFullHistograms, collision, tracks)
    {
      SingleParticleFillsOnlySpecies(histos, cfg, id, fillFullHistograms, collision, tracks, EvSel);
      SingleParticleFillsOnlySpecies(histos, cfg, id, fillFullHistograms, collision, tracks, TrackSelection);
      var eventSelected := IsEventSelected(false, collision, tracks);
      if !eventSelected {
        return;
      }
      for i := 0 to |tracks|
        invariant SingleParticleLoop(histos, cfg, id, fillFullHistograms, collision, tracks[i..])
               == SingleParticleFills(old(histos), cfg, id, fillFullHistograms, collision, tracks)
      {
        var t := tracks[i];
        assert tracks[i..][0] == t && tracks[i..][1..] == tracks[i + 1..];
        var trackSelected := IsTrackSelected(false, t);
        if !trackSelected {
          continue;
        }
        if cfg.applyRapidityCut {
          if Abs(t.rapidity) > 0.5 {
            return;
          }
        }
        FillNSigma(id, fillFullHistograms, collision, t);
      }
    }

    /** The body of the track loop of processSingleParticle for a track that passed all cuts. */
    method FillNSigma(id: Species, fillFullHistograms: bool, collision: TofCollision, t: TofTrack)
      modifies this
      ensures histos == NSigmaFills(old(histos), id, fillFullHistograms, collision, t)
    {
      var collisionTimePs := ToPs(collision.collisionTime);
      var nsigma := t.tofNSigma;
      histos := Fill(histos, NSigma(id), Entry2(t.p, nsigma));
      histos := Fill(histos, NSigmaPt(id), Entry2(t.pt, nsigma));
      if t.sign > 0 {
        histos := Fill(histos, NSigmaPosPt(id), Entry2(t.pt, nsigma));
      } else {
        histos := Fill(histos, NSigmaNegPt(id), Entry2(t.pt, nsigma));
      }
      if fillFullHistograms {
        var tof := t.tofSignal - collisionTimePs;
        var diff := t.tofExpSignalDiff;
        histos := Fill(histos, Expected(id), Entry2(t.p, tof - diff));
        histos := Fill(histos, ExpectedDiff(id), Entry2(t.p, diff));
        histos := Fill(histos, ExpSigma(id), Entry2(t.p, t.tofExpSigma));
      }
    }
  }
}
