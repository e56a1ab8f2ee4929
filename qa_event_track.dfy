/**
 * DPG event and track QA: the configurable track selection, the reconstructed
 * level histograms (event counters, kinematics, the bits of the track flags,
 * the ITS layers hit) and the skimmed tables of collisions, tracks and, in
 * Monte Carlo, the particles matched to those tracks.
 */
module QaEventTrack {
  import opened Wrappers
  import opened Histograms

  /** The configurables the selection reads. */
  datatype QaConfig = QaConfig(
    isRun3: bool,
    selectGoodEvents: bool,
    selectCharge: int,
    selectPrim: bool,
    selectSec: bool,
    selectPID: int)

  datatype Collision = Collision(sel7: bool, sel8: bool, posZ: real, numContrib: int, runNumber: int)

  /** The generated particle behind a track; `process` is its production process code. */
  datatype McParticle = McParticle(isPhysicalPrimary: bool, process: int, pdgCode: int, pt: real, eta: real, phi: real)

  type Uint8 = x: int | 0 <= x < 0x100
  type Uint32 = x: int | 0 <= x < 0x1_0000_0000

  /**
   * A reconstructed track with the columns the task reads. `ptReso` is the
   * absolute pt resolution pt * sqrt(c1Pt21Pt2), computed by foreign code.
   * `mcParticle` is the particle label, None when the track has none (or in data).
   */
  datatype Track = Track(
    sign: int,
    pt: real,
    eta: real,
    phi: real,
    ptReso: real,
    flags: Uint32,
    dcaXY: real,
    dcaZ: real,
    length: real,
    itsClusterMap: Uint8,
    itsChi2NCl: real,
    tpcChi2NCl: real,
    trdChi2: real,
    tofChi2: real,
    hasITS: bool,
    hasTPC: bool,
    hasTRD: bool,
    hasTOF: bool,
    tpcNClsFound: int,
    tpcNClsCrossedRows: int,
    tpcCrossedRowsOverFindableCls: real,
    tpcFoundOverFindableCls: real,
    tpcFractionSharedCls: real,
    itsNCls: int,
    itsNClsInnerBarrel: int,
    mcParticle: Option<McParticle>)

  function AbsInt(x: int): int
  {
    if x < 0 then -x else x
  }

  // ---------------------------------------------------------------------------
  // Selection
  // ---------------------------------------------------------------------------

  /** The event-selection bit of the data period: sel8 in Run 3, sel7 before. */
  function SelectionFlag(cfg: QaConfig, c: Collision): bool
  {
    if cfg.isRun3 then c.sel8 else c.sel7
  }

  /** The event gate of both process functions. */
  predicate EventSelected(cfg: QaConfig, c: Collision)
  {
    !(cfg.selectGoodEvents && !SelectionFlag(cfg, c))
  }

  /** The charge requirement: none when selectCharge is 0, otherwise the sign must equal it. */
  predicate ChargeAccepted(cfg: QaConfig, t: Track)
  {
    !(cfg.selectCharge != 0 && cfg.selectCharge != t.sign)
  }

  /** isSelectedTrack: the charge requirement, then in Monte Carlo the requirements on the particle. */
  predicate IsSelectedTrack(cfg: QaConfig, isMC: bool, t: Track)
  {
    if !ChargeAccepted(cfg, t) then false
    else if !isMC then true
    else if t.mcParticle.None? then !(cfg.selectPrim || cfg.selectSec || cfg.selectPID != 0)
    else
      var particle := t.mcParticle.value;
      !(cfg.selectPrim && !particle.isPhysicalPrimary) &&
      !(cfg.selectSec && particle.isPhysicalPrimary) &&
      !(cfg.selectPID != 0 && cfg.selectPID != AbsInt(particle.pdgCode))
  }

  /** A nonzero selectCharge rejects a track of any other sign; with selectCharge 0 the sign plays no part. */
  lemma ChargeSelection(cfg: QaConfig, isMC: bool, t: Track, s: int)
    ensures cfg.selectCharge != 0 && t.sign != cfg.selectCharge ==> !IsSelectedTrack(cfg, isMC, t)
    ensures cfg.selectCharge == 0 ==> (IsSelectedTrack(cfg, isMC, t) <==> IsSelectedTrack(cfg, isMC, t.(sign := s)))
  {
  }

  /** On data only the charge is checked. */
  lemma DataSelectsOnChargeOnly(cfg: QaConfig, t: Track)
    ensures IsSelectedTrack(cfg, false, t) <==> ChargeAccepted(cfg, t)
  {
  }

  /** In Monte Carlo a track without a particle passes iff it passes the charge cut and no particle requirement is set. */
  lemma NoParticleSelection(cfg: QaConfig, t: Track)
    requires t.mcParticle.None?
    ensures IsSelectedTrack(cfg, true, t) <==>
      ChargeAccepted(cfg, t) && !cfg.selectPrim && !cfg.selectSec && cfg.selectPID == 0
  {
  }

  /** Requiring both primaries and secondaries rejects every track that has a particle. */
  lemma PrimaryAndSecondaryExclusive(cfg: QaConfig, t: Track)
    requires cfg.selectPrim && cfg.selectSec && t.mcParticle.Some?
    ensures !IsSelectedTrack(cfg, true, t)
  {
  }

  /**
   * A nonzero selectPID keeps only tracks whose particle has that absolute PDG
   * code; with the code matching and the other requirements met, the track passes.
   */
  lemma PidSelection(cfg: QaConfig, t: Track)
    requires cfg.selectPID != 0 && t.mcParticle.Some?
    ensures IsSelectedTrack(cfg, true, t) ==> AbsInt(t.mcParticle.value.pdgCode) == cfg.selectPID
    ensures (AbsInt(t.mcParticle.value.pdgCode) == cfg.selectPID && ChargeAccepted(cfg, t) &&
      !(cfg.selectPrim && !t.mcParticle.value.isPhysicalPrimary) &&
      !(cfg.selectSec && t.mcParticle.value.isPhysicalPrimary)) ==> IsSelectedTrack(cfg, true, t)
  {
  }

  /** Number of tracks passing isSelectedTrack. */
  function NumSelected(cfg: QaConfig, isMC: bool, ts: seq<Track>): (n: nat)
    ensures n <= |ts|
  {
    if ts == [] then 0
    else
      var last := ts[|ts| - 1];
      NumSelected(cfg, isMC, ts[..|ts| - 1]) + (if IsSelectedTrack(cfg, isMC, last) then 1 else 0)
  }

  /** The selected tracks, in their order. */
  function Selected(cfg: QaConfig, isMC: bool, ts: seq<Track>): (s: seq<Track>)
    ensures |s| == NumSelected(cfg, isMC, ts)
  {
    if ts == [] then []
    else
      var last := ts[|ts| - 1];
      Selected(cfg, isMC, ts[..|ts| - 1]) + (if IsSelectedTrack(cfg, isMC, last) then [last] else [])
  }

  /** A track is among the selected ones iff it is one of the tracks and passes isSelectedTrack. */
  lemma {:induction false} SelectedMembers(cfg: QaConfig, isMC: bool, ts: seq<Track>)
    ensures forall t :: t in Selected(cfg, isMC, ts) <==> t in ts && IsSelectedTrack(cfg, isMC, t)
  {
    if ts != [] {
      var init := ts[..|ts| - 1];
      SelectedMembers(cfg, isMC, init);
      assert ts == init + [ts[|ts| - 1]];
    }
  }

  /** The counting loop of processReco: nTracks. */
  method CountSelectedTracks(cfg: QaConfig, isMC: bool, tracks: seq<Track>) returns (nTracks: nat)
    ensures nTracks == NumSelected(cfg, isMC, tracks)
  {
    nTracks := 0;
    for i := 0 to |tracks|
      invariant nTracks == NumSelected(cfg, isMC, tracks[..i])
    {
      assert tracks[..i + 1][..i] == tracks[..i];
      if !IsSelectedTrack(cfg, isMC, tracks[i]) {
        continue;
      }
      nTracks := nTracks + 1;
    }
    assert tracks[..|tracks|] == tracks;
  }

  // ---------------------------------------------------------------------------
  // Bits
  // ---------------------------------------------------------------------------

  /** Bit `i` of `m`, counted from the least significant: what `m & (1 << i)` tests. */
  predicate BitSet(m: nat, i: nat)
  {
    if i == 0 then m % 2 == 1 else BitSet(m / 2, i - 1)
  }

  /** The positions of the set bits of `m` below `k`, in increasing order. */
  function SetBitsBelow(m: nat, k: nat): (s: seq<int>)
    ensures |s| <= k
  {
    if k == 0 then []
    else SetBitsBelow(m, k - 1) + (if BitSet(m, k - 1) then [k - 1] else [])
  }

  /** SetBitsBelow lists each set bit below `k` exactly once, in strictly increasing order, and nothing else. */
  lemma {:induction false} SetBitsBelowSpec(m: nat, k: nat)
    ensures forall i :: i in SetBitsBelow(m, k) <==> 0 <= i < k && BitSet(m, i)
    ensures forall a, b :: 0 <= a < b < |SetBitsBelow(m, k)| ==> SetBitsBelow(m, k)[a] < SetBitsBelow(m, k)[b]
  {
    if k > 0 {
      var prev := SetBitsBelow(m, k - 1);
      SetBitsBelowSpec(m, k - 1);
      forall a | 0 <= a < |prev|
        ensures prev[a] < k - 1
      {
        assert prev[a] in prev;
      }
    }
  }

  /** One entry at each listed position. */
  function Positions(bits: seq<int>): (es: seq<Entry>)
    ensures |es| == |bits|
  {
    if bits == [] then [] else Positions(bits[..|bits| - 1]) + [Entry1(bits[|bits| - 1] as real)]
  }

  /** One entry (layer, n) for each listed layer. */
  function LayerEntries(layers: seq<int>, n: nat): (es: seq<Entry>)
    ensures |es| == |layers|
  {
    if layers == [] then [] else LayerEntries(layers[..|layers| - 1], n) + [Entry2(layers[|layers| - 1] as real, n as real)]
  }

  lemma PositionsSnoc(bits: seq<int>, b: int)
    ensures Positions(bits + [b]) == Positions(bits) + [Entry1(b as real)]
  {
    assert (bits + [b])[..|bits|] == bits;
  }

  lemma LayerEntriesSnoc(layers: seq<int>, l: int, n: nat)
    ensures LayerEntries(layers + [l], n) == LayerEntries(layers, n) + [Entry2(l as real, n as real)]
  {
    assert (layers + [l])[..|layers|] == layers;
  }

  /** The ITS layers 0 .. 6 whose bit is set in the cluster map. */
  function ItsLayers(clusterMap: Uint8): seq<int>
  {
    SetBitsBelow(clusterMap, 7)
  }

  /** The itsHits fills of one track: (layer, itsNhits) per layer hit, or one (-1, 0) when none is. */
  function ItsHitEntries(clusterMap: Uint8): seq<Entry>
  {
    var layers := ItsLayers(clusterMap);
    if layers == [] then [Entry2(-1.0, 0.0)] else LayerEntries(layers, |layers|)
  }

  lemma {:induction false} LayerEntriesMembers(layers: seq<int>, n: nat)
    ensures forall l: int :: Entry2(l as real, n as real) in LayerEntries(layers, n) <==> l in layers
    ensures forall e :: e in LayerEntries(layers, n) ==> e.Entry2? && e.y == n as real
  {
    if layers != [] {
      var init := layers[..|layers| - 1];
      LayerEntriesMembers(init, n);
      assert layers == init + [layers[|layers| - 1]];
    }
  }

  /**
   * itsHits gains one entry per layer hit, each at (layer, number of layers hit),
   * and exactly one entry at layer -1 with 0 hits when no layer is hit.
   */
  lemma ItsHitsShape(clusterMap: Uint8)
    ensures var n := |ItsLayers(clusterMap)|;
      |ItsHitEntries(clusterMap)| == (if n == 0 then 1 else n) &&
      (n == 0 ==> ItsHitEntries(clusterMap) == [Entry2(-1.0, 0.0)]) &&
      (forall e :: e in ItsHitEntries(clusterMap) ==> e.Entry2? && e.y == n as real) &&
      (forall l: nat :: l < 7 ==> (Entry2(l as real, n as real) in ItsHitEntries(clusterMap) <==> BitSet(clusterMap, l)))
  {
    var layers := ItsLayers(clusterMap);
    SetBitsBelowSpec(clusterMap, 7);
    LayerEntriesMembers(layers, |layers|);
  }

  // ---------------------------------------------------------------------------
  // Reconstructed-level histograms
  // ---------------------------------------------------------------------------

  datatype QaHist =
    | EventsRecoEff | EventsPosZ | EventsNContribVsMult | EventsNTracks | TracksRecoEff
    | KinePt | KineEta | KinePhi | Flags | ItsNCls | ItsHits | ResoPt | HasIts | HasTpc | HasItsAndTpc

  function B2I(b: bool): nat
  {
    if b then 1 else 0
  }

  /** The kinematic fills of one selected track. */
  function KinematicFills(h: Registry<QaHist>, t: Track): Registry<QaHist>
  {
    Fill(Fill(Fill(h, KinePt, Entry1(t.pt)), KineEta, Entry1(t.eta)), KinePhi, Entry1(t.phi))
  }

  /** The flag-bit and ITS fills of one selected track. */
  function ClusterFills(h: Registry<QaHist>, t: Track): Registry<QaHist>
  {
    var h1 := FillAll(h, Flags, Positions(SetBitsBelow(t.flags, 32)));
    var h2 := Fill(h1, ItsNCls, Entry1(t.itsNCls as real));
    FillAll(h2, ItsHits, ItsHitEntries(t.itsClusterMap))
  }

  /** The resolution fill (Monte Carlo with a particle) and the ITS / TPC matching fills of one selected track. */
  function MatchingFills(h: Registry<QaHist>, isMC: bool, t: Track): Registry<QaHist>
  {
    var reso := if t.mcParticle.Some? then t.pt - t.mcParticle.value.pt else 0.0;
    var h1 := FillIf(h, isMC && t.mcParticle.Some?, ResoPt, Entry2(reso, t.pt));
    var h2 := FillIf(h1, t.hasITS, HasIts, Entry1(t.pt));
    var h3 := FillIf(h2, t.hasTPC, HasTpc, Entry1(t.pt));
    FillIf(h3, t.hasITS && t.hasTPC, HasItsAndTpc, Entry1(t.pt))
  }

  /** The fills of the track loop of processReco for one selected track. */
  function SelectedTrackFills(h: Registry<QaHist>, isMC: bool, t: Track): Registry<QaHist>
  {
    MatchingFills(ClusterFills(KinematicFills(h, t), t), isMC, t)
  }

  /** Histograms that only the event part of processReco fills. */
  predicate IsEventHist(k: QaHist)
  {
    k.EventsRecoEff? || k.EventsPosZ? || k.EventsNContribVsMult? || k.EventsNTracks? || k.TracksRecoEff?
  }

  /** The entries the kinematic fills add to histogram `k`. */
  function KinematicAdded(t: Track, k: QaHist): seq<Entry>
  {
    match k
    case KinePt => [Entry1(t.pt)]
    case KineEta => [Entry1(t.eta)]
    case KinePhi => [Entry1(t.phi)]
    case _ => []
  }

  /** The entries the flag-bit and ITS fills add to histogram `k`. */
  function ClusterAdded(t: Track, k: QaHist): seq<Entry>
  {
    match k
    case Flags => Positions(SetBitsBelow(t.flags, 32))
    case ItsNCls => [Entry1(t.itsNCls as real)]
    case ItsHits => ItsHitEntries(t.itsClusterMap)
    case _ => []
  }

  /** The entries the resolution and matching fills add to histogram `k`. */
  function MatchingAdded(isMC: bool, t: Track, k: QaHist): seq<Entry>
  {
    match k
    case ResoPt => if isMC && t.mcParticle.Some? then [Entry2(t.pt - t.mcParticle.value.pt, t.pt)] else []
    case HasIts => if t.hasITS then [Entry1(t.pt)] else []
    case HasTpc => if t.hasTPC then [Entry1(t.pt)] else []
    case HasItsAndTpc => if t.hasITS && t.hasTPC then [Entry1(t.pt)] else []
    case _ => []
  }

  /** The entries one selected track adds to histogram `k`. */
  function TrackAdded(isMC: bool, t: Track, k: QaHist): seq<Entry>
  {
    match k
    case KinePt => [Entry1(t.pt)]
    case KineEta => [Entry1(t.eta)]
    case KinePhi => [Entry1(t.phi)]
    case Flags => Positions(SetBitsBelow(t.flags, 32))
    case ItsNCls => [Entry1(t.itsNCls as real)]
    case ItsHits => ItsHitEntries(t.itsClusterMap)
    case ResoPt => if isMC && t.mcParticle.Some? then [Entry2(t.pt - t.mcParticle.value.pt, t.pt)] else []
    case HasIts => if t.hasITS then [Entry1(t.pt)] else []
    case HasTpc => if t.hasTPC then [Entry1(t.pt)] else []
    case HasItsAndTpc => if t.hasITS && t.hasTPC then [Entry1(t.pt)] else []
    case _ => []
  }

  lemma KinematicFillsEffect(h: Registry<QaHist>, t: Track, k: QaHist)
    ensures Entries(KinematicFills(h, t), k) == Entries(h, k) + KinematicAdded(t, k)
  {
  }

  lemma ClusterFillsEffect(h: Registry<QaHist>, t: Track, k: QaHist)
    ensures Entries(ClusterFills(h, t), k) == Entries(h, k) + ClusterAdded(t, k)
  {
  }

  lemma MatchingFillsEffect(h: Registry<QaHist>, isMC: bool, t: Track, k: QaHist)
    ensures Entries(MatchingFills(h, isMC, t), k) == Entries(h, k) + MatchingAdded(isMC, t, k)
  {
  }

  /** Each histogram gains exactly what the selected track adds to it, in fill order. */
  lemma SelectedTrackAdds(h: Registry<QaHist>, isMC: bool, t: Track, k: QaHist)
    ensures Entries(SelectedTrackFills(h, isMC, t), k) == Entries(h, k) + TrackAdded(isMC, t, k)
  {
    var h1 := KinematicFills(h, t);
    var h2 := ClusterFills(h1, t);
    KinematicFillsEffect(h, t, k);
    ClusterFillsEffect(h1, t, k);
    MatchingFillsEffect(h2, isMC, t, k);
    TrackAddedParts(isMC, t, k);
    FillsCompose(h, h1, h2, SelectedTrackFills(h, isMC, t), k, KinematicAdded(t, k), ClusterAdded(t, k), MatchingAdded(isMC, t, k));
  }

  /** Each histogram is filled by exactly one part of the track loop body. */
  lemma TrackAddedParts(isMC: bool, t: Track, k: QaHist)
    ensures TrackAdded(isMC, t, k) == KinematicAdded(t, k) + ClusterAdded(t, k) + MatchingAdded(isMC, t, k)
  {
    match k
    case KinePt | KineEta | KinePhi =>
      assert ClusterAdded(t, k) == [] && MatchingAdded(isMC, t, k) == [];
    case Flags | ItsNCls | ItsHits =>
      assert KinematicAdded(t, k) == [] && MatchingAdded(isMC, t, k) == [];
    case ResoPt | HasIts | HasTpc | HasItsAndTpc =>
      assert KinematicAdded(t, k) == [] && ClusterAdded(t, k) == [];
    case _ =>
  }

  /**
   * What one selected track adds: one pt entry, one flags entry per set bit,
   * its ITS hits, the matching fills, and nothing to the event histograms.
   */
  lemma TrackAddedShape(isMC: bool, t: Track)
    ensures |TrackAdded(isMC, t, KinePt)| == 1
    ensures TrackAdded(isMC, t, Flags) == Positions(SetBitsBelow(t.flags, 32))
    ensures TrackAdded(isMC, t, ItsHits) == ItsHitEntries(t.itsClusterMap)
    ensures |TrackAdded(isMC, t, HasIts)| == B2I(t.hasITS)
    ensures |TrackAdded(isMC, t, HasItsAndTpc)| == B2I(t.hasITS && t.hasTPC)
    ensures forall k :: IsEventHist(k) ==> TrackAdded(isMC, t, k) == []
  {
  }

  /** The fills of one iteration of the track loop: nothing for a track that is not selected. */
  function TrackFills(h: Registry<QaHist>, cfg: QaConfig, isMC: bool, t: Track): Registry<QaHist>
  {
    if IsSelectedTrack(cfg, isMC, t) then SelectedTrackFills(h, isMC, t) else h
  }

  function TrackLoopFills(h: Registry<QaHist>, cfg: QaConfig, isMC: bool, ts: seq<Track>): Registry<QaHist>
  {
    if ts == [] then h else TrackFills(TrackLoopFills(h, cfg, isMC, ts[..|ts| - 1]), cfg, isMC, ts[|ts| - 1])
  }

  /**
   * The event fills of processReco for a selected event, before the track
   * loop; `tableSize` is the size of the track table before the framework
   * filter, recorded as a weight.
   */
  function SelectedEventFills(h: Registry<QaHist>, c: Collision, nTracks: nat, tracks: seq<Track>, tableSize: nat): Registry<QaHist>
  {
    var h1 := Fill(h, EventsRecoEff, Entry1(2.0));
    var h2 := Fill(h1, EventsPosZ, Entry1(c.posZ));
    var h3 := Fill(h2, EventsNContribVsMult, Entry2(c.numContrib as real, nTracks as real));
    var h4 := Fill(h3, EventsNTracks, Entry1(nTracks as real));
    Fill(Fill(h4, TracksRecoEff, Weighted(1.0, tableSize as real)), TracksRecoEff, Weighted(2.0, |tracks| as real))
  }

  /** The fills of processReco. */
  function RecoFills(h: Registry<QaHist>, cfg: QaConfig, isMC: bool, c: Collision, tracks: seq<Track>, tableSize: nat): Registry<QaHist>
  {
    var h1 := Fill(h, EventsRecoEff, Entry1(1.0));
    if !EventSelected(cfg, c) then h1
    else TrackLoopFills(SelectedEventFills(h1, c, NumSelected(cfg, isMC, tracks), tracks, tableSize), cfg, isMC, tracks)
  }

  /** The entries the event fills of a selected event add to histogram `k`. */
  function EventAdded(c: Collision, nTracks: nat, tracks: seq<Track>, tableSize: nat, k: QaHist): seq<Entry>
  {
    match k
    case EventsRecoEff => [Entry1(2.0)]
    case EventsPosZ => [Entry1(c.posZ)]
    case EventsNContribVsMult => [Entry2(c.numContrib as real, nTracks as real)]
    case EventsNTracks => [Entry1(nTracks as real)]
    case TracksRecoEff => [Weighted(1.0, tableSize as real), Weighted(2.0, |tracks| as real)]
    case _ => []
  }

  lemma SelectedEventFillsEffect(h: Registry<QaHist>, c: Collision, nTracks: nat, tracks: seq<Track>, tableSize: nat, k: QaHist)
    ensures Entries(SelectedEventFills(h, c, nTracks, tracks, tableSize), k) == Entries(h, k) + EventAdded(c, nTracks, tracks, tableSize, k)
  {
    if k == TracksRecoEff {
      assert Entries(h, k) + [Weighted(1.0, tableSize as real)] + [Weighted(2.0, |tracks| as real)]
        == Entries(h, k) + [Weighted(1.0, tableSize as real), Weighted(2.0, |tracks| as real)];
    }
  }

  /** What the track loop adds to histogram `k`: the additions of the selected tracks, in track order. */
  function LoopAdded(cfg: QaConfig, isMC: bool, ts: seq<Track>, k: QaHist): seq<Entry>
  {
    if ts == [] then []
    else
      var last := ts[|ts| - 1];
      LoopAdded(cfg, isMC, ts[..|ts| - 1], k) + (if IsSelectedTrack(cfg, isMC, last) then TrackAdded(isMC, last, k) else [])
  }

  /** Over the track loop each histogram gains the additions of the selected tracks and nothing else. */
  lemma {:induction false} TrackLoopAdds(h: Registry<QaHist>, cfg: QaConfig, isMC: bool, ts: seq<Track>, k: QaHist)
    ensures Entries(TrackLoopFills(h, cfg, isMC, ts), k) == Entries(h, k) + LoopAdded(cfg, isMC, ts, k)
  {
    if ts != [] {
      var init := ts[..|ts| - 1];
      var t := ts[|ts| - 1];
      TrackLoopAdds(h, cfg, isMC, init, k);
      var prev := TrackLoopFills(h, cfg, isMC, init);
      var added := if IsSelectedTrack(cfg, isMC, t) then TrackAdded(isMC, t, k) else [];
      if IsSelectedTrack(cfg, isMC, t) {
        SelectedTrackAdds(prev, isMC, t, k);
      }
      FillsCompose2(h, prev, TrackLoopFills(h, cfg, isMC, ts), k, LoopAdded(cfg, isMC, init, k), added);
    }
  }

  /**
   * The loop adds one pt entry per selected track, never more ITS-and-TPC
   * entries than ITS entries, and nothing to the event histograms.
   */
  lemma {:induction false} LoopAddedCounts(cfg: QaConfig, isMC: bool, ts: seq<Track>)
    ensures |LoopAdded(cfg, isMC, ts, KinePt)| == NumSelected(cfg, isMC, ts)
    ensures |LoopAdded(cfg, isMC, ts, HasItsAndTpc)| <= |LoopAdded(cfg, isMC, ts, HasIts)|
    ensures forall k :: IsEventHist(k) ==> LoopAdded(cfg, isMC, ts, k) == []
  {
    if ts != [] {
      LoopAddedCounts(cfg, isMC, ts[..|ts| - 1]);
      TrackAddedShape(isMC, ts[|ts| - 1]);
    }
  }

  /** What processReco adds to histogram `k`. */
  function RecoAdded(cfg: QaConfig, isMC: bool, c: Collision, tracks: seq<Track>, tableSize: nat, k: QaHist): seq<Entry>
  {
    var first := if k == EventsRecoEff then [Entry1(1.0)] else [];
    if !EventSelected(cfg, c) then first
    else first + EventAdded(c, NumSelected(cfg, isMC, tracks), tracks, tableSize, k) + LoopAdded(cfg, isMC, tracks, k)
  }

  /** processReco adds to each histogram exactly its event and track-loop entries, in fill order. */
  lemma RecoFillsAdds(h: Registry<QaHist>, cfg: QaConfig, isMC: bool, c: Collision, tracks: seq<Track>, tableSize: nat, k: QaHist)
    ensures Entries(RecoFills(h, cfg, isMC, c, tracks, tableSize), k) == Entries(h, k) + RecoAdded(cfg, isMC, c, tracks, tableSize, k)
  {
    var h1 := Fill(h, EventsRecoEff, Entry1(1.0));
    var first := if k == EventsRecoEff then [Entry1(1.0)] else [];
    FillEffect(h, EventsRecoEff, Entry1(1.0), k);
    if EventSelected(cfg, c) {
      var n := NumSelected(cfg, isMC, tracks);
      var e := SelectedEventFills(h1, c, n, tracks, tableSize);
      SelectedEventFillsEffect(h1, c, n, tracks, tableSize, k);
      TrackLoopAdds(e, cfg, isMC, tracks, k);
      FillsCompose(h, h1, e, RecoFills(h, cfg, isMC, c, tracks, tableSize), k,
        first, EventAdded(c, n, tracks, tableSize, k), LoopAdded(cfg, isMC, tracks, k));
    }
  }

  /**
   * A selected event fills bins 1 and 2 of the event counter and records
   * nTracks, which equals the number of pt entries the track loop adds, and
   * the loop never adds more ITS-and-TPC entries than ITS entries; a rejected
   * event only fills bin 1 of the event counter.
   */
  lemma RecoAddedCounts(cfg: QaConfig, isMC: bool, c: Collision, tracks: seq<Track>, tableSize: nat)
    ensures EventSelected(cfg, c) ==>
      RecoAdded(cfg, isMC, c, tracks, tableSize, EventsRecoEff) == [Entry1(1.0), Entry1(2.0)] &&
      RecoAdded(cfg, isMC, c, tracks, tableSize, EventsNTracks) == [Entry1(NumSelected(cfg, isMC, tracks) as real)] &&
      |RecoAdded(cfg, isMC, c, tracks, tableSize, KinePt)| == NumSelected(cfg, isMC, tracks) &&
      |RecoAdded(cfg, isMC, c, tracks, tableSize, HasItsAndTpc)| <= |RecoAdded(cfg, isMC, c, tracks, tableSize, HasIts)|
    ensures !EventSelected(cfg, c) ==>
      forall k :: RecoAdded(cfg, isMC, c, tracks, tableSize, k) == (if k == EventsRecoEff then [Entry1(1.0)] else [])
  {
    if EventSelected(cfg, c) {
      LoopAddedCounts(cfg, isMC, tracks);
      assert IsEventHist(EventsRecoEff) && IsEventHist(EventsNTracks);
    }
  }

  // ---------------------------------------------------------------------------
  // Skimmed tables
  // ---------------------------------------------------------------------------

  /** A DPGCollisions row; `isEventReject` holds the event-selection bit, 1 when it is set. */
  datatype CollisionRow = CollisionRow(posZ: real, isEventReject: int, runNumber: int)

  /** A DPGTracks row: the index of its collision row, then the track's columns. */
  datatype TrackRow = TrackRow(
    dpgCollisionId: int,
    pt: real,
    eta: real,
    phi: real,
    ptReso: real,
    flags: Uint32,
    sign: int,
    dcaXY: real,
    dcaZ: real,
    length: real,
    itsClusterMap: Uint8,
    itsChi2NCl: real,
    tpcChi2NCl: real,
    trdChi2: real,
    tofChi2: real,
    hasITS: bool,
    hasTPC: bool,
    hasTRD: bool,
    hasTOF: bool,
    tpcNClsFound: int,
    tpcNClsCrossedRows: int,
    tpcCrossedRowsOverFindableCls: real,
    tpcFoundOverFindableCls: real,
    tpcFractionSharedCls: real,
    itsNCls: int,
    itsNClsInnerBarrel: int)

  /** A DPGParticles row. */
  datatype ParticleRow = ParticleRow(ptMC: real, etaMC: real, phiMC: real, pdgCode: int, productionMode: int)

  function MakeCollisionRow(cfg: QaConfig, c: Collision): CollisionRow
  {
    CollisionRow(c.posZ, if SelectionFlag(cfg, c) then 1 else 0, c.runNumber)
  }

  /**
   * The isEventReject column holds 1 exactly when the selection bit is set, so
   * with selectGoodEvents every collision row written carries 1.
   */
  lemma CollisionRowFlag(cfg: QaConfig, c: Collision)
    ensures MakeCollisionRow(cfg, c).isEventReject == 1 <==> SelectionFlag(cfg, c)
    ensures MakeCollisionRow(cfg, c).isEventReject == 0 <==> !SelectionFlag(cfg, c)
    ensures cfg.selectGoodEvents && EventSelected(cfg, c) ==> MakeCollisionRow(cfg, c).isEventReject == 1
  {
  }

  function MakeTrackRow(collisionIndex: int, t: Track): TrackRow
  {
    TrackRow(collisionIndex, t.pt, t.eta, t.phi, t.ptReso, t.flags, t.sign, t.dcaXY, t.dcaZ, t.length,
      t.itsClusterMap, t.itsChi2NCl, t.tpcChi2NCl, t.trdChi2, t.tofChi2,
      t.hasITS, t.hasTPC, t.hasTRD, t.hasTOF, t.tpcNClsFound, t.tpcNClsCrossedRows,
      t.tpcCrossedRowsOverFindableCls, t.tpcFoundOverFindableCls, t.tpcFractionSharedCls,
      t.itsNCls, t.itsNClsInnerBarrel)
  }

  /** Production mode: 0 for a physical primary, otherwise 1 for process 4 (weak decay), otherwise 2 (material). */
  function ProductionMode(p: McParticle): (mode: int)
    ensures mode == 0 <==> p.isPhysicalPrimary
    ensures mode == 1 <==> !p.isPhysicalPrimary && p.process == 4
    ensures mode == 2 <==> !p.isPhysicalPrimary && p.process != 4
  {
    if p.isPhysicalPrimary then 0 else if p.process == 4 then 1 else 2
  }

  /** The particle row of a track: its particle's kinematics, or its own with PDG code 0 and mode -1 when it has none. */
  function MakeParticleRow(t: Track): ParticleRow
  {
    match t.mcParticle
    case Some(p) => ParticleRow(p.pt, p.eta, p.phi, p.pdgCode, ProductionMode(p))
    case None => ParticleRow(t.pt, t.eta, t.phi, 0, -1)
  }

  /** Mode -1 marks exactly the rows of tracks without a particle; every other row carries mode 0, 1 or 2. */
  lemma ParticleRowMode(t: Track)
    ensures MakeParticleRow(t).productionMode == -1 <==> t.mcParticle.None?
    ensures t.mcParticle.Some? ==> 0 <= MakeParticleRow(t).productionMode <= 2
    ensures t.mcParticle.None? ==> (MakeParticleRow(t).pdgCode == 0 &&
      MakeParticleRow(t).ptMC == t.pt && MakeParticleRow(t).etaMC == t.eta && MakeParticleRow(t).phiMC == t.phi)
  {
  }

  /** The track rows the loop of processRecoTable appends. */
  function TrackRows(cfg: QaConfig, isMC: bool, collisionIndex: int, ts: seq<Track>): seq<TrackRow>
  {
    if ts == [] then []
    else
      var last := ts[|ts| - 1];
      TrackRows(cfg, isMC, collisionIndex, ts[..|ts| - 1]) +
        (if IsSelectedTrack(cfg, isMC, last) then [MakeTrackRow(collisionIndex, last)] else [])
  }

  /** The particle rows the loop of processRecoTable appends in Monte Carlo. */
  function ParticleRows(cfg: QaConfig, isMC: bool, ts: seq<Track>): seq<ParticleRow>
  {
    if ts == [] then []
    else
      var last := ts[|ts| - 1];
      ParticleRows(cfg, isMC, ts[..|ts| - 1]) + (if IsSelectedTrack(cfg, isMC, last) then [MakeParticleRow(last)] else [])
  }

  /**
   * Row k of the appended tracks and row k of the appended particles both
   * describe the k-th selected track, and the track rows point at the given
   * collision row: the two tables grow by the same number of rows.
   */
  lemma {:induction false} RowsFollowSelected(cfg: QaConfig, isMC: bool, collisionIndex: int, ts: seq<Track>)
    ensures |TrackRows(cfg, isMC, collisionIndex, ts)| == |ParticleRows(cfg, isMC, ts)| == NumSelected(cfg, isMC, ts)
    ensures forall k :: 0 <= k < |Selected(cfg, isMC, ts)| ==>
      TrackRows(cfg, isMC, collisionIndex, ts)[k] == MakeTrackRow(collisionIndex, Selected(cfg, isMC, ts)[k]) &&
      ParticleRows(cfg, isMC, ts)[k] == MakeParticleRow(Selected(cfg, isMC, ts)[k])
    ensures forall r :: r in TrackRows(cfg, isMC, collisionIndex, ts) ==> r.dpgCollisionId == collisionIndex
  {
    if ts != [] {
      RowsFollowSelected(cfg, isMC, collisionIndex, ts[..|ts| - 1]);
    }
  }

  const BothTableModesError := "Cannot enable processTableData and processTableMC at the same time. Please choose one."

  /** Outcome of init: enabling both table-producing process functions is fatal. */
  function CheckProcessSwitches(doprocessTableData: bool, doprocessTableMC: bool): (r: Outcome<string>)
    ensures r.Fail? <==> doprocessTableData && doprocessTableMC
  {
    if doprocessTableData && doprocessTableMC then Fail(BothTableModesError) else Pass
  }

  // ---------------------------------------------------------------------------
  // The task
  // ---------------------------------------------------------------------------

  /** The QA task: configuration, histogram registry and the three produced tables. */
  class QaEventTrackTask {
    const cfg: QaConfig
    var histos: Registry<QaHist>
    var tableCollisions: seq<CollisionRow>
    var tableTracks: seq<TrackRow>
    var tableParticles: seq<ParticleRow>

    /** init: the task only starts when at most one table-producing process function is enabled. */
    constructor (cfg: QaConfig, doprocessTableData: bool, doprocessTableMC: bool)
      requires CheckProcessSwitches(doprocessTableData, doprocessTableMC) == Pass
      ensures this.cfg == cfg && histos == map[]
      ensures tableCollisions == [] && tableTracks == [] && tableParticles == []
    {
      this.cfg := cfg;
      histos := map[];
      tableCollisions, tableTracks, tableParticles := [], [], [];
    }

    /** The flag-bit loop of processReco, over bits 0 .. 31. */
    method FillFlags(flags: Uint32)
      modifies this
      ensures histos == FillAll(old(histos), Flags, Positions(SetBitsBelow(flags, 32)))
      ensures unchanged(this`tableCollisions, this`tableTracks, this`tableParticles)
    {
      ghost var bits: seq<int> := [];
      FillAllEmpty(histos, Flags);
      for i := 0 to 32
        invariant bits == SetBitsBelow(flags, i)
        invariant histos == FillAll(old(histos), Flags, Positions(bits))
        invariant unchanged(this`tableCollisions, this`tableTracks, this`tableParticles)
      {
        if BitSet(flags, i) {
          PositionsSnoc(bits, i);
          FillAllSnoc(old(histos), Flags, Positions(bits), Entry1(i as real));
          histos := Fill(histos, Flags, Entry1(i as real));
          bits := bits + [i];
        }
      }
    }

    /** The first ITS loop of processReco: the number of layers hit. */
    static method CountItsHits(clusterMap: Uint8) returns (itsNhits: nat)
      ensures itsNhits == |ItsLayers(clusterMap)|
    {
      itsNhits := 0;
      for i := 0 to 7
        invariant itsNhits == |SetBitsBelow(clusterMap, i)|
      {
        if BitSet(clusterMap, i) {
          itsNhits := itsNhits + 1;
        }
      }
    }

    /** The second ITS loop of processReco: one (layer, itsNhits) entry per layer hit. */
    method FillItsLayers(clusterMap: Uint8, itsNhits: nat) returns (trkHasITS: bool)
      modifies this
      ensures histos == FillAll(old(histos), ItsHits, LayerEntries(ItsLayers(clusterMap), itsNhits))
      ensures trkHasITS <==> ItsLayers(clusterMap) != []
      ensures unchanged(this`tableCollisions, this`tableTracks, this`tableParticles)
    {
      trkHasITS := false;
      ghost var layers: seq<int> := [];
      FillAllEmpty(histos, ItsHits);
      for i := 0 to 7
        invariant layers == SetBitsBelow(clusterMap, i)
        invariant histos == FillAll(old(histos), ItsHits, LayerEntries(layers, itsNhits))
        invariant trkHasITS <==> layers != []
        invariant unchanged(this`tableCollisions, this`tableTracks, this`tableParticles)
      {
        if BitSet(clusterMap, i) {
          trkHasITS := true;
          LayerEntriesSnoc(layers, i, itsNhits);
          FillAllSnoc(old(histos), ItsHits, LayerEntries(layers, itsNhits), Entry2(i as real, itsNhits as real));
          histos := Fill(histos, ItsHits, Entry2(i as real, itsNhits as real));
          layers := layers + [i];
        }
      }
    }

    /** The ITS part of processReco: count the layers hit, then fill one entry per layer hit, or layer -1 when none is. */
    method FillItsHits(clusterMap: Uint8)
      modifies this
      ensures histos == FillAll(old(histos), ItsHits, ItsHitEntries(clusterMap))
      ensures unchanged(this`tableCollisions, this`tableTracks, this`tableParticles)
    {
      var itsNhits := CountItsHits(clusterMap);
      var trkHasITS := FillItsLayers(clusterMap, itsNhits);
      if !trkHasITS {
        FillAllSnoc(old(histos), ItsHits, [], Entry2(-1.0, 0.0));
        histos := Fill(histos, ItsHits, Entry2(-1.0, itsNhits as real));
      }
    }

    /** The kinematic fills of the track loop body. */
    method FillKinematics(track: Track)
      modifies this
      ensures histos == KinematicFills(old(histos), track)
      ensures unchanged(this`tableCollisions, this`tableTracks, this`tableParticles)
    {
      histos := Fill(histos, KinePt, Entry1(track.pt));
      histos := Fill(histos, KineEta, Entry1(track.eta));
      histos := Fill(histos, KinePhi, Entry1(track.phi));
    }

    /** The flag-bit, ITS-cluster and ITS-layer fills of the track loop body. */
    method FillClusters(track: Track)
      modifies this
      ensures histos == ClusterFills(old(histos), track)
      ensures unchanged(this`tableCollisions, this`tableTracks, this`tableParticles)
    {
      FillFlags(track.flags);
      histos := Fill(histos, ItsNCls, Entry1(track.itsNCls as real));
      FillItsHits(track.itsClusterMap);
    }

    /** The resolution and ITS / TPC matching fills of the track loop body. */
    method FillMatching(isMC: bool, track: Track)
      modifies this
      ensures histos == MatchingFills(old(histos), isMC, track)
      ensures unchanged(this`tableCollisions, this`tableTracks, this`tableParticles)
    {
      if isMC {
        if track.mcParticle.Some? {
          var particle := track.mcParticle.value;
          histos := Fill(histos, ResoPt, Entry2(track.pt - particle.pt, track.pt));
        }
      }
      if track.hasITS {
        histos := Fill(histos, HasIts, Entry1(track.pt));
      }
      if track.hasTPC {
        histos := Fill(histos, HasTpc, Entry1(track.pt));
      }
      if track.hasITS && track.hasTPC {
        histos := Fill(histos, HasItsAndTpc, Entry1(track.pt));
      }
    }

    /** The body of the track loop of processReco for a selected track. */
    method FillSelectedTrack(isMC: bool, track: Track)
      modifies this
      ensures histos == SelectedTrackFills(old(histos), isMC, track)
      ensures unchanged(this`tableCollisions, this`tableTracks, this`tableParticles)
    {
      FillKinematics(track);
      FillClusters(track);
      FillMatching(isMC, track);
    }

    /** The event fills of processReco for a selected event. */
    method FillSelectedEvent(collision: Collision, nTracks: nat, tracks: seq<Track>, tableSize: nat)
      modifies this
      ensures histos == SelectedEventFills(old(histos), collision, nTracks, tracks, tableSize)
      ensures unchanged(this`tableCollisions, this`tableTracks, this`tableParticles)
    {
      histos := Fill(histos, EventsRecoEff, Entry1(2.0));
      histos := Fill(histos, EventsPosZ, Entry1(collision.posZ));
      histos := Fill(histos, EventsNContribVsMult, Entry2(collision.numContrib as real, nTracks as real));
      histos := Fill(histos, EventsNTracks, Entry1(nTracks as real));
      histos := Fill(histos, TracksRecoEff, Weighted(1.0, tableSize as real));
      histos := Fill(histos, TracksRecoEff, Weighted(2.0, |tracks| as real));
    }

    /** The track loop of processReco. */
    method FillTracks(isMC: bool, tracks: seq<Track>)
      modifies this
      ensures histos == TrackLoopFills(old(histos), cfg, isMC, tracks)
      ensures unchanged(this`tableCollisions, this`tableTracks, this`tableParticles)
    {
      for i := 0 to |tracks|
        invariant histos == TrackLoopFills(old(histos), cfg, isMC, tracks[..i])
        invariant unchanged(this`tableCollisions, this`tableTracks, this`tableParticles)
      {
        assert tracks[..i + 1][..i] == tracks[..i];
        if !IsSelectedTrack(cfg, isMC, tracks[i]) {
          continue;
        }
        FillSelectedTrack(isMC, tracks[i]);
      }
      assert tracks[..|tracks|] == tracks;
    }

    /** processReco (processData with isMC false, processMC with isMC true). */
    method ProcessReco(isMC: bool, collision: Collision, tracks: seq<Track>, tableSize: nat)
      modifies this
      ensures histos == RecoFills(old(histos), cfg, isMC, collision, tracks, tableSize)
      ensures unchanged(this`tableCollisions, this`tableTracks, this`tableParticles)
    {
      histos := Fill(histos, EventsRecoEff, Entry1(1.0));
      if cfg.selectGoodEvents && !(if cfg.isRun3 then collision.sel8 else collision.sel7) {
        return;
      }
      var nTracks := CountSelectedTracks(cfg, isMC, tracks);
      FillSelectedEvent(collision, nTracks, tracks, tableSize);
      FillTracks(isMC, tracks);
    }

    /**
     * processRecoTable (processTableData / processTableMC): for a selected
     * event, one collision row, then one track row per selected track pointing
     * at it and, in Monte Carlo, one particle row per track row.
     */
    method ProcessRecoTable(isMC: bool, collision: Collision, tracks: seq<Track>)
      modifies this
      ensures !EventSelected(cfg, collision) ==>
        tableCollisions == old(tableCollisions) && tableTracks == old(tableTracks) && tableParticles == old(tableParticles)
      ensures EventSelected(cfg, collision) ==>
        tableCollisions == old(tableCollisions) + [MakeCollisionRow(cfg, collision)] &&
        tableTracks == old(tableTracks) + TrackRows(cfg, isMC, |old(tableCollisions)|, tracks) &&
        tableParticles == old(tableParticles) + (if isMC then ParticleRows(cfg, isMC, tracks) else [])
      ensures histos == old(histos)
    {
      var sel := if cfg.isRun3 then collision.sel8 else collision.sel7;
      if cfg.selectGoodEvents && !sel {
        return;
      }
      tableCollisions := tableCollisions + [CollisionRow(collision.posZ, if sel then 1 else 0, collision.runNumber)];
      AppendTrackRows(isMC, |tableCollisions| - 1, tracks);
    }

    /** The track loop of processRecoTable: rows for the selected tracks, pointing at collision row `lastIndex`. */
    method AppendTrackRows(isMC: bool, lastIndex: int, tracks: seq<Track>)
      modifies this
      ensures tableTracks == old(tableTracks) + TrackRows(cfg, isMC, lastIndex, tracks)
      ensures tableParticles == old(tableParticles) + (if isMC then ParticleRows(cfg, isMC, tracks) else [])
      ensures unchanged(this`histos, this`tableCollisions)
    {
      for i := 0 to |tracks|
        invariant tableTracks == old(tableTracks) + TrackRows(cfg, isMC, lastIndex, tracks[..i])
        invariant tableParticles == old(tableParticles) + (if isMC then ParticleRows(cfg, isMC, tracks[..i]) else [])
        invariant unchanged(this`histos, this`tableCollisions)
      {
        assert tracks[..i + 1][..i] == tracks[..i];
        var track := tracks[i];
        if !IsSelectedTrack(cfg, isMC, track) {
          continue;
        }
        tableTracks := tableTracks + [MakeTrackRow(lastIndex, track)];
        if isMC {
          AppendParticleRow(track);
        }
      }
      assert tracks[..|tracks|] == tracks;
    }

    /** The Monte Carlo part of the loop body of processRecoTable: one particle row for the track. */
    method AppendParticleRow(track: Track)
      modifies this
      ensures tableParticles == old(tableParticles) + [MakeParticleRow(track)]
      ensures unchanged(this`histos, this`tableCollisions, this`tableTracks)
    {
      if track.mcParticle.Some? {
        var particle := track.mcParticle.value;
        var particleProduction := 0;
        if particle.isPhysicalPrimary {
          particleProduction := 0;
        } else if particle.process == 4 {
          particleProduction := 1;
        } else {
          particleProduction := 2;
        }
        tableParticles := tableParticles + [ParticleRow(particle.pt, particle.eta, particle.phi, particle.pdgCode, particleProduction)];
      } else {
        tableParticles := tableParticles + [ParticleRow(track.pt, track.eta, track.phi, 0, -1)];
      }
    }
  }
}
