/**
 * EMCAL cluster data model: the registry of named clusterizer configurations,
 * the lookup of a configuration by its name, and the row schema shared by the
 * table of clusters matched to a collision and the table of ambiguous clusters
 * that carry a bunch-crossing reference instead.
 */
module EmcalClusters {
  import opened Wrappers

  datatype ClusterAlgorithm = V1 | V3

  /**
   * One clusterizer configuration, with the constructor arguments in the order
   * the constants declare them: algorithm, numeric id, version, name, then the
   * five numeric thresholds (seed energy, minimum cell energy, cell-time window
   * low and high edge, gradient cut).
   */
  datatype ClusterDefinition = ClusterDefinition(
    algorithm: ClusterAlgorithm,
    storageId: int,
    version: int,
    name: string,
    seedEnergy: real,
    minCellEnergy: real,
    timeMin: real,
    timeMax: real,
    gradientCut: real)

  // The V1 algorithm is declared but not implemented upstream: only kV1Default
  // carries the V1 tag, its two variations run V3.
  const V1Default := ClusterDefinition(V1, 0, 1, "kV1Default", 0.1, 0.5, -10000.0, 10000.0, 0.03)
  const V1Variation1 := ClusterDefinition(V3, 1, 1, "kV1Variation1", 0.1, 0.3, -10000.0, 10000.0, 0.03)
  const V1Variation2 := ClusterDefinition(V3, 2, 1, "kV1Variation2", 0.1, 0.2, -10000.0, 10000.0, 0.03)
  const V3Default := ClusterDefinition(V3, 10, 1, "kV3Default", 0.1, 0.5, -10000.0, 10000.0, 0.03)
  const V3Variation1 := ClusterDefinition(V3, 11, 1, "kV3Variation1", 0.1, 0.3, -10000.0, 10000.0, 0.03)
  const V3Variation2 := ClusterDefinition(V3, 12, 1, "kV3Variation2", 0.1, 0.2, -10000.0, 10000.0, 0.03)

  /** The six definitions, in declaration order. */
  const Definitions: seq<ClusterDefinition> :=
    [V1Default, V1Variation1, V1Variation2, V3Default, V3Variation1, V3Variation2]

  /** The error the lookup throws (std::invalid_argument) for an unknown name. */
  datatype LookupError = InvalidArgument(message: string)

  const NotRecognized := InvalidArgument("Cluster definition name not recognized")

  ghost predicate IsKnownName(name: string)
  {
    exists d :: d in Definitions && d.name == name
  }

  /**
   * Exact-match lookup of a definition by name. A known name yields the
   * definition declared under it; any other string is an invalid argument.
   */
  function GetClusterDefinitionFromString(name: string): (r: Result<ClusterDefinition, LookupError>)
    ensures r.Success? <==> IsKnownName(name)
    ensures r.Success? ==> r.value in Definitions && r.value.name == name
    ensures r.Failure? ==> r.error == NotRecognized
  {
    if name == "kV1Default" then Success(V1Default)
    else if name == "kV1Variation1" then Success(V1Variation1)
    else if name == "kV1Variation2" then Success(V1Variation2)
    else if name == "kV3Default" then Success(V3Default)
    else if name == "kV3Variation1" then Success(V3Variation1)
    else if name == "kV3Variation2" then Success(V3Variation2)
    else Failure(NotRecognized)
  }

  /** Looking up a declared definition's own name returns that very definition. */
  lemma LookupRoundTrip(d: ClusterDefinition)
    requires d in Definitions
    ensures GetClusterDefinitionFromString(d.name) == Success(d)
  {
  }

  /** A name that is a strict prefix of a known name is rejected: matching is not by prefix. */
  lemma LookupRejectsStrictPrefix(d: ClusterDefinition, k: nat)
    requires d in Definitions && k < |d.name|
    ensures GetClusterDefinitionFromString(d.name[..k]) == Failure(NotRecognized)
  {
    var p := d.name[..k];
    // Only a 13-character name has a strict prefix as long as a known name (10
    // characters), and that prefix reads "kV_Variati", not "kV_Default".
    if k == 10 {
      assert d.name[3] == 'V' && p[3] == d.name[3];
    }
  }

  /** A known name extended by any non-empty suffix is rejected as well. */
  lemma LookupRejectsExtension(d: ClusterDefinition, suffix: string)
    requires d in Definitions && suffix != []
    ensures GetClusterDefinitionFromString(d.name + suffix) == Failure(NotRecognized)
  {
    var n := d.name + suffix;
    assert n[..|d.name|] == d.name;
    forall e | e in Definitions
      ensures e.name != n
    {
      if e.name == n {
        LookupRejectsStrictPrefix(e, |d.name|);
        assert e.name[..|d.name|] == d.name;
        LookupRoundTrip(d);
      }
    }
  }

  /** ASCII lower-casing of one character; every other character is left as it is. */
  function ToLowerAscii(c: char): char
  {
    if 'A' <= c <= 'Z' then (c as int + 32) as char else c
  }

  /** `s` spells the same word as `n` up to ASCII letter case. */
  predicate SameIgnoringCase(s: string, n: string)
  {
    |s| == |n| && forall i :: 0 <= i < |s| ==> ToLowerAscii(s[i]) == ToLowerAscii(n[i])
  }

  /**
   * No two known names are spellings of each other up to letter case: the
   * length, the digit at position 2 and, for a 13-character name, the final
   * digit single out each name, and lower-casing leaves digits alone.
   */
  lemma KnownNamesDifferIgnoringCase(a: ClusterDefinition, b: ClusterDefinition)
    requires a in Definitions && b in Definitions
    requires SameIgnoringCase(a.name, b.name)
    ensures a == b
  {
    assert ToLowerAscii(a.name[2]) == ToLowerAscii(b.name[2]);
    if |a.name| == 13 {
      assert ToLowerAscii(a.name[12]) == ToLowerAscii(b.name[12]);
    }
  }

  /** Matching is case-sensitive: every other spelling of a known name up to letter case is rejected. */
  lemma LookupIsCaseSensitive(d: ClusterDefinition, s: string)
    requires d in Definitions && s != d.name && SameIgnoringCase(s, d.name)
    ensures GetClusterDefinitionFromString(s) == Failure(NotRecognized)
  {
    forall e | e in Definitions
      ensures e.name != s
    {
      if SameIgnoringCase(e.name, d.name) {
        KnownNamesDifferIgnoringCase(e, d);
      }
    }
  }

  /** Three concrete case variants, for the reader. */
  lemma LookupCaseExamples()
    ensures GetClusterDefinitionFromString("kv1default").Failure?
    ensures GetClusterDefinitionFromString("KV3DEFAULT").Failure?
    ensures GetClusterDefinitionFromString("kV3variation2").Failure?
  {
  }

  /** The numeric ids 0, 1, 2, 10, 11, 12 are pairwise distinct, so an id determines its definition. */
  lemma IdDeterminesDefinition(a: ClusterDefinition, b: ClusterDefinition)
    requires a in Definitions && b in Definitions
    ensures a.storageId == b.storageId <==> a == b
  {
  }

  /** Only kV1Default carries the V1 algorithm tag. */
  lemma OnlyV1DefaultIsV1(d: ClusterDefinition)
    requires d in Definitions
    ensures d.algorithm == V1 <==> d.name == "kV1Default"
  {
  }

  /** All definitions share version 1 and the same cell-time window and gradient cut. */
  lemma SharedParameters(d: ClusterDefinition)
    requires d in Definitions
    ensures d.version == 1
    ensures d.timeMin == -10000.0 && d.timeMax == 10000.0 && d.gradientCut == 0.03
  {
  }

  // ---------------------------------------------------------------------------
  // The cluster tables
  // ---------------------------------------------------------------------------

  /** Which association index a cluster table carries. */
  datatype AssociationKind = MatchedToCollision | AmbiguousBunchCrossing

  /**
   * One row of either cluster table. `indexId` is the table's association
   * column: a collision index in the matched table, a bunch-crossing index in
   * the ambiguous one. The row itself cannot hold both.
   */
  datatype ClusterRow = ClusterRow(
    indexId: nat,
    id: int,
    energy: real,
    coreEnergy: real,
    eta: real,
    phi: real,
    m02: real,
    m20: real,
    nCells: int,
    time: real,
    isExotic: bool,
    distanceToBadChannel: real,
    nlm: int,
    definition: int)

  /** A cluster table: rows in insertion order, row i addressed by its position. */
  datatype ClusterTable = ClusterTable(kind: AssociationKind, rows: seq<ClusterRow>)

  /** The declared columns of the table of the given kind, in declaration order. */
  function Columns(kind: AssociationKind): seq<string>
  {
    match kind
    case MatchedToCollision =>
      ["Index", "CollisionId", "ID", "Energy", "CoreEnergy", "Eta", "Phi", "M02", "M20",
       "NCells", "Time", "IsExotic", "DistanceToBadChannel", "NLM", "Definition"]
    case AmbiguousBunchCrossing =>
      ["Index", "BCId", "ID", "Energy", "CoreEnergy", "Eta", "Phi", "M02", "M20",
       "NCells", "Time", "IsExotic", "DistanceToBadChannel", "NLM", "Definition"]
  }

  /** The two tables have the same columns except the association index at position 1. */
  lemma TablesDifferOnlyInAssociationColumn()
    ensures |Columns(MatchedToCollision)| == |Columns(AmbiguousBunchCrossing)| == 15
    ensures forall i :: 0 <= i < 15 && i != 1 ==>
      Columns(MatchedToCollision)[i] == Columns(AmbiguousBunchCrossing)[i]
    ensures Columns(MatchedToCollision)[1] == "CollisionId"
    ensures Columns(AmbiguousBunchCrossing)[1] == "BCId"
  {
  }

  /** The collision a row of `t` refers to; only rows of the matched table have one. */
  function CollisionRef(t: ClusterTable, i: nat): (r: Option<nat>)
    requires i < |t.rows|
    ensures r.Some? <==> t.kind == MatchedToCollision
    ensures r.Some? ==> r.value == t.rows[i].indexId
  {
    if t.kind == MatchedToCollision then Some(t.rows[i].indexId) else None
  }

  /** The bunch crossing a row of `t` refers to; only rows of the ambiguous table have one. */
  function BunchCrossingRef(t: ClusterTable, i: nat): (r: Option<nat>)
    requires i < |t.rows|
    ensures r.Some? <==> t.kind == AmbiguousBunchCrossing
    ensures r.Some? ==> r.value == t.rows[i].indexId
  {
    if t.kind == AmbiguousBunchCrossing then Some(t.rows[i].indexId) else None
  }

  /** Every row carries exactly one of the two references. */
  lemma ExactlyOneReference(t: ClusterTable, i: nat)
    requires i < |t.rows|
    ensures CollisionRef(t, i).Some? != BunchCrossingRef(t, i).Some?
  {
  }
}
