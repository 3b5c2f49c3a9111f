/**
  Coverage of one point by the antenna table
  (backend/services/coverage_calculator.py).

  Coordinates are reals and the distance test is done on squares, so no
  square root is taken: `sqrt(d2) <= r` holds exactly when `r >= 0` and
  `d2 <= r * r` (see `WithinRadiusIsEuclidean`).
 */
module CoverageCalculator {
  import opened Wrappers
  import opened Antennas
  import CoverageLoader

  /** Radius in metres per technology key. */
  type RadiusPolicy = map<string, real>

  /** `{"2G": bool, "3G": bool, "4G": bool}` for one operator. */
  type TechFlags = map<string, bool>

  /** Operator name to its technology flags. */
  type CoverageMap = map<string, TechFlags>

  /** The radii used when the caller passes none. */
  function DefaultRadius(): RadiusPolicy {
    map["2G" := 30000.0, "3G" := 5000.0, "4G" := 10000.0]
  }

  /** `radius_by_tech[tech]` is defined for every technology (otherwise the lookup raises `KeyError`). */
  predicate Complete(radius: RadiusPolicy) {
    "2G" in radius && "3G" in radius && "4G" in radius
  }

  function EffectiveRadius(radiusByTech: Option<RadiusPolicy>): RadiusPolicy
    requires radiusByTech.Some? ==> Complete(radiusByTech.value)
  {
    match radiusByTech
    case None => DefaultRadius()
    case Some(radius) => radius
  }

  /** Square of the Euclidean distance between `(ax, ay)` and `(x, y)`. */
  function SquaredDistance(ax: real, ay: real, x: real, y: real): real {
    (ax - x) * (ax - x) + (ay - y) * (ay - y)
  }

  /** The record lies within `r` of `(x, y)`, boundary included. */
  predicate WithinRadius(rec: AntennaRecord, x: real, y: real, r: real) {
    r >= 0.0 && SquaredDistance(rec.x, rec.y, x, y) <= r * r
  }

  /** The record broadcasts `tech` and reaches `(x, y)` at that technology's radius. */
  predicate Serves(rec: AntennaRecord, tech: string, radius: RadiusPolicy, x: real, y: real)
    requires IsTechnology(tech) && Complete(radius)
  {
    HasTech(rec, tech) && WithinRadius(rec, x, y, radius[tech])
  }

  /**
    What the calculator promises for one entry: some record of operator `op`
    has the `tech` flag and lies within `radius[tech]` of the point.
   */
  ghost predicate Covered(df: seq<AntennaRecord>, op: string, tech: string, radius: RadiusPolicy, x: real, y: real)
    requires IsTechnology(tech) && Complete(radius)
  {
    exists i :: 0 <= i < |df| && df[i].operator == op && Serves(df[i], tech, radius, x, y)
  }

  /** The whole result the calculator promises: one entry per operator, three flags per entry. */
  ghost function CoverageSpec(df: seq<AntennaRecord>, radius: RadiusPolicy, x: real, y: real): CoverageMap
    requires Complete(radius)
  {
    map op | op in OperatorSet(df) :: EntrySpec(df, op, radius, x, y)
  }

  /** The entry the calculator promises for one operator. */
  ghost function EntrySpec(df: seq<AntennaRecord>, op: string, radius: RadiusPolicy, x: real, y: real): TechFlags
    requires Complete(radius)
  {
    map tech | tech in TechSet :: Covered(df, op, tech, radius, x, y)
  }

  /** A flag map that has exactly the three keys, each with its promised value, is the promised entry. */
  lemma EntryIsSpec(cover: TechFlags, df: seq<AntennaRecord>, op: string, radius: RadiusPolicy, x: real, y: real)
    requires Complete(radius)
    requires forall tech :: tech in cover <==> tech in Technologies
    requires forall tech :: tech in cover ==> IsTechnology(tech) && cover[tech] == Covered(df, op, tech, radius, x, y)
    ensures cover == EntrySpec(df, op, radius, x, y)
  {
    assert cover.Keys == TechSet;
  }

  /**
    `df.filter(pl.col('operator') == op)`: the records of `op`. Their
    multiplicities are `RecordsForCounts`.
   */
  function RecordsFor(df: seq<AntennaRecord>, op: string): (r: seq<AntennaRecord>)
    ensures forall rec :: rec in r <==> rec in df && rec.operator == op
  {
    if |df| == 0 then []
    else (if df[0].operator == op then [df[0]] else []) + RecordsFor(df[1..], op)
  }

  /** The filter keeps each record of `op` with its multiplicity in the table, and drops the others. */
  lemma {:induction false} RecordsForCounts(df: seq<AntennaRecord>, op: string, rec: AntennaRecord)
    ensures multiset(RecordsFor(df, op))[rec] == if rec.operator == op then multiset(df)[rec] else 0
  {
    if |df| > 0 {
      RecordsForCounts(df[1..], op, rec);
      assert df == [df[0]] + df[1..];
    }
  }

  /** `op_df.filter((pl.col(tech) == 1) & (pl.col('distance') <= radius)).height > 0` */
  predicate AnyServes(opDf: seq<AntennaRecord>, tech: string, radius: RadiusPolicy, x: real, y: real)
    requires IsTechnology(tech) && Complete(radius)
  {
    exists rec :: rec in opDf && Serves(rec, tech, radius, x, y)
  }

  /** Filtering by operator first and then scanning gives the per-operator specification. */
  lemma {:induction false} FilterThenScan(df: seq<AntennaRecord>, op: string, tech: string, radius: RadiusPolicy, x: real, y: real)
    requires IsTechnology(tech) && Complete(radius)
    ensures AnyServes(RecordsFor(df, op), tech, radius, x, y) <==> Covered(df, op, tech, radius, x, y)
  {
    var opDf := RecordsFor(df, op);
    if AnyServes(opDf, tech, radius, x, y) {
      var rec :| rec in opDf && Serves(rec, tech, radius, x, y);
      var i :| 0 <= i < |df| && df[i] == rec;
      assert df[i].operator == op && Serves(df[i], tech, radius, x, y);
    }
    if Covered(df, op, tech, radius, x, y) {
      var i :| 0 <= i < |df| && df[i].operator == op && Serves(df[i], tech, radius, x, y);
      assert df[i] in opDf;
    }
  }

  /**
    `compute_coverage_for_point`: for each distinct operator and each of 2G,
    3G and 4G, whether one of the operator's records with that technology lies
    within the technology's radius. Without a radius map the default one is used.
   */
  method ComputeCoverageForPoint(x: real, y: real, df: seq<AntennaRecord>, radiusByTech: Option<RadiusPolicy>)
    returns (result: CoverageMap)
    requires radiusByTech.Some? ==> Complete(radiusByTech.value)
    ensures result.Keys == OperatorSet(df)
    ensures forall op :: op in result ==> result[op].Keys == TechSet
    ensures forall op, tech :: op in result && tech in TechSet ==>
              (result[op][tech] <==> Covered(df, op, tech, EffectiveRadius(radiusByTech), x, y))
    ensures result == CoverageSpec(df, EffectiveRadius(radiusByTech), x, y)
  {
    var radius := if radiusByTech.None? then DefaultRadius() else radiusByTech.value;
    var operators := CoverageLoader.GetUniqueOperators(df);
    result := map[];
    for k := 0 to |operators|
      invariant forall op :: op in result <==> op in operators[..k]
      invariant forall op :: op in result ==> result[op] == EntrySpec(df, op, radius, x, y)
    {
      var op := operators[k];
      var opDf := RecordsFor(df, op);
      var cover: TechFlags := map[];
      for t := 0 to |Technologies|
        invariant forall tech :: tech in cover <==> tech in Technologies[..t]
        invariant forall tech :: tech in cover ==> IsTechnology(tech) && cover[tech] == Covered(df, op, tech, radius, x, y)
      {
        var tech := Technologies[t];
        FilterThenScan(df, op, tech, radius, x, y);
        var hasCoverage := AnyServes(opDf, tech, radius, x, y);
        cover := cover[tech := hasCoverage];
        assert Technologies[..t + 1] == Technologies[..t] + [tech];
      }
      assert Technologies[..|Technologies|] == Technologies;
      EntryIsSpec(cover, df, op, radius, x, y);
      result := result[op := cover];
      assert operators[..k + 1] == operators[..k] + [op];
    }
    assert operators[..|operators|] == operators;
    assert result.Keys == OperatorSet(df);
  }

  // ---------------------------------------------------------------------------
  // Properties of the promised result
  // ---------------------------------------------------------------------------

  /** Passing no radius map gives the same result as passing the default map explicitly. */
  lemma DefaultPolicyIsExplicitDefault(df: seq<AntennaRecord>, x: real, y: real)
    ensures CoverageSpec(df, EffectiveRadius(None), x, y) == CoverageSpec(df, EffectiveRadius(Some(DefaultRadius())), x, y)
  {
  }

  /** An empty table reports no operator at all. */
  lemma EmptyTableGivesEmptyResult(radius: RadiusPolicy, x: real, y: real)
    requires Complete(radius)
    ensures CoverageSpec([], radius, x, y) == map[]
  {
    assert OperatorSet([]) == {};
  }

  /** `a <= b` and `a * a <= b * b` agree on non-negative reals. */
  lemma SquaresOrdered(a: real, b: real)
    requires 0.0 <= a && 0.0 <= b
    ensures a <= b <==> a * a <= b * b
  {
    if a <= b {
      assert a * a <= a * b <= b * b;
    } else {
      var gap, sum := a - b, a + b;
      assert gap > 0.0 && sum > 0.0;
      assert gap * sum > 0.0;
      assert a * a - b * b == gap * sum;
    }
  }

  /** For a distance `dist` (the square root of the squared distance), the test is `dist <= r`. */
  lemma WithinRadiusIsEuclidean(rec: AntennaRecord, x: real, y: real, r: real, dist: real)
    requires dist >= 0.0 && dist * dist == SquaredDistance(rec.x, rec.y, x, y)
    ensures WithinRadius(rec, x, y, r) <==> dist <= r
  {
    if r >= 0.0 {
      SquaresOrdered(dist, r);
    }
  }

  /** A site at exactly the technology's radius still covers the point. */
  lemma BoundaryIsInclusive(df: seq<AntennaRecord>, i: nat, tech: string, radius: RadiusPolicy, x: real, y: real)
    requires i < |df| && IsTechnology(tech) && Complete(radius)
    requires HasTech(df[i], tech) && radius[tech] >= 0.0
    requires SquaredDistance(df[i].x, df[i].y, x, y) == radius[tech] * radius[tech]
    ensures Covered(df, df[i].operator, tech, radius, x, y)
  {
  }

  /** With radius 1, a point at distance 1 is covered and a point at distance `1 + eps` is not. */
  lemma UnitRadiusBoundary(eps: real)
    requires eps > 0.0
    ensures var df := [AntennaRecord("Orange", 0.0, 0.0, true, true, true)];
            var radius := map["2G" := 1.0, "3G" := 1.0, "4G" := 1.0];
            Covered(df, "Orange", "4G", radius, 1.0, 0.0) && !Covered(df, "Orange", "4G", radius, 1.0 + eps, 0.0)
  {
    var df := [AntennaRecord("Orange", 0.0, 0.0, true, true, true)];
    var radius := map["2G" := 1.0, "3G" := 1.0, "4G" := 1.0];
    assert Serves(df[0], "4G", radius, 1.0, 0.0);
    assert (1.0 + eps) * (1.0 + eps) > 1.0 by {
      assert (1.0 + eps) * (1.0 + eps) == 1.0 + 2.0 * eps + eps * eps;
      assert eps * eps > 0.0;
    }
  }

  /** A point standing on a site is covered for every technology the site has, whatever the (non-negative) radius. */
  lemma SiteCoversItsOwnPoint(df: seq<AntennaRecord>, i: nat, tech: string, radius: RadiusPolicy)
    requires i < |df| && IsTechnology(tech) && Complete(radius)
    requires HasTech(df[i], tech) && radius[tech] >= 0.0
    ensures Covered(df, df[i].operator, tech, radius, df[i].x, df[i].y)
  {
    assert SquaredDistance(df[i].x, df[i].y, df[i].x, df[i].y) == 0.0;
    SquaresOrdered(0.0, radius[tech]);
    assert Serves(df[i], tech, radius, df[i].x, df[i].y);
  }

  lemma WithinRadiusGrows(rec: AntennaRecord, x: real, y: real, r1: real, r2: real)
    requires r1 <= r2 && WithinRadius(rec, x, y, r1)
    ensures WithinRadius(rec, x, y, r2)
  {
    SquaresOrdered(r1, r2);
  }

  /** Enlarging every radius never turns a covered entry into an uncovered one. */
  lemma LargerRadiiKeepCoverage(df: seq<AntennaRecord>, op: string, tech: string, small: RadiusPolicy, large: RadiusPolicy, x: real, y: real)
    requires IsTechnology(tech) && Complete(small) && Complete(large)
    requires forall t :: t in TechSet ==> small[t] <= large[t]
    requires Covered(df, op, tech, small, x, y)
    ensures Covered(df, op, tech, large, x, y)
  {
    var i :| 0 <= i < |df| && df[i].operator == op && Serves(df[i], tech, small, x, y);
    assert small[tech] <= large[tech];
    WithinRadiusGrows(df[i], x, y, small[tech], large[tech]);
    assert Serves(df[i], tech, large, x, y);
  }

  /** A record without the technology's flag never contributes to it, however close it is. */
  lemma {:induction false} FlagGating(pre: seq<AntennaRecord>, rec: AntennaRecord, post: seq<AntennaRecord>,
                                     op: string, tech: string, radius: RadiusPolicy, x: real, y: real)
    requires IsTechnology(tech) && Complete(radius) && !HasTech(rec, tech)
    ensures Covered(pre + [rec] + post, op, tech, radius, x, y) <==> Covered(pre + post, op, tech, radius, x, y)
  {
    var with, without := pre + [rec] + post, pre + post;
    if Covered(with, op, tech, radius, x, y) {
      var i :| 0 <= i < |with| && with[i].operator == op && Serves(with[i], tech, radius, x, y);
      var j := if i < |pre| then i else i - 1;
      assert without[j] == with[i];
    }
    if Covered(without, op, tech, radius, x, y) {
      var j :| 0 <= j < |without| && without[j].operator == op && Serves(without[j], tech, radius, x, y);
      var i := if j < |pre| then j else j + 1;
      assert with[i] == without[j];
    }
  }

  /** An operator's entry depends only on that operator's own records. */
  lemma OperatorIsolation(df1: seq<AntennaRecord>, df2: seq<AntennaRecord>, op: string, radius: RadiusPolicy, x: real, y: real)
    requires Complete(radius)
    requires RecordsFor(df1, op) == RecordsFor(df2, op)
    ensures EntrySpec(df1, op, radius, x, y) == EntrySpec(df2, op, radius, x, y)
  {
    forall tech | tech in TechSet
      ensures Covered(df1, op, tech, radius, x, y) == Covered(df2, op, tech, radius, x, y)
    {
      FilterThenScan(df1, op, tech, radius, x, y);
      FilterThenScan(df2, op, tech, radius, x, y);
    }
  }

  /**
    One Orange site at (100, 100) with 2G and 3G: standing on it gives
    2G and 3G but not 4G; a point far away gives nothing.
   */
  lemma OrangeSiteScenario()
    ensures var df := [AntennaRecord("Orange", 100.0, 100.0, true, true, false)];
            && CoverageSpec(df, DefaultRadius(), 100.0, 100.0)
               == map["Orange" := map["2G" := true, "3G" := true, "4G" := false]]
            && CoverageSpec(df, DefaultRadius(), 999999.0, 999999.0)
               == map["Orange" := map["2G" := false, "3G" := false, "4G" := false]]
  {
    var df := [AntennaRecord("Orange", 100.0, 100.0, true, true, false)];
    var radius := DefaultRadius();
    assert OperatorSet(df) == {"Orange"};
    assert Serves(df[0], "2G", radius, 100.0, 100.0);
    assert Serves(df[0], "3G", radius, 100.0, 100.0);
    assert !Serves(df[0], "2G", radius, 999999.0, 999999.0);
    assert !Serves(df[0], "3G", radius, 999999.0, 999999.0);
    assert EntrySpec(df, "Orange", radius, 100.0, 100.0) == map["2G" := true, "3G" := true, "4G" := false];
    assert EntrySpec(df, "Orange", radius, 999999.0, 999999.0) == map["2G" := false, "3G" := false, "4G" := false];
  }
}
