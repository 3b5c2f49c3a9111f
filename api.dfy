/**
  The `/coverage` endpoint (backend/main.py): turning the calculator's
  dictionary into the fixed response record, and the per-address loop.

  The geocoder (backend/services/geocoding.py) is a parameter of the loop:
  a function from an address to a Lambert-93 point, to "not found", or to
  an exception raised while the address was being processed.
 */
module Api {
  import opened Wrappers
  import opened Antennas
  import opened Models
  import opened CoverageCalculator

  /** The operator keys of the calculator's result that the response reports, in field order. */
  const OperatorKeys: seq<string> := ["Orange", "SFR", "Bouygues", "Free"]

  /** `coverage_dict.get(op, {}).get(tech, False)` */
  function Lookup(d: CoverageMap, op: string, tech: string): bool {
    op in d && tech in d[op] && d[op][tech]
  }

  /** The response field that reports operator key `op`. */
  function Field(a: AddressCoverage, op: string): OperatorCoverage
    requires op in OperatorKeys
  {
    if op == "Orange" then a.orange
    else if op == "SFR" then a.SFR
    else if op == "Bouygues" then a.bouygues
    else a.Free
  }

  /** The flag of `c` for technology key `tech`. */
  function Flag(c: OperatorCoverage, tech: string): bool
    requires IsTechnology(tech)
  {
    if tech == "2G" then c.twoG
    else if tech == "3G" then c.threeG
    else c.fourG
  }

  const NoCoverage: OperatorCoverage := OperatorCoverage(false, false, false)

  const NoAddressCoverage: AddressCoverage := AddressCoverage(NoCoverage, NoCoverage, NoCoverage, NoCoverage)

  function ConvertOperator(d: CoverageMap, op: string): OperatorCoverage {
    if op in d then OperatorCoverage(Lookup(d, op, "2G"), Lookup(d, op, "3G"), Lookup(d, op, "4G"))
    else NoCoverage
  }

  /**
    `convert_coverage_to_model`: every flag of the response is the
    dictionary's flag for that operator and technology, and false where the
    dictionary has no such operator or no such technology.
   */
  function ConvertCoverageToModel(d: CoverageMap): (r: AddressCoverage)
    ensures forall op, tech :: op in OperatorKeys && IsTechnology(tech) ==> Flag(Field(r, op), tech) == Lookup(d, op, tech)
  {
    AddressCoverage(
      ConvertOperator(d, "Orange"),
      ConvertOperator(d, "SFR"),
      ConvertOperator(d, "Bouygues"),
      ConvertOperator(d, "Free"))
  }

  /** The calculator-shaped dictionary a response record stands for. */
  function ToCoverageMap(a: AddressCoverage): CoverageMap {
    map["Orange" := FlagsOf(a.orange), "SFR" := FlagsOf(a.SFR),
        "Bouygues" := FlagsOf(a.bouygues), "Free" := FlagsOf(a.Free)]
  }

  function FlagsOf(c: OperatorCoverage): TechFlags {
    map["2G" := c.twoG, "3G" := c.threeG, "4G" := c.fourG]
  }

  /** Converting the dictionary of a response record gives the record back. */
  lemma ConvertRoundTrip(a: AddressCoverage)
    ensures ConvertCoverageToModel(ToCoverageMap(a)) == a
  {
    var d := ToCoverageMap(a);
    FlagsRoundTrip(d, "Orange", a.orange);
    FlagsRoundTrip(d, "SFR", a.SFR);
    FlagsRoundTrip(d, "Bouygues", a.bouygues);
    FlagsRoundTrip(d, "Free", a.Free);
  }

  lemma FlagsRoundTrip(d: CoverageMap, op: string, c: OperatorCoverage)
    requires op in d && d[op] == FlagsOf(c)
    ensures ConvertOperator(d, op) == c
  {
  }

  /** An empty dictionary gives all four operators with every flag false. */
  lemma ConvertEmptyIsNoCoverage()
    ensures ConvertCoverageToModel(map[]) == NoAddressCoverage
  {
  }

  /**
    An operator present with all three technologies keeps its flags; an
    operator absent from the dictionary gets the all-false default.
   */
  lemma ConvertPresentAndAbsent(d: CoverageMap, op: string)
    requires op in OperatorKeys
    ensures op in d && d[op].Keys == TechSet ==>
              Field(ConvertCoverageToModel(d), op) == OperatorCoverage(d[op]["2G"], d[op]["3G"], d[op]["4G"])
    ensures op !in d ==> Field(ConvertCoverageToModel(d), op) == NoCoverage
  {
  }

  /** Keys other than the four operator keys do not affect the response. */
  lemma ConvertIgnoresOtherOperators(d: CoverageMap, other: string, flags: TechFlags)
    requires other !in OperatorKeys
    ensures ConvertCoverageToModel(d[other := flags]) == ConvertCoverageToModel(d)
  {
  }

  /**
    Applied to the calculator's result, each response flag is exactly the
    coverage the calculator promises for that operator and technology.
   */
  lemma {:induction false} ConvertedCoverageIsCovered(df: seq<AntennaRecord>, radius: RadiusPolicy, x: real, y: real,
                                                     op: string, tech: string)
    requires Complete(radius) && op in OperatorKeys && IsTechnology(tech)
    ensures Flag(Field(ConvertCoverageToModel(CoverageSpec(df, radius, x, y)), op), tech)
            == Covered(df, op, tech, radius, x, y)
  {
    var spec := CoverageSpec(df, radius, x, y);
    if Covered(df, op, tech, radius, x, y) {
      var i :| 0 <= i < |df| && df[i].operator == op && Serves(df[i], tech, radius, x, y);
      assert op in OperatorSet(df);
    }
    if op in spec {
      assert spec[op] == EntrySpec(df, op, radius, x, y);
    }
  }

  // ---------------------------------------------------------------------------
  // The /coverage endpoint
  // ---------------------------------------------------------------------------

  /** A geocoded position in Lambert-93 coordinates. */
  datatype Point = Point(x: real, y: real)

  /** What processing one address yields before the coverage computation. */
  datatype GeocodeOutcome = Found(point: Point) | NotFound | Raised

  datatype HttpError = HttpError(statusCode: int, detail: string)

  /** The record an address gets: its computed coverage, or no coverage if it failed. */
  ghost function ExpectedCoverage(df: seq<AntennaRecord>, outcome: GeocodeOutcome): AddressCoverage {
    match outcome
    case Found(p) => ConvertCoverageToModel(CoverageSpec(df, DefaultRadius(), p.x, p.y))
    case _ => ConvertCoverageToModel(map[])
  }

  /**
    `check_coverage`: without a catalog the request fails with 500, without
    addresses with 400; otherwise every id gets a record computed from its own
    address alone, and an address that cannot be geocoded or whose processing
    raises gets the all-false record without affecting the others.
   */
  method CheckCoverage(catalog: Option<seq<AntennaRecord>>, addresses: map<string, string>,
                       geocode: string -> GeocodeOutcome)
    returns (r: Result<map<string, AddressCoverage>, HttpError>)
    ensures catalog.None? ==> r == Err(HttpError(500, "Coverage data not available"))
    ensures catalog.Some? && |addresses| == 0 ==> r == Err(HttpError(400, "No addresses provided"))
    ensures catalog.Some? && |addresses| > 0 ==>
              && r.Ok?
              && r.value.Keys == addresses.Keys
              && forall id :: id in addresses ==> r.value[id] == ExpectedCoverage(catalog.value, geocode(addresses[id]))
  {
    if catalog.None? {
      return Err(HttpError(500, "Coverage data not available"));
    }
    if |addresses| == 0 {
      return Err(HttpError(400, "No addresses provided"));
    }
    var df := catalog.value;
    var results: map<string, AddressCoverage> := map[];
    var pending := addresses.Keys;
    while pending != {}
      invariant pending <= addresses.Keys
      invariant results.Keys == addresses.Keys - pending
      invariant forall id :: id in results ==> results[id] == ExpectedCoverage(df, geocode(addresses[id]))
      decreases pending
    {
      var id :| id in pending;
      pending := pending - {id};
      match geocode(addresses[id])
      case NotFound =>
        results := results[id := ConvertCoverageToModel(map[])];
      case Raised =>
        results := results[id := ConvertCoverageToModel(map[])];
      case Found(p) =>
        var coverage := ComputeCoverageForPoint(p.x, p.y, df, None);
        results := results[id := ConvertCoverageToModel(coverage)];
    }
    return Ok(results);
  }

  /** An address that fails gets the record with every flag false. */
  lemma FailedAddressHasNoCoverage(df: seq<AntennaRecord>, outcome: GeocodeOutcome)
    requires !outcome.Found?
    ensures ExpectedCoverage(df, outcome) == NoAddressCoverage
  {
  }
}
