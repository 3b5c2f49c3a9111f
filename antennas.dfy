/**
  The antenna table shared by the loader and the coverage calculator: one
  record per row of the coverage CSV once its columns have been renamed and
  its technology columns cast to booleans.
 */
module Antennas {

  /** One antenna site: its operator, its Lambert-93 position and the technologies it broadcasts. */
  datatype AntennaRecord = AntennaRecord(
    operator: string,
    x: real,
    y: real,
    has2G: bool,
    has3G: bool,
    has4G: bool)

  /** The technology keys, in the order the calculator visits them. */
  const Technologies: seq<string> := ["2G", "3G", "4G"]

  /** The elements of `Technologies` as a set, for map domains. */
  const TechSet: set<string> := set t | t in Technologies

  /** Membership in `Technologies`, the guard of `HasTech`. */
  predicate IsTechnology(tech: string) {
    tech in Technologies
  }

  /** The value of the record's `tech` column. */
  function HasTech(rec: AntennaRecord, tech: string): bool
    requires IsTechnology(tech)
  {
    if tech == "2G" then rec.has2G
    else if tech == "3G" then rec.has3G
    else rec.has4G
  }

  /** The distinct values of the `operator` column. */
  function OperatorSet(df: seq<AntennaRecord>): set<string> {
    set i | 0 <= i < |df| :: df[i].operator
  }
}
