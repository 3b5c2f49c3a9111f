/** The response records of the coverage API (backend/models.py). */
module Models {

  /** Coverage of one operator; serialised with the keys "2G", "3G" and "4G". */
  datatype OperatorCoverage = OperatorCoverage(twoG: bool, threeG: bool, fourG: bool)

  /** Coverage of one address by the four operators of the response. */
  datatype AddressCoverage = AddressCoverage(
    orange: OperatorCoverage,
    SFR: OperatorCoverage,
    bouygues: OperatorCoverage,
    Free: OperatorCoverage)
}
