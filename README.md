# Network coverage engine — Dafny model

This project models the backend of a network-coverage service. Given a batch of
`id → address` pairs, the service geocodes each address to a Lambert-93 point.
It then reports, for the operators Orange, SFR, Bouygues and Free, whether 2G, 3G
and 4G are available there. The service reads this from a table of antenna sites.

The model has three parts:

- **Coverage calculator** (`coverage_calculator.dfy`, module `CoverageCalculator`).
  `compute_coverage_for_point` works as an imperative method with nested loops over
  the distinct operators and over `["2G", "3G", "4G"]`. It is proved against a
  specification, `Covered`. An entry is true iff some record of that operator has
  the technology flag and lies within the technology's radius, boundary included.
  The distance test is done on squares (`r >= 0 && d² <= r²`), so no square root
  is taken. The lemma `WithinRadiusIsEuclidean` shows that this agrees with
  `sqrt(d²) <= r`. When no radius map is passed, the default
  `{2G: 30000, 3G: 5000, 4G: 10000}` is used. When the table has at least one
  operator, a map that lacks a technology key raises `KeyError` in the code; here
  a complete map is a precondition (`Complete`).
- **Catalog loader** (`coverage_loader.dfy`, module `CoverageLoader`).
  - A Polars frame is its schema (ordered `name, dtype` columns) plus its rows as
    antenna records.
  - Loading applies the fixed rename `Operateur→operator`, `x→x_lambert93`,
    `y→y_lambert93`. It then casts 2G, 3G and 4G to Boolean in a loop.
  - Validation checks the six required columns in an early-return loop, and only
    then checks the three Boolean dtypes.
  - `get_unique_operators` returns each operator once.
- **API layer** (`api.dfy`, module `Api`; records in `models.dfy`).
  - `convert_coverage_to_model` maps the calculator's dictionary onto the
    fixed four-operator record. A missing operator or technology becomes false.
  - `check_coverage` fails with 500 when there is no catalog. Otherwise it fails
    with 400 when the request is empty. Otherwise it fills one record per id in a
    loop. An id whose address is not found, or whose processing raises, gets the
    all-false record, and the other ids are unaffected.

`antennas.dfy` holds the antenna record shared by these modules, and
`wrappers.dfy` holds `Option` and `Result`.

Facts about the code that shape the model:

- `backend/main.py` never calls the validator. The catalog is unset only when
  no CSV file is found (backend/main.py:36-38, 49-50) or when loading raises
  (backend/main.py:40-48). So `CheckCoverage` takes the catalog as it is given.
- The code accepts any radius. A negative radius covers nothing, because a
  distance is never negative.
- The code casts whole columns to Boolean. That cast raises for string columns
  and for missing columns, which is what the model states.

## Model

| member | source | states |
|---|---|---|
| `CoverageCalculator.ComputeCoverageForPoint` | backend/services/coverage_calculator.py:4-41 | The result's keys are exactly the distinct operators of the table. Each entry has exactly the keys 2G, 3G and 4G. `result[op][tech]` holds iff some record of `op` has the `tech` flag and lies within `radius[tech]` of the point, boundary included. The default radius map applies when none is given. The result equals `CoverageSpec`. |
| `CoverageCalculator.RecordsFor` | backend/services/coverage_calculator.py:27 | The operator filter keeps exactly the table's records whose operator is `op`. |
| `CoverageCalculator.RecordsForCounts` | backend/services/coverage_calculator.py:27 | The operator filter keeps each record of `op` exactly as many times as it occurs in the table, and no record of another operator. |
| `CoverageCalculator.FilterThenScan` | backend/services/coverage_calculator.py:27-35 | Filtering by operator and then looking for a record with the flag within range is the same as `Covered` on the whole table. |
| `CoverageCalculator.DefaultPolicyIsExplicitDefault` | backend/services/coverage_calculator.py:15-16 | Passing no radius map gives the same result as passing `{2G: 30000, 3G: 5000, 4G: 10000}` explicitly. |
| `CoverageCalculator.EmptyTableGivesEmptyResult` | backend/services/coverage_calculator.py:23-39 | An empty table yields the empty map. |
| `CoverageCalculator.WithinRadiusIsEuclidean` | backend/services/coverage_calculator.py:19-34 | For the Euclidean distance `dist` (non-negative, with `dist² = dx² + dy²`), the squared test holds iff `dist <= r`. |
| `CoverageCalculator.BoundaryIsInclusive` | backend/services/coverage_calculator.py:34 | A flagged record at a distance exactly equal to the radius covers the point. |
| `CoverageCalculator.UnitRadiusBoundary` | backend/services/coverage_calculator.py:34 | With radius 1, a site at distance 1 covers the point and a site at distance `1 + eps` does not, for every `eps > 0`. |
| `CoverageCalculator.SiteCoversItsOwnPoint` | backend/services/coverage_calculator.py:19-35 | A point exactly at a site is covered for every technology the site has, for any non-negative radius. |
| `CoverageCalculator.LargerRadiiKeepCoverage` | backend/services/coverage_calculator.py:34 | Enlarging every radius never turns a covered entry into an uncovered one. |
| `CoverageCalculator.FlagGating` | backend/services/coverage_calculator.py:32-35 | Inserting a record whose `tech` flag is false anywhere in the table never changes that technology's coverage, however close the record is. |
| `CoverageCalculator.OperatorIsolation` | backend/services/coverage_calculator.py:26-39 | Two tables in which operator `op` has the same records give `op` the same entry. |
| `CoverageCalculator.OrangeSiteScenario` | backend/services/coverage_calculator.py:26-39 | With one Orange site at (100, 100) that has 2G and 3G, the point (100, 100) gets Orange `{2G: true, 3G: true, 4G: false}`, and (999999, 999999) gets all false. |
| `CoverageLoader.Rename` | backend/services/coverage_loader.py:9-13 | Fails with column-not-found when `Operateur`, `x` or `y` is missing, and with duplicate-column when renaming repeats a name. Otherwise, when the three source columns are present and the renamed names are distinct, it returns exactly the renamed schema. |
| `CoverageLoader.RenameIsExact` | backend/services/coverage_loader.py:9-13 | A column's name changes iff it is `Operateur`, `x` or `y`. Its dtype is unchanged. |
| `CoverageLoader.FirstCastFailure` | backend/services/coverage_loader.py:15-18 | There is no cast failure iff every technology column is present and is not a string column. |
| `CoverageLoader.LoadCoverageMeasure` | backend/services/coverage_loader.py:5-19 | Loading fails exactly when the rename fails or a technology column is missing or cannot be cast, and it returns the first error in the order 2G, 3G, 4G. On success, names are renamed by the fixed table, the column order is kept, 2G/3G/4G are Boolean, and the other dtypes and all rows are unchanged. |
| `CoverageLoader.ValidateCoverageMeasure` | backend/services/coverage_loader.py:21-30 | Returns true iff all six required columns are present and 2G, 3G and 4G are Boolean. A dtype is read only after every required column has been found. |
| `CoverageLoader.MissingColumnIsInvalid` | backend/services/coverage_loader.py:23-25 | A schema without one of the six required columns does not validate. |
| `CoverageLoader.NonBooleanTechIsInvalid` | backend/services/coverage_loader.py:27-29 | A schema whose 2G, 3G or 4G column is not Boolean does not validate. |
| `CoverageLoader.LoadedFrameValidates` | backend/services/coverage_loader.py:5-30 | Every successfully loaded frame validates. |
| `CoverageLoader.GetUniqueOperators` | backend/services/coverage_loader.py:32-34 | Lists every operator of the table exactly once and nothing else. |
| `Api.ConvertCoverageToModel` | backend/main.py:125-167 | Each response flag is the dictionary's flag for that operator (Orange, SFR, Bouygues, Free) and technology. It is false when the operator or the technology is missing. |
| `Api.ConvertRoundTrip` | backend/main.py:125-167 | Converting the dictionary of a response record gives back that record. |
| `Api.ConvertEmptyIsNoCoverage` | backend/main.py:131-167 | An empty dictionary gives all four operators with every flag false. |
| `Api.ConvertPresentAndAbsent` | backend/main.py:136-166 | An operator present with all three technologies keeps its flags unchanged. An absent operator gets the all-false default. |
| `Api.ConvertIgnoresOtherOperators` | backend/main.py:135-167 | Keys other than the four operator keys do not affect the response. |
| `Api.ConvertedCoverageIsCovered` | backend/main.py:109-116 | Applied to the calculator's result, each response flag equals `Covered` for that operator and technology. |
| `Api.CheckCoverage` | backend/main.py:71-123 | No catalog gives 500 "Coverage data not available", before anything else is checked. Otherwise an empty request gives 400 "No addresses provided". Otherwise the result has exactly the request's ids as keys. Each id's record is computed from its own address alone: the converted coverage of its point, or all false when geocoding finds nothing or processing raises. |
| `Api.FailedAddressHasNoCoverage` | backend/main.py:100-121 | An address that is not found or whose processing raises gets the record with every flag false. |

## Left out

- Reading the CSV file (`pl.read_csv`) and its `FileNotFoundError` are I/O. Loading starts from the frame that the reader produced.
- Value-level casting is not modelled. Rows are antenna records whose flags already hold the truth of the 0/1 cell. The cast is modelled on the column dtypes only: string columns cannot be cast, and numeric and Boolean columns can.
- `CoverageLoader.Rename` follows the strict rename of Polars 1.x, where a missing source column raises. Older Polars versions may behave differently.
- `CoverageLoader.GetUniqueOperators` lists operators in order of first occurrence. Polars' `unique()` promises no order, so the contract states only membership and distinctness.
- CoverageCalculator.ComputeCoverageForPoint: requires a complete radius map even for an empty table. There the code returns `{}` without reading the map, so an incomplete map does not raise. The only caller (backend/main.py:109-113) passes no map, so the default map is used.
- Null cells are not modelled: an antenna record holds no nulls. In Polars, a null `x`, `y` or technology flag makes the comparison null, so the filter (backend/services/coverage_calculator.py:32-35) drops the record and it never covers. A null operator becomes a result key whose entries are all false, because no row matches it in the operator filter.
- Floating point is not modelled. Coordinates and radii are reals, and there is no rounding, NaN or infinity. The square root is replaced by an exact squared comparison.
- Geocoding (backend/services/geocoding.py) is not part of this model. It is a parameter `geocode` from an address to a point, to "not found", or to "raised". The HTTP call, its timeout, JSON handling and the pyproj EPSG:4326→EPSG:2154 conversion are foreign libraries and network I/O.
- `Api.CheckCoverage` calls `geocode` as a pure function. A live service or a test double may answer the same address differently on two calls.
- `Api.CheckCoverage` visits the ids in an unspecified order. The code follows insertion order, which cannot change the result because each id depends only on its own address.
- `Api.CheckCoverage` folds an exception raised inside the per-address `try` block into the "raised" outcome of `geocode`. The calculator itself cannot raise on the typed table modelled here.
- async/await is left out. The endpoint awaits one address at a time, so the loop is sequential.
- FastAPI routing, CORS, logging and the uvicorn start-up are transport or I/O. The module-level CSV load with its prints (backend/main.py:31-51) and the `/` and `/health` endpoints (backend/main.py:53-69) are I/O or trivial.
- The Pydantic field aliases of backend/models.py are a serialisation detail. Only the record shape is modelled.
- The Angular frontend is a UI and an HTTP wrapper.
- The tests import a distance function that the calculator file does not define. Distance appears here only as the inline expression of the calculator (`SquaredDistance`).
