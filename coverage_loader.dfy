/**
  Loading, validating and querying the antenna catalog
  (backend/services/coverage_loader.py).

  A Polars frame is modelled by its schema, the ordered list of its columns
  with their dtypes, and by its rows, the typed antenna records. Reading the
  CSV file is left out: loading starts from the frame the reader produced.
 */
module CoverageLoader {
  import opened Wrappers
  import opened Antennas

  /** The column dtypes that matter here: string columns cannot be cast to Boolean. */
  datatype DType = Utf8 | Int64 | Float64 | Boolean

  datatype Column = Column(name: string, dtype: DType)

  type Schema = seq<Column>

  datatype Frame = Frame(columns: Schema, rows: seq<AntennaRecord>)

  /** The Polars errors that loading can raise. */
  datatype LoadError = ColumnNotFound | DuplicateColumn | InvalidCast

  /** The columns a usable catalog must have. */
  const RequiredColumns: seq<string> := ["operator", "x_lambert93", "y_lambert93", "2G", "3G", "4G"]

  /** The source names of the three renamed columns. */
  const RenamedSources: seq<string> := ["Operateur", "x", "y"]

  function Names(s: Schema): seq<string> {
    seq(|s|, i requires 0 <= i < |s| => s[i].name)
  }

  predicate Distinct(names: seq<string>) {
    forall i, j :: 0 <= i < j < |names| ==> names[i] != names[j]
  }

  /** Position of the first column called `name`, which is where `df[name]` looks. */
  function IndexOf(names: seq<string>, name: string): (k: nat)
    requires name in names
    ensures k < |names| && names[k] == name
    ensures forall j :: 0 <= j < k ==> names[j] != name
  {
    if names[0] == name then 0 else 1 + IndexOf(names[1..], name)
  }

  /** `df[name].dtype` */
  function DTypeOf(s: Schema, name: string): DType
    requires name in Names(s)
  {
    s[IndexOf(Names(s), name)].dtype
  }

  // ---------------------------------------------------------------------------
  // Loading
  // ---------------------------------------------------------------------------

  /** The fixed rename table of the loader. */
  function RenameName(name: string): string {
    if name == "Operateur" then "operator"
    else if name == "x" then "x_lambert93"
    else if name == "y" then "y_lambert93"
    else name
  }

  function Renamed(s: Schema): Schema {
    seq(|s|, i requires 0 <= i < |s| => Column(RenameName(s[i].name), s[i].dtype))
  }

  predicate HasRenamedSources(s: Schema) {
    forall n :: n in RenamedSources ==> n in Names(s)
  }

  /**
    `df.rename({...})`: every key of the table must name a column (Polars'
    strict rename), and the renamed frame must not repeat a column name.
   */
  function Rename(s: Schema): (r: Result<Schema, LoadError>)
    ensures !HasRenamedSources(s) ==> r == Err(ColumnNotFound)
    ensures HasRenamedSources(s) && !Distinct(Names(Renamed(s))) ==> r == Err(DuplicateColumn)
    ensures HasRenamedSources(s) && Distinct(Names(Renamed(s))) ==> r == Ok(Renamed(s))
    ensures r.Ok? ==> r.value == Renamed(s) && Distinct(Names(r.value))
  {
    if "Operateur" !in Names(s) || "x" !in Names(s) || "y" !in Names(s) then Err(ColumnNotFound)
    else if !Distinct(Names(Renamed(s))) then Err(DuplicateColumn)
    else Ok(Renamed(s))
  }

  /** `df.with_columns(pl.col(col).cast(pl.Boolean))` */
  function CastToBoolean(s: Schema, col: string): Result<Schema, LoadError> {
    if col !in Names(s) then Err(ColumnNotFound)
    else if DTypeOf(s, col) == Utf8 then Err(InvalidCast)
    else Ok(seq(|s|, i requires 0 <= i < |s| => if s[i].name == col then Column(col, Boolean) else s[i]))
  }

  /** The error raised by the first of `cols` that is absent or not castable, if any. */
  function FirstCastFailure(s: Schema, cols: seq<string>): (e: Option<LoadError>)
    ensures e == None <==> forall c :: c in cols ==> c in Names(s) && DTypeOf(s, c) != Utf8
  {
    if cols == [] then None
    else if cols[0] !in Names(s) then Some(ColumnNotFound)
    else if DTypeOf(s, cols[0]) == Utf8 then Some(InvalidCast)
    else FirstCastFailure(s, cols[1..])
  }

  /**
    `loaded` is `raw` with the three fixed renames applied and the technology
    columns cast to Boolean; every other name and dtype, and the order of the
    columns, is unchanged.
   */
  ghost predicate IsLoadOf(raw: Schema, loaded: Schema) {
    && |loaded| == |raw|
    && forall i :: 0 <= i < |raw| ==>
         && loaded[i].name == RenameName(raw[i].name)
         && loaded[i].dtype == (if loaded[i].name in Technologies then Boolean else raw[i].dtype)
  }

  /** After `k` casts, `df` is `s0` with the first `k` technology columns made Boolean. */
  ghost predicate CastUpTo(s0: Schema, df: Schema, k: nat)
    requires k <= |Technologies|
  {
    && Names(df) == Names(s0)
    && forall i :: 0 <= i < |df| ==>
         df[i].dtype == (if df[i].name in Technologies[..k] then Boolean else s0[i].dtype)
  }

  /** One turn of the cast loop: it fails exactly as `FirstCastFailure` says, or casts one more column. */
  lemma CastStep(s0: Schema, df: Schema, k: nat)
    requires k < |Technologies| && CastUpTo(s0, df, k)
    ensures match CastToBoolean(df, Technologies[k])
            case Err(e) => FirstCastFailure(s0, Technologies[k..]) == Some(e)
            case Ok(df') => CastUpTo(s0, df', k + 1)
                            && FirstCastFailure(s0, Technologies[k..]) == FirstCastFailure(s0, Technologies[k + 1..])
  {
    var col := Technologies[k];
    assert Technologies[k..][0] == col && Technologies[k..][1..] == Technologies[k + 1..];
    assert Names(df) == Names(s0) && |df| == |s0|;
    if col in Names(df) {
      assert DTypeOf(df, col) == DTypeOf(s0, col);
    }
    assert Technologies[..k + 1] == Technologies[..k] + [col];
  }

  /** Once all three technology columns are cast, the renamed schema has become a load of `raw`. */
  lemma CastDoneIsLoad(raw: Schema, df: Schema)
    requires CastUpTo(Renamed(raw), df, |Technologies|)
    ensures IsLoadOf(raw, df)
  {
    assert Technologies[..|Technologies|] == Technologies;
    assert |df| == |Renamed(raw)|;
    forall i | 0 <= i < |raw|
      ensures df[i].name == RenameName(raw[i].name)
    {
      assert Names(df)[i] == Names(Renamed(raw))[i];
    }
  }

  /**
    `load_coverage_measure_from_csv` after the file has been read: rename,
    then cast 2G, 3G and 4G to Boolean one after the other. A raised Polars
    error becomes `Err`.
   */
  method LoadCoverageMeasure(raw: Frame) returns (r: Result<Frame, LoadError>)
    ensures !HasRenamedSources(raw.columns) ==> r == Err(ColumnNotFound)
    ensures HasRenamedSources(raw.columns) && !Distinct(Names(Renamed(raw.columns))) ==> r == Err(DuplicateColumn)
    ensures HasRenamedSources(raw.columns) && Distinct(Names(Renamed(raw.columns))) ==>
              match FirstCastFailure(Renamed(raw.columns), Technologies)
              case Some(e) => r == Err(e)
              case None => r.Ok?
    ensures r.Ok? ==> IsLoadOf(raw.columns, r.value.columns) && r.value.rows == raw.rows
  {
    var renamed := Rename(raw.columns);
    if renamed.Err? {
      return Err(renamed.error);
    }
    var s0 := renamed.value;
    var df := s0;
    for k := 0 to |Technologies|
      invariant CastUpTo(s0, df, k)
      invariant FirstCastFailure(s0, Technologies) == FirstCastFailure(s0, Technologies[k..])
    {
      CastStep(s0, df, k);
      var cast := CastToBoolean(df, Technologies[k]);
      if cast.Err? {
        return Err(cast.error);
      }
      df := cast.value;
    }
    CastDoneIsLoad(raw.columns, df);
    return Ok(Frame(df, raw.rows));
  }

  // ---------------------------------------------------------------------------
  // Validation
  // ---------------------------------------------------------------------------

  /** All required columns are present and the technology columns are Boolean. */
  predicate IsValidSchema(s: Schema) {
    && (forall c :: c in RequiredColumns ==> c in Names(s))
    && (forall t :: t in Technologies ==> DTypeOf(s, t) == Boolean)
  }

  /**
    `validate_coverage_measure_dataframe`: first checks that every required
    column is present, and only then looks at the dtypes of 2G, 3G and 4G.
   */
  method ValidateCoverageMeasure(s: Schema) returns (ok: bool)
    ensures ok <==> IsValidSchema(s)
  {
    for k := 0 to |RequiredColumns|
      invariant forall j :: 0 <= j < k ==> RequiredColumns[j] in Names(s)
    {
      if RequiredColumns[k] !in Names(s) {
        return false;
      }
    }
    for k := 0 to |Technologies|
      invariant forall j :: 0 <= j < |RequiredColumns| ==> RequiredColumns[j] in Names(s)
      invariant forall j :: 0 <= j < k ==> Technologies[j] in Names(s) && DTypeOf(s, Technologies[j]) == Boolean
    {
      assert Technologies[k] == RequiredColumns[3 + k];
      if DTypeOf(s, Technologies[k]) != Boolean {
        return false;
      }
    }
    return true;
  }

  /** A frame with a required column missing never validates. */
  lemma MissingColumnIsInvalid(s: Schema, c: string)
    requires c in RequiredColumns && c !in Names(s)
    ensures !IsValidSchema(s)
  {
  }

  /** A frame whose technology column is present but not Boolean never validates. */
  lemma NonBooleanTechIsInvalid(s: Schema, t: string)
    requires t in Technologies && t in Names(s) && DTypeOf(s, t) != Boolean
    ensures !IsValidSchema(s)
  {
  }

  /** The rename touches exactly the three columns of the rename table. */
  lemma {:induction false} RenameIsExact(s: Schema, i: nat)
    requires i < |s|
    ensures Renamed(s)[i].dtype == s[i].dtype
    ensures Renamed(s)[i].name != s[i].name <==> s[i].name in RenamedSources
  {
  }

  /** A column the rename table maps to `target` reappears under that name. */
  lemma RenamedColumnPresent(raw: Schema, loaded: Schema, source: string, target: string)
    requires source in Names(raw) && RenameName(source) == target
    requires |loaded| == |raw| && forall i :: 0 <= i < |raw| ==> loaded[i].name == RenameName(raw[i].name)
    ensures target in Names(loaded)
  {
    var i := IndexOf(Names(raw), source);
    assert Names(loaded)[i] == target;
  }

  /**
    Whatever loading returns successfully has every required column, and its
    technology columns are Boolean: a loaded frame validates.
   */
  lemma {:induction false} LoadedFrameValidates(raw: Schema, loaded: Schema)
    requires HasRenamedSources(raw)
    requires FirstCastFailure(Renamed(raw), Technologies) == None
    requires IsLoadOf(raw, loaded)
    ensures IsValidSchema(loaded)
  {
    assert Names(loaded) == Names(Renamed(raw));
    RenamedColumnPresent(raw, loaded, "Operateur", "operator");
    RenamedColumnPresent(raw, loaded, "x", "x_lambert93");
    RenamedColumnPresent(raw, loaded, "y", "y_lambert93");
    forall t | t in Technologies
      ensures t in Names(loaded) && DTypeOf(loaded, t) == Boolean
    {
      assert t in Names(Renamed(raw));
      var i := IndexOf(Names(loaded), t);
      assert loaded[i].name == t;
    }
  }

  // ---------------------------------------------------------------------------
  // Queries
  // ---------------------------------------------------------------------------

  /**
    `get_unique_operators`: each operator of the table exactly once. Polars
    does not promise an order; this model lists them by first occurrence.
   */
  function GetUniqueOperators(df: seq<AntennaRecord>): (ops: seq<string>)
    ensures forall op :: op in ops <==> op in OperatorSet(df)
    ensures Distinct(ops)
  {
    if |df| == 0 then []
    else
      var rest := GetUniqueOperators(df[..|df| - 1]);
      var op := df[|df| - 1].operator;
      assert OperatorSet(df) == OperatorSet(df[..|df| - 1]) + {op} by {
        assert forall i :: 0 <= i < |df| - 1 ==> df[..|df| - 1][i] == df[i];
      }
      if op in rest then rest else rest + [op]
  }
}
