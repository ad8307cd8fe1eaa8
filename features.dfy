/**
 * The one-row feature tables handed to a model. The pipeline selects its
 * input columns by name, so what a model sees of a request is, for each
 * column name, the value stored under that name.
 */
module Features {
  import opened Wrappers

  /** One table cell: a Python float or a Python int. */
  datatype Cell = Float(x: real) | Int(n: int)

  /** A validated `HeartDiseaseInput`: 13 fields, six floats and seven integer codes. */
  datatype Input = Input(
    age: real, sex: int, cp: int, trestbps: real, chol: real,
    fbs: int, restecg: int, thalach: real, exang: int, oldpeak: real,
    slope: int, ca: real, thal: int)

  /** The fields in the order the input schema declares them. */
  const FieldNames: seq<string> := [
    "age", "sex", "cp", "trestbps", "chol", "fbs", "restecg",
    "thalach", "exang", "oldpeak", "slope", "ca", "thal"]

  const NumericCols: seq<string> := ["age", "trestbps", "chol", "thalach", "oldpeak", "ca"]
  const CategoricalCols: seq<string> := ["sex", "cp", "fbs", "restecg", "exang", "slope", "thal"]

  /** The column names `/predict` gives its table. */
  const SingleColumns: seq<string> := NumericCols + CategoricalCols

  /** The field called `name` (`getattr(input, name)`), or `None` for a name the schema lacks. */
  function Field(x: Input, name: string): Option<Cell> {
    if name == "age" then Some(Float(x.age))
    else if name == "sex" then Some(Int(x.sex))
    else if name == "cp" then Some(Int(x.cp))
    else if name == "trestbps" then Some(Float(x.trestbps))
    else if name == "chol" then Some(Float(x.chol))
    else if name == "fbs" then Some(Int(x.fbs))
    else if name == "restecg" then Some(Int(x.restecg))
    else if name == "thalach" then Some(Float(x.thalach))
    else if name == "exang" then Some(Int(x.exang))
    else if name == "oldpeak" then Some(Float(x.oldpeak))
    else if name == "slope" then Some(Int(x.slope))
    else if name == "ca" then Some(Float(x.ca))
    else if name == "thal" then Some(Int(x.thal))
    else None
  }

  /**
   * The value list both endpoints write: the fields in schema order. The
   * `float(...)` and `int(...)` casts of `/predict` leave each field as it is,
   * since the schema already fixes its type.
   */
  function SchemaValues(x: Input): seq<Cell> {
    [Float(x.age), Int(x.sex), Int(x.cp), Float(x.trestbps), Float(x.chol),
     Int(x.fbs), Int(x.restecg), Float(x.thalach), Int(x.exang), Float(x.oldpeak),
     Int(x.slope), Float(x.ca), Int(x.thal)]
  }

  /** A one-row `DataFrame`: column names and the row's values, position by position. */
  datatype Frame = Frame(columns: seq<string>, values: seq<Cell>)

  /** `frame[name]` for a single row: the value in the first column called `name`. */
  function Column(f: Frame, name: string): Option<Cell> {
    ColumnFrom(f, name, 0)
  }

  function ColumnFrom(f: Frame, name: string, k: nat): Option<Cell>
    decreases |f.columns| - k
  {
    if k >= |f.columns| || k >= |f.values| then None
    else if f.columns[k] == name then Some(f.values[k])
    else ColumnFrom(f, name, k + 1)
  }

  predicate Distinct(names: seq<string>) {
    forall i, j :: 0 <= i < j < |names| ==> names[i] != names[j]
  }

  lemma {:induction false} ColumnFromFinds(f: Frame, name: string, i: nat, k: nat)
    requires i <= k < |f.columns| && k < |f.values| && f.columns[k] == name
    requires forall j :: i <= j < k ==> f.columns[j] != name
    ensures ColumnFrom(f, name, i) == Some(f.values[k])
    decreases k - i
  {
    if i < k {
      ColumnFromFinds(f, name, i + 1, k);
    }
  }

  /** With distinct column names, looking a column up by name finds the value at its position. */
  lemma ColumnOfDistinct(f: Frame, k: nat)
    requires Distinct(f.columns) && |f.columns| == |f.values| && k < |f.columns|
    ensures Column(f, f.columns[k]) == Some(f.values[k])
  {
    ColumnFromFinds(f, f.columns[k], 0, k);
  }

  lemma DistinctColumns()
    ensures Distinct(FieldNames)
    ensures Distinct(SingleColumns)
  {
  }

  /** The table `/predict` builds: schema-ordered values under numeric-first names. */
  function SingleRow(x: Input): Frame {
    Frame(SingleColumns, SchemaValues(x))
  }

  /** The table `/predict/batch` builds: schema-ordered values under schema-ordered names. */
  function BatchRow(x: Input): Frame {
    Frame(FieldNames, SchemaValues(x))
  }

  /** The table `/predict` evidently means to build: each field under its own name, numeric first. */
  function IntendedSingleRow(x: Input): Frame {
    Frame(SingleColumns,
      [Float(x.age), Float(x.trestbps), Float(x.chol), Float(x.thalach), Float(x.oldpeak), Float(x.ca),
       Int(x.sex), Int(x.cp), Int(x.fbs), Int(x.restecg), Int(x.exang), Int(x.slope), Int(x.thal)])
  }

  /** A frame that gives every schema field its own value when looked up by name. */
  predicate ReadsFields(f: Frame, x: Input) {
    forall k :: 0 <= k < |FieldNames| ==> Column(f, FieldNames[k]) == Field(x, FieldNames[k])
  }

  /**
   * The `/predict` table has 13 columns, the six numeric names then the seven
   * categorical ones, and the k-th schema field sits in the k-th column.
   */
  lemma SingleRowShape(x: Input)
    ensures |SingleRow(x).columns| == |SingleRow(x).values| == 13
    ensures SingleRow(x).columns[..6] == NumericCols && SingleRow(x).columns[6..] == CategoricalCols
    ensures forall k :: 0 <= k < 13 ==> Some(SingleRow(x).values[k]) == Field(x, FieldNames[k])
  {
  }

  /** Column k of the `/predict` table carries the name of the field stored in it only for k = 0 and k = 12. */
  lemma SingleRowNamesMatch(k: nat)
    requires k < 13
    ensures SingleColumns[k] == FieldNames[k] <==> k == 0 || k == 12
  {
  }

  /**
   * What a by-name reader finds in the `/predict` table: every schema name is
   * present, but only "age" and "thal" hold their own field.
   */
  lemma SingleRowByName(x: Input)
    ensures Column(SingleRow(x), "age") == Some(Float(x.age))
    ensures Column(SingleRow(x), "trestbps") == Some(Int(x.sex))
    ensures Column(SingleRow(x), "chol") == Some(Int(x.cp))
    ensures Column(SingleRow(x), "thalach") == Some(Float(x.trestbps))
    ensures Column(SingleRow(x), "oldpeak") == Some(Float(x.chol))
    ensures Column(SingleRow(x), "ca") == Some(Int(x.fbs))
    ensures Column(SingleRow(x), "sex") == Some(Int(x.restecg))
    ensures Column(SingleRow(x), "cp") == Some(Float(x.thalach))
    ensures Column(SingleRow(x), "fbs") == Some(Int(x.exang))
    ensures Column(SingleRow(x), "restecg") == Some(Float(x.oldpeak))
    ensures Column(SingleRow(x), "exang") == Some(Int(x.slope))
    ensures Column(SingleRow(x), "slope") == Some(Float(x.ca))
    ensures Column(SingleRow(x), "thal") == Some(Int(x.thal))
  {
    DistinctColumns();
    var f := SingleRow(x);
    forall k | 0 <= k < 13
      ensures Column(f, SingleColumns[k]) == Some(SchemaValues(x)[k])
    {
      ColumnOfDistinct(f, k);
    }
    assert SingleColumns[0] == "age" && SingleColumns[1] == "trestbps" && SingleColumns[2] == "chol";
    assert SingleColumns[3] == "thalach" && SingleColumns[4] == "oldpeak" && SingleColumns[5] == "ca";
    assert SingleColumns[6] == "sex" && SingleColumns[7] == "cp" && SingleColumns[8] == "fbs";
    assert SingleColumns[9] == "restecg" && SingleColumns[10] == "exang" && SingleColumns[11] == "slope";
    assert SingleColumns[12] == "thal";
  }

  /** The example request of the input schema. */
  const SchemaExample: Input := Input(63.0, 1, 3, 145.0, 233.0, 1, 0, 150.0, 0, 2.3, 0, 0.0, 1)

  /** The `/predict` table misreads the schema's own example: its "trestbps" column holds `sex`. */
  lemma SingleRowMisreadsExample()
    ensures Column(SingleRow(SchemaExample), "trestbps") == Some(Int(1))
    ensures Field(SchemaExample, "trestbps") == Some(Float(145.0))
    ensures !ReadsFields(SingleRow(SchemaExample), SchemaExample)
  {
    SingleRowByName(SchemaExample);
    assert FieldNames[3] == "trestbps";
  }

  /** The `/predict/batch` table gives the model every field under its own name. */
  lemma BatchRowReadsFields(x: Input)
    ensures ReadsFields(BatchRow(x), x)
  {
    DistinctColumns();
    SingleRowShape(x);
    forall k | 0 <= k < |FieldNames|
      ensures Column(BatchRow(x), FieldNames[k]) == Field(x, FieldNames[k])
    {
      ColumnOfDistinct(BatchRow(x), k);
    }
  }

  /** The corrected `/predict` table keeps the numeric-first names and puts each field under its own name. */
  lemma IntendedSingleRowReadsFields(x: Input)
    ensures IntendedSingleRow(x).columns == SingleColumns
    ensures ReadsFields(IntendedSingleRow(x), x)
  {
    DistinctColumns();
    var f := IntendedSingleRow(x);
    forall k | 0 <= k < 13
      ensures Column(f, SingleColumns[k]) == Field(x, SingleColumns[k])
    {
      ColumnOfDistinct(f, k);
    }
    forall k | 0 <= k < |FieldNames|
      ensures Column(f, FieldNames[k]) == Field(x, FieldNames[k])
    {
      var j := [0, 6, 7, 1, 2, 8, 9, 3, 10, 4, 11, 5, 12][k];
      assert FieldNames[k] == SingleColumns[j];
    }
  }
}
