/**
 * The indexer's feature normaliser: the fixed min/max table, the clamped min-max scaling of
 * ten audio features into the `audio_vector`, the mapping that declares that vector, and the
 * record-skipping rule of bulk indexing. Raw values are reals; a missing CSV value has
 * already become `None`.
 */
module Indexer {
  import opened Wrappers
  import opened Engine
  import Seqs

  /** The closed interval a raw feature value is expected to lie in. */
  datatype Range = Range(lo: real, hi: real)

  /** The normalisation table. */
  const Ranges: map<string, Range> := map[
    "danceability" := Range(0.00, 0.99),
    "energy" := Range(0.00, 1.00),
    "valence" := Range(0.00, 1.00),
    "acousticness" := Range(0.00, 1.00),
    "instrumentalness" := Range(0.00, 1.00),
    "speechiness" := Range(0.00, 0.96),
    "liveness" := Range(0.00, 1.00),
    "tempo" := Range(0.00, 243.37),
    "loudness" := Range(-49.53, 4.53),
    "popularity" := Range(0.00, 100.00)
  ]

  /** The features of the vector, in vector order. */
  const FeatureNames: seq<string> := [
    "danceability", "energy", "valence", "acousticness",
    "instrumentalness", "speechiness", "liveness",
    "tempo", "loudness", "popularity"
  ]

  /** The dimension and similarity the index mapping declares for `audio_vector`. */
  datatype DenseVector = DenseVector(dims: int, indexed: bool, similarity: string)

  const AudioVectorMapping := DenseVector(10, true, "cosine")

  const NoneOperand := "unsupported operand type(s) for -: 'NoneType' and 'float'"

  /** One raw track row as the indexer sees it: a column name and its value, `None` for a missing value. */
  type Row = map<string, Option<real>>

  /** Min-max scaling clamped to [0, 1]; a degenerate range gives 0. */
  function Normalize(value: real, r: Range): (x: real)
    ensures 0.0 <= x <= 1.0
  {
    if r.hi != r.lo then
      var scaled := (value - r.lo) / (r.hi - r.lo);
      if scaled < 0.0 then 0.0 else if scaled > 1.0 then 1.0 else scaled
    else 0.0
  }

  /**
   * One component: the lookup of a missing column raises `KeyError`; with a proper range,
   * arithmetic on `None` raises `TypeError`; a degenerate range never touches the value.
   */
  function Component(row: Row, name: string): (r: Result<real, Error>)
    requires name in Ranges
    ensures r.Err? <==> name !in row || (Ranges[name].hi != Ranges[name].lo && row[name].None?)
    ensures name !in row ==> r == Err(KeyError(name))
    ensures name in row && row[name].Some? ==> r == Ok(Normalize(row[name].value, Ranges[name]))
    ensures r.Ok? ==> 0.0 <= r.value <= 1.0
  {
    if name !in row then Err(KeyError(name))
    else if Ranges[name].hi != Ranges[name].lo then
      if row[name].None? then Err(TypeError(NoneOperand))
      else Ok(Normalize(row[name].value, Ranges[name]))
    else Ok(0.0)
  }

  /** The vector of the first `n` features, or the error of the first feature that fails. */
  function Vectorize(row: Row, n: int): Result<seq<real>, Error>
    requires 0 <= n <= |FeatureNames|
    decreases n
  {
    if n == 0 then Ok([])
    else
      match Vectorize(row, n - 1)
      case Err(e) => Err(e)
      case Ok(v) =>
        match Component(row, FeatureNames[n - 1])
        case Err(e) => Err(e)
        case Ok(x) => Ok(v + [x])
  }

  /** Once a prefix of the features fails, every longer prefix fails with the same error. */
  lemma {:induction false} VectorizeErrorPersists(row: Row, i: int, n: int)
    requires 0 <= i <= n <= |FeatureNames|
    requires Vectorize(row, i).Err?
    ensures Vectorize(row, n) == Vectorize(row, i)
    decreases n - i
  {
    if i < n {
      VectorizeErrorPersists(row, i, n - 1);
    }
  }

  /** The row holds every feature with a value. */
  predicate Complete(row: Row) {
    forall k :: 0 <= k < |FeatureNames| ==> FeatureNames[k] in row && row[FeatureNames[k]].Some?
  }

  /** `create_audio_vector`: append one normalised component per feature, in table order. */
  method CreateAudioVector(row: Row) returns (r: Result<seq<real>, Error>)
    ensures r == Vectorize(row, |FeatureNames|)
  {
    var features: seq<real> := [];
    for i := 0 to |FeatureNames|
      invariant Vectorize(row, i) == Ok(features)
    {
      var name := FeatureNames[i];
      if name !in row {
        VectorizeErrorPersists(row, i + 1, |FeatureNames|);
        return Err(KeyError(name));
      }
      var range := Ranges[name];
      var normalized: real;
      if range.hi != range.lo {
        if row[name].None? {
          VectorizeErrorPersists(row, i + 1, |FeatureNames|);
          return Err(TypeError(NoneOperand));
        }
        normalized := (row[name].value - range.lo) / (range.hi - range.lo);
        normalized := if normalized < 0.0 then 0.0 else if normalized > 1.0 then 1.0 else normalized;
      } else {
        normalized := 0.0;
      }
      features := features + [normalized];
    }
    r := Ok(features);
  }

  /** Every table range is proper, and the table covers exactly the vector's features. */
  lemma TableWellFormed()
    ensures Ranges.Keys == set k | 0 <= k < |FeatureNames| :: FeatureNames[k]
    ensures forall name :: name in Ranges ==> Ranges[name].lo < Ranges[name].hi
    ensures forall k, l :: 0 <= k < l < |FeatureNames| ==> FeatureNames[k] != FeatureNames[l]
  {
    assert forall name :: name in Ranges ==>
      (name == FeatureNames[0] || name == FeatureNames[1] || name == FeatureNames[2] || name == FeatureNames[3]
       || name == FeatureNames[4] || name == FeatureNames[5] || name == FeatureNames[6] || name == FeatureNames[7]
       || name == FeatureNames[8] || name == FeatureNames[9]);
  }

  /** Every feature of the vector has a proper range in the table. */
  lemma FeatureRangesProper(k: int)
    requires 0 <= k < |FeatureNames|
    ensures FeatureNames[k] in Ranges && Ranges[FeatureNames[k]].lo < Ranges[FeatureNames[k]].hi
  {
    TableWellFormed();
  }

  /** Dividing by a positive amount keeps order. */
  lemma {:induction false} DivideMonotone(a: real, b: real, d: real)
    requires d > 0.0 && a <= b
    ensures a / d <= b / d
  {
    var p, q := a / d, b / d;
    assert p * d == a && q * d == b;
  }

  /** The table's minimum maps to 0 and its maximum to 1; values between keep their order. */
  lemma NormalizeEndpoints(r: Range, v: real, w: real)
    requires r.lo < r.hi
    ensures Normalize(r.lo, r) == 0.0 && Normalize(r.hi, r) == 1.0
    ensures v <= r.lo ==> Normalize(v, r) == 0.0
    ensures v >= r.hi ==> Normalize(v, r) == 1.0
    ensures v <= w ==> Normalize(v, r) <= Normalize(w, r)
  {
    var d := r.hi - r.lo;
    assert (r.lo - r.lo) / d == 0.0;
    assert (r.hi - r.lo) / d == 1.0;
    if v <= w {
      DivideMonotone(v - r.lo, w - r.lo, d);
    }
    if v <= r.lo {
      DivideMonotone(v - r.lo, 0.0, d);
    }
    if v >= r.hi {
      DivideMonotone(d, v - r.lo, d);
    }
  }

  /** Inside its range a value is recovered from its component: scaling back inverts the normaliser. */
  lemma NormalizeInverse(r: Range, v: real)
    requires r.lo < r.hi && r.lo <= v <= r.hi
    ensures r.lo + Normalize(v, r) * (r.hi - r.lo) == v
  {
    var d := r.hi - r.lo;
    DivideMonotone(0.0, v - r.lo, d);
    DivideMonotone(v - r.lo, d, d);
    assert d / d == 1.0;
    assert (v - r.lo) / d * d == v - r.lo;
  }

  /** A degenerate range yields 0 whatever the value. */
  lemma NormalizeDegenerate(r: Range, v: real)
    requires r.lo == r.hi
    ensures Normalize(v, r) == 0.0
  {
  }

  /**
   * A vector of the first `n` features has exactly `n` components, each in [0, 1] and each
   * the normalised value of its feature.
   */
  lemma {:induction false} VectorizeShape(row: Row, n: int)
    requires 0 <= n <= |FeatureNames|
    requires Vectorize(row, n).Ok?
    ensures |Vectorize(row, n).value| == n
    ensures forall k :: 0 <= k < n ==>
      && FeatureNames[k] in row
      && row[FeatureNames[k]].Some?
      && Vectorize(row, n).value[k] == Normalize(row[FeatureNames[k]].value, Ranges[FeatureNames[k]])
      && 0.0 <= Vectorize(row, n).value[k] <= 1.0
    decreases n
  {
    if n > 0 {
      VectorizeShape(row, n - 1);
    }
  }

  /** Feature `k` is the first of the first `n` that is missing or has no value. */
  predicate FirstFailure(row: Row, k: int, n: int)
    requires n <= |FeatureNames|
  {
    && 0 <= k < n
    && (forall j :: 0 <= j < k ==> FeatureNames[j] in row && row[FeatureNames[j]].Some?)
    && !(FeatureNames[k] in row && row[FeatureNames[k]].Some?)
  }

  /** The error a failing feature raises: `KeyError` naming a missing column, `TypeError` for `None`. */
  function FeatureError(row: Row, name: string): Error {
    if name !in row then KeyError(name) else TypeError(NoneOperand)
  }

  /** The first `n` features vectorise exactly when each is present with a value. */
  lemma {:induction false} VectorizeSucceeds(row: Row, n: int)
    requires 0 <= n <= |FeatureNames|
    ensures Vectorize(row, n).Ok? <==> forall k :: 0 <= k < n ==> FeatureNames[k] in row && row[FeatureNames[k]].Some?
    decreases n
  {
    if n > 0 {
      VectorizeSucceeds(row, n - 1);
      FeatureRangesProper(n - 1);
    }
  }

  /**
   * A failing vector reports the first feature that is missing (`KeyError` naming it) or
   * holds `None` (`TypeError`).
   */
  lemma {:induction false} VectorizeFirstError(row: Row, n: int)
    requires 0 <= n <= |FeatureNames|
    requires Vectorize(row, n).Err?
    ensures exists k :: FirstFailure(row, k, n) && Vectorize(row, n).error == FeatureError(row, FeatureNames[k])
    decreases n
  {
    var name := FeatureNames[n - 1];
    if Vectorize(row, n - 1).Err? {
      VectorizeFirstError(row, n - 1);
      var k :| FirstFailure(row, k, n - 1) && Vectorize(row, n - 1).error == FeatureError(row, FeatureNames[k]);
      assert FirstFailure(row, k, n);
    } else {
      VectorizeSucceeds(row, n - 1);
      FeatureRangesProper(n - 1);
      assert Component(row, name) == Err(FeatureError(row, name));
      assert FirstFailure(row, n - 1, n);
    }
  }

  /**
   * The audio vector of a row: ten components in table order, each in [0, 1], produced
   * exactly when the row is complete; its length is the dimension the mapping declares.
   */
  lemma AudioVector(row: Row)
    ensures Vectorize(row, |FeatureNames|).Ok? <==> Complete(row)
    ensures Vectorize(row, |FeatureNames|).Ok? ==>
      && |Vectorize(row, |FeatureNames|).value| == 10 == AudioVectorMapping.dims
      && forall k :: 0 <= k < 10 ==>
           && Vectorize(row, |FeatureNames|).value[k] == Normalize(row[FeatureNames[k]].value, Ranges[FeatureNames[k]])
           && 0.0 <= Vectorize(row, |FeatureNames|).value[k] <= 1.0
  {
    var v := Vectorize(row, |FeatureNames|);
    VectorizeSucceeds(row, |FeatureNames|);
    assert v.Ok? <==> Complete(row);
    if v.Ok? {
      VectorizeShape(row, |FeatureNames|);
      assert |v.value| == 10;
    }
  }

  /** A row indexed in bulk: its columns and its computed vector. */
  datatype Document = Document(row: Row, audioVector: seq<real>)

  /** The documents bulk indexing sends, in row order: a row whose vector fails is skipped. */
  function Prepared(rows: seq<Row>): seq<Document>
    decreases |rows|
  {
    if rows == [] then []
    else
      var last := rows[|rows| - 1];
      Prepared(rows[..|rows| - 1])
      + match Vectorize(last, |FeatureNames|)
        case Ok(v) => [Document(last, v)]
        case Err(_) => []
  }

  /** The loop of `index_data` that vectorises each row and skips the ones that raise. */
  method PrepareDocuments(rows: seq<Row>) returns (docs: seq<Document>)
    ensures docs == Prepared(rows)
  {
    docs := [];
    for i := 0 to |rows|
      invariant docs == Prepared(rows[..i])
    {
      assert rows[..i + 1][..i] == rows[..i];
      var vector := CreateAudioVector(rows[i]);
      if vector.Err? {
        continue;
      }
      docs := docs + [Document(rows[i], vector.value)];
    }
    assert rows[..|rows|] == rows;
  }

  /**
   * Skipping, not defaulting: the prepared documents are exactly the complete rows, each
   * with its own vector of ten components in [0, 1].
   */
  lemma {:induction false} PreparedDocuments(rows: seq<Row>)
    ensures |Prepared(rows)| <= |rows|
    ensures forall d :: d in Prepared(rows) ==>
      && d.row in rows
      && Complete(d.row)
      && Vectorize(d.row, |FeatureNames|) == Ok(d.audioVector)
      && |d.audioVector| == 10
      && forall k :: 0 <= k < |d.audioVector| ==> 0.0 <= d.audioVector[k] <= 1.0
    ensures forall row :: row in rows && Complete(row) ==>
      exists v :: Vectorize(row, |FeatureNames|) == Ok(v) && Document(row, v) in Prepared(rows)
    decreases |rows|
  {
    if rows != [] {
      var init := rows[..|rows| - 1];
      var last := rows[|rows| - 1];
      PreparedDocuments(init);
      assert rows == init + [last];
      PreparedStep(init, last);
      AudioVector(last);
    }
  }

  /** Preparing one more row appends its document when the row is complete, and nothing otherwise. */
  lemma PreparedStep(init: seq<Row>, last: Row)
    ensures Complete(last) ==> Vectorize(last, |FeatureNames|).Ok?
    ensures Prepared(init + [last]) ==
      Prepared(init) + if Complete(last) then [Document(last, Vectorize(last, |FeatureNames|).value)] else []
  {
    assert (init + [last])[..|init|] == init;
    VectorizeSucceeds(last, |FeatureNames|);
  }

  /** The prepared documents carry the complete rows in their original order, and only those. */
  lemma {:induction false} PreparedInOrder(rows: seq<Row>)
    ensures |Prepared(rows)| == |Seqs.Filter(rows, Complete)|
    ensures forall k :: 0 <= k < |Prepared(rows)| ==> Prepared(rows)[k].row == Seqs.Filter(rows, Complete)[k]
    decreases |rows|
  {
    if rows != [] {
      var init := rows[..|rows| - 1];
      var last := rows[|rows| - 1];
      PreparedInOrder(init);
      AudioVector(last);
      if Complete(last) {
        assert Seqs.Filter(rows, Complete) == Seqs.Filter(init, Complete) + [last];
      } else {
        assert Seqs.Filter(rows, Complete) == Seqs.Filter(init, Complete);
      }
    }
  }
}
