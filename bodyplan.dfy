/** Body-plan records (crpm/ffn_bodyplan.py, read_bodyplan): one record per
    layer, built from a CSV header and one CSV row. Opening the file and
    splitting it into cells is not modelled: the header arrives as a sequence
    of names and every row as a sequence of cells whose integer and float
    conversions are already worked out. */
module Bodyplan {
  import opened Outcome

  /** One body-plan record. `regval` and `lreg` are optional because the
      records that get_bodyplan rebuilds for the input layer lack them;
      records read from a table always carry both. */
  datatype LayerSpec = LayerSpec(
    layer: int,
    n: int,
    activation: string,
    regval: Option<real>,
    lreg: Option<int>)

  /** A CSV cell: its text, and what `int(text)` and `float(text)` give
      (None where Python would raise ValueError). */
  datatype Cell = Cell(text: string, asInt: Option<int>, asFloat: Option<real>)

  /** The exceptions read_bodyplan can raise on a header and a row. */
  datatype ReadError =
    | MissingColumn(name: string)   // keys.index(name) raises ValueError
    | MissingCell(name: string)     // line[k] raises IndexError on a short row
    | NotAnInt(name: string)        // int(...) raises ValueError
    | NotAFloat(name: string)       // float(...) raises ValueError

  /** Regularisation strength used when the header has no `regval` column. */
  const DefaultRegval: real := 0.0
  /** Regularisation kind (1 = L1) used when the header has no `lreg` column. */
  const DefaultLreg: int := 1

  /** `k` is the position of the first occurrence of `name` in `keys`. */
  predicate FirstIndex(keys: seq<string>, name: string, k: int) {
    0 <= k < |keys| && keys[k] == name && forall j :: 0 <= j < k ==> keys[j] != name
  }

  /** Python's `keys.index(name)`; None where it raises ValueError. */
  function IndexOf(keys: seq<string>, name: string): (r: Option<nat>)
    ensures r.Some? ==> FirstIndex(keys, name, r.value)
    ensures r.None? <==> name !in keys
  {
    if |keys| == 0 then None
    else if keys[0] == name then Some(0)
    else
      match IndexOf(keys[1..], name)
      case None => None
      case Some(k) => Some(k + 1)
  }

  /** `line[keys.index(name)]`: the cell under the first column called `name`. */
  function Column(keys: seq<string>, row: seq<Cell>, name: string): (r: Result<Cell, ReadError>)
    ensures name !in keys ==> r == Err(MissingColumn(name))
    ensures forall k :: FirstIndex(keys, name, k) ==>
              r == if k < |row| then Ok(row[k]) else Err(MissingCell(name))
  {
    match IndexOf(keys, name)
    case None => Err(MissingColumn(name))
    case Some(k) => if k < |row| then Ok(row[k]) else Err(MissingCell(name))
  }

  /** `int(line[keys.index(name)])` */
  function IntField(keys: seq<string>, row: seq<Cell>, name: string): Result<int, ReadError> {
    var cell :- Column(keys, row, name);
    if cell.asInt.Some? then Ok(cell.asInt.value) else Err(NotAnInt(name))
  }

  /** `float(line[keys.index(name)])` */
  function FloatField(keys: seq<string>, row: seq<Cell>, name: string): Result<real, ReadError> {
    var cell :- Column(keys, row, name);
    if cell.asFloat.Some? then Ok(cell.asFloat.value) else Err(NotAFloat(name))
  }

  /** The record read_bodyplan builds from one row. */
  function MakeRecord(keys: seq<string>, row: seq<Cell>): (r: Result<LayerSpec, ReadError>)
    ensures r.Ok? <==>
      IntField(keys, row, "layer").Ok? && IntField(keys, row, "n").Ok? &&
      Column(keys, row, "activation").Ok? &&
      ("regval" in keys ==> FloatField(keys, row, "regval").Ok?) &&
      ("lreg" in keys ==> IntField(keys, row, "lreg").Ok?)
    ensures "layer" !in keys ==> r == Err(MissingColumn("layer"))
    ensures r.Ok? ==>
      IntField(keys, row, "layer") == Ok(r.value.layer) &&
      IntField(keys, row, "n") == Ok(r.value.n) &&
      Column(keys, row, "activation").value.text == r.value.activation
    ensures r.Ok? ==> r.value.regval.Some? && r.value.lreg.Some?
    ensures r.Ok? ==>
      if "regval" in keys then FloatField(keys, row, "regval") == Ok(r.value.regval.value)
      else r.value.regval == Some(DefaultRegval)
    ensures r.Ok? ==>
      if "lreg" in keys then IntField(keys, row, "lreg") == Ok(r.value.lreg.value)
      else r.value.lreg == Some(DefaultLreg)
  {
    var layer :- IntField(keys, row, "layer");
    var n :- IntField(keys, row, "n");
    var activation :- Column(keys, row, "activation");
    var regval :- if "regval" in keys then FloatField(keys, row, "regval") else Ok(DefaultRegval);
    var lreg :- if "lreg" in keys then IntField(keys, row, "lreg") else Ok(DefaultLreg);
    Ok(LayerSpec(layer, n, activation.text, Some(regval), Some(lreg)))
  }

  /** read_bodyplan after the header: one record per row, appended in order;
      the first row that raises aborts the whole read with its error. */
  method ReadBodyplan(keys: seq<string>, rows: seq<seq<Cell>>)
    returns (r: Result<seq<LayerSpec>, ReadError>)
    ensures r.Ok? <==> forall i :: 0 <= i < |rows| ==> MakeRecord(keys, rows[i]).Ok?
    ensures r.Ok? ==> |r.value| == |rows|
    ensures r.Ok? ==> forall i :: 0 <= i < |rows| ==> MakeRecord(keys, rows[i]) == Ok(r.value[i])
    ensures r.Err? ==>
              exists k :: 0 <= k < |rows| && MakeRecord(keys, rows[k]) == Err(r.error) &&
                          forall i :: 0 <= i < k ==> MakeRecord(keys, rows[i]).Ok?
  {
    var bodyplan: seq<LayerSpec> := [];
    for i := 0 to |rows|
      invariant |bodyplan| == i
      invariant forall j :: 0 <= j < i ==> MakeRecord(keys, rows[j]) == Ok(bodyplan[j])
    {
      var record := MakeRecord(keys, rows[i]);
      if record.Err? {
        return Err(record.error);
      }
      bodyplan := bodyplan + [record.value];
    }
    return Ok(bodyplan);
  }

  /** Every layer after the input layer names its regularisation: init_ffn
      reads `lreg` and `regval` of those entries and would raise KeyError. */
  predicate RegularisationGiven(bp: seq<LayerSpec>) {
    forall i :: 1 <= i < |bp| ==> bp[i].regval.Some? && bp[i].lreg.Some?
  }

  /** Layer indices run 0, 1, ..., |bp| - 1. */
  predicate Indexed(bp: seq<LayerSpec>) {
    forall i :: 0 <= i < |bp| ==> bp[i].layer == i
  }

  /** A body plan read from a table always names the regularisation of
      every layer, so init_ffn finds `lreg` and `regval` on every entry
      after the first and raises no KeyError. */
  lemma ReadPlanIsComplete(keys: seq<string>, rows: seq<seq<Cell>>, bp: seq<LayerSpec>)
    requires |bp| == |rows|
    requires forall i :: 0 <= i < |rows| ==> MakeRecord(keys, rows[i]) == Ok(bp[i])
    ensures RegularisationGiven(bp)
    ensures forall i :: 0 <= i < |bp| ==> bp[i].regval.Some? && bp[i].lreg.Some?
  {
    forall i | 0 <= i < |bp|
      ensures bp[i].regval.Some? && bp[i].lreg.Some?
    {
      assert MakeRecord(keys, rows[i]).Ok?;
    }
  }
}
