/** The feed-forward network model (crpm/ffn_bodyplan.py): a list of layers
    index-aligned with a body plan. Layer 0 is the input layer and holds only
    its index, width and activation; every later layer also owns a weight
    matrix, a bias column and a momentum buffer of the same shape for each.
    The numpy buffers are two-dimensional arrays, so that freshness and
    aliasing can be stated. */
module Ffn {
  import opened Outcome
  import opened Bodyplan

  type Matrix = array2<real>

  /** The weight initialiser: the value drawn for (layer, row, column).
      It stands for np.random.randn, whose distribution is not modelled. */
  type Draw = (nat, nat, nat) -> real

  datatype Layer =
    | Input(layer: int, n: int, activation: string)
    | Weighted(layer: int, n: int, activation: string, lreg: int, regval: real,
               weight: Matrix, bias: Matrix, weightdot: Matrix, biasdot: Matrix)

  /** The buffers a layer owns. */
  function Params(l: Layer): set<Matrix> {
    if l.Weighted? then {l.weight, l.bias, l.weightdot, l.biasdot} else {}
  }

  /** Every buffer of a model. */
  function Buffers(model: seq<Layer>): set<Matrix> {
    set i, a | 0 <= i < |model| && a in Params(model[i]) :: a
  }

  lemma ParamsInBuffers(model: seq<Layer>, i: int)
    requires 0 <= i < |model|
    ensures Params(model[i]) <= Buffers(model)
  {
  }

  lemma BuffersAppend(model: seq<Layer>, l: Layer)
    ensures Buffers(model + [l]) == Buffers(model) + Params(l)
  {
    var m := model + [l];
    forall a | a in Buffers(m) ensures a in Buffers(model) + Params(l) {
      var i :| 0 <= i < |m| && a in Params(m[i]);
      if i < |model| { assert m[i] == model[i]; }
    }
    forall a | a in Buffers(model) ensures a in Buffers(m) {
      var i :| 0 <= i < |model| && a in Params(model[i]);
      assert m[i] == model[i];
    }
    assert m[|model|] == l;
  }

  // ---------------------------------------------------------------------
  // Shapes, contents and ownership of the buffers

  predicate HasShape(a: Matrix, rows: int, cols: int) {
    a.Length0 == rows && a.Length1 == cols
  }

  predicate AllZero(a: Matrix)
    reads a
  {
    forall r, c :: 0 <= r < a.Length0 && 0 <= c < a.Length1 ==> a[r, c] == 0.0
  }

  /** Same shape and the same entries. */
  predicate SameEntries(a: Matrix, b: Matrix)
    reads a, b
  {
    a.Length0 == b.Length0 && a.Length1 == b.Length1 &&
    forall r, c :: 0 <= r < a.Length0 && 0 <= c < a.Length1 ==> a[r, c] == b[r, c]
  }

  /** The entries of a matrix, row by row. */
  function Values(a: Matrix): (rows: seq<seq<real>>)
    reads a
    ensures |rows| == a.Length0
    ensures forall r :: 0 <= r < |rows| ==> |rows[r]| == a.Length1
    ensures forall r, c :: 0 <= r < a.Length0 && 0 <= c < a.Length1 ==> rows[r][c] == a[r, c]
  {
    seq(a.Length0, r requires 0 <= r < a.Length0 reads a =>
      seq(a.Length1, c requires 0 <= c < a.Length1 reads a => a[r, c]))
  }

  /** Matrices with the same shape and entries have the same values. */
  lemma SameValues(a: Matrix, b: Matrix)
    requires SameEntries(a, b)
    ensures Values(a) == Values(b)
  {
    forall r | 0 <= r < a.Length0 ensures Values(a)[r] == Values(b)[r] { }
  }

  /** Layer `l` connects `nprev` inputs to its `n` units: weight and
      weightdot are (n, nprev), bias and biasdot are (n, 1). */
  predicate Connects(l: Layer, nprev: int)
    requires l.Weighted?
  {
    HasShape(l.weight, l.n, nprev) && HasShape(l.weightdot, l.n, nprev) &&
    HasShape(l.bias, l.n, 1) && HasShape(l.biasdot, l.n, 1)
  }

  /** Every layer after the input layer is a weighted layer whose buffers
      match its own width and the width of the layer before it. */
  predicate WellShaped(model: seq<Layer>) {
    forall i :: 1 <= i < |model| ==> model[i].Weighted? && Connects(model[i], model[i - 1].n)
  }

  /** The state a layer has right after construction: weights from the
      initialiser, zero bias and zero momenta. */
  predicate Initialised(l: Layer, i: nat, draw: Draw)
    requires l.Weighted?
    reads Params(l)
  {
    (forall r, c :: 0 <= r < l.weight.Length0 && 0 <= c < l.weight.Length1 ==>
                      l.weight[r, c] == draw(i, r, c)) &&
    AllZero(l.bias) && AllZero(l.weightdot) && AllZero(l.biasdot)
  }

  predicate AllInitialised(model: seq<Layer>, draw: Draw)
    reads Buffers(model)
  {
    forall i :: 1 <= i < |model| && model[i].Weighted? ==>
                  Initialised(model[i], i, draw)
  }

  /** The four buffers of a layer are four different arrays. */
  predicate Separate(l: Layer) {
    l.Weighted? ==>
      l.weight != l.bias && l.weight != l.weightdot && l.weight != l.biasdot &&
      l.bias != l.weightdot && l.bias != l.biasdot && l.weightdot != l.biasdot
  }

  /** No buffer is shared, inside a layer or between two layers. */
  predicate Unaliased(model: seq<Layer>) {
    (forall i :: 0 <= i < |model| ==> Separate(model[i])) &&
    forall i, j :: 0 <= i < j < |model| ==> Params(model[i]) !! Params(model[j])
  }

  /** The first `k` layers of `copy` hold the same buffer entries as the
      layers of `model` at the same positions. */
  predicate CopiedUpTo(copy: seq<Layer>, model: seq<Layer>, k: int)
    reads Buffers(copy), Buffers(model)
  {
    |copy| == k <= |model| &&
    forall i :: 1 <= i < k && copy[i].Weighted? && model[i].Weighted? ==>
                  (ParamsInBuffers(copy, i); ParamsInBuffers(model, i);
                   SameEntries(copy[i].weight, model[i].weight) &&
                   SameEntries(copy[i].bias, model[i].bias) &&
                   SameEntries(copy[i].weightdot, model[i].weightdot) &&
                   SameEntries(copy[i].biasdot, model[i].biasdot))
  }

  /** `copy` holds, layer by layer, the same buffer entries as `model`. */
  predicate Duplicates(copy: seq<Layer>, model: seq<Layer>)
    reads Buffers(copy), Buffers(model)
  {
    CopiedUpTo(copy, model, |model|)
  }

  // ---------------------------------------------------------------------
  // Metadata: what init_ffn, reinit_ffn and copy_ffn take from their input

  /** numpy refuses negative dimensions; when there is more than one layer,
      every width is used as a dimension of some buffer. */
  predicate Allocatable(bp: seq<LayerSpec>) {
    |bp| == 1 || forall i :: 0 <= i < |bp| ==> bp[i].n >= 0
  }

  /** Layer `l` is the weighted layer number `i` built from entry `e`. */
  predicate BuiltLayer(e: LayerSpec, i: int, l: Layer) {
    l.Weighted? && l.layer == i && l.n == e.n && l.activation == e.activation &&
    e.lreg == Some(l.lreg) && e.regval == Some(l.regval)
  }

  /** The metadata of `model` is what init_ffn gives for `bp`: one layer per
      entry, index taken from the position, input layer without
      regularisation, every other layer with the entry's regularisation. */
  predicate BuiltFrom(bp: seq<LayerSpec>, model: seq<Layer>) {
    |model| == |bp| >= 1 &&
    model[0] == Input(0, bp[0].n, bp[0].activation) &&
    forall i :: 1 <= i < |model| ==> BuiltLayer(bp[i], i, model[i])
  }

  // ---------------------------------------------------------------------
  // get_bodyplan

  /** The record get_bodyplan makes of one layer: `regval` and `lreg` only
      where the layer has them. */
  function Describe(l: Layer): LayerSpec {
    match l
    case Input(layer, n, activation) => LayerSpec(layer, n, activation, None, None)
    case Weighted(layer, n, activation, lreg, regval, _, _, _, _) =>
      LayerSpec(layer, n, activation, Some(regval), Some(lreg))
  }

  /** The body plan of a model, record by record. */
  function PlanOf(model: seq<Layer>): seq<LayerSpec> {
    seq(|model|, i requires 0 <= i < |model| => Describe(model[i]))
  }

  /** get_bodyplan: appends the description of every layer in turn. */
  method GetBodyplan(model: seq<Layer>) returns (bodyplan: seq<LayerSpec>)
    ensures bodyplan == PlanOf(model)
  {
    bodyplan := [];
    for i := 0 to |model|
      invariant bodyplan == PlanOf(model[..i])
    {
      assert model[..i + 1] == model[..i] + [model[i]];
      bodyplan := bodyplan + [Describe(model[i])];
    }
    assert model[..|model|] == model;
  }

  // ---------------------------------------------------------------------
  // Construction

  /** A weighted layer with fresh buffers: weights from `draw`, zeros elsewhere. */
  method NewLayer(i: nat, n: int, nprev: int, activation: string, lreg: int, regval: real, draw: Draw)
    returns (l: Layer)
    requires n >= 0 && nprev >= 0
    ensures l.Weighted? && l.layer == i && l.n == n && l.activation == activation
    ensures l.lreg == lreg && l.regval == regval
    ensures Connects(l, nprev) && Initialised(l, i, draw) && Separate(l)
    ensures fresh(Params(l))
  {
    var weight := new real[n, nprev]((r: nat, c: nat) => draw(i, r, c));
    var bias := new real[n, 1]((r: nat, c: nat) => 0.0);
    var weightdot := new real[n, nprev]((r: nat, c: nat) => 0.0);
    var biasdot := new real[n, 1]((r: nat, c: nat) => 0.0);
    l := Weighted(i, n, activation, lreg, regval, weight, bias, weightdot, biasdot);
  }

  /** init_ffn: the input layer, then one freshly initialised weighted layer
      per further body-plan entry. Nothing is validated beyond what the
      source itself would trip over. */
  method InitFfn(bp: seq<LayerSpec>, draw: Draw) returns (model: seq<Layer>)
    requires |bp| >= 1 && Allocatable(bp) && RegularisationGiven(bp)
    ensures BuiltFrom(bp, model)
    ensures WellShaped(model) && AllInitialised(model, draw)
    ensures Unaliased(model) && fresh(Buffers(model))
  {
    model := [Input(0, bp[0].n, bp[0].activation)];
    for layer := 1 to |bp|
      invariant BuiltFrom(bp[..layer], model)
      invariant WellShaped(model) && AllInitialised(model, draw)
      invariant Unaliased(model) && fresh(Buffers(model))
    {
      var ncurr := bp[layer].n;
      var nprev := bp[layer - 1].n;
      assert model[layer - 1].n == nprev by {
        assert bp[..layer][layer - 1] == bp[layer - 1];
      }
      model := AppendInitialised(bp, model, ncurr, nprev, bp[layer].activation,
                                 bp[layer].lreg.value, bp[layer].regval.value, draw);
    }
    assert bp[..|bp|] == bp;
  }

  /** Every layer after the input layer carries parameters: reinit_ffn and
      copy_ffn read `lreg`, `regval` (and copy_ffn the buffers) of each. */
  predicate Parameterised(model: seq<Layer>) {
    forall i :: 1 <= i < |model| ==> model[i].Weighted?
  }

  /** reinit_ffn: a new list built like init_ffn's, taking widths,
      activations and regularisation from the old model instead of a body
      plan. The old model is only read. */
  method ReinitFfn(model: seq<Layer>, draw: Draw) returns (newmodel: seq<Layer>)
    requires |model| >= 1 && Parameterised(model) && Allocatable(PlanOf(model))
    ensures BuiltFrom(PlanOf(model), newmodel)
    ensures WellShaped(newmodel) && AllInitialised(newmodel, draw)
    ensures Unaliased(newmodel) && fresh(Buffers(newmodel))
  {
    ghost var bp := PlanOf(model);
    assert |bp| == |model| && forall i :: 0 <= i < |model| ==> bp[i] == Describe(model[i]);
    newmodel := [Input(0, model[0].n, model[0].activation)];
    for layer := 1 to |model|
      invariant BuiltFrom(bp[..layer], newmodel)
      invariant WellShaped(newmodel) && AllInitialised(newmodel, draw)
      invariant Unaliased(newmodel) && fresh(Buffers(newmodel))
    {
      var ncurr := model[layer].n;
      var nprev := model[layer - 1].n;
      assert newmodel[layer - 1].n == nprev by {
        assert bp[..layer][layer - 1] == bp[layer - 1];
      }
      newmodel := AppendInitialised(bp, newmodel, ncurr, nprev, model[layer].activation,
                                    model[layer].lreg, model[layer].regval, draw);
    }
    assert bp[..|bp|] == bp;
  }

  /** np.copy: a fresh array with the same shape and entries. */
  method CopyMatrix(a: Matrix) returns (b: Matrix)
    ensures fresh(b) && SameEntries(b, a)
  {
    b := new real[a.Length0, a.Length1]((r: nat, c: nat) reads a =>
           if r < a.Length0 && c < a.Length1 then a[r, c] else 0.0);
  }

  /** The weighted layer copy_ffn builds at position `i` from `l`. */
  method CopyLayer(i: nat, l: Layer) returns (k: Layer)
    requires l.Weighted?
    ensures k.Weighted? && k.layer == i && k.n == l.n && k.activation == l.activation
    ensures k.lreg == l.lreg && k.regval == l.regval
    ensures SameEntries(k.weight, l.weight) && SameEntries(k.bias, l.bias)
    ensures SameEntries(k.weightdot, l.weightdot) && SameEntries(k.biasdot, l.biasdot)
    ensures Separate(k) && fresh(Params(k))
  {
    var weight := CopyMatrix(l.weight);
    var bias := CopyMatrix(l.bias);
    var weightdot := CopyMatrix(l.weightdot);
    var biasdot := CopyMatrix(l.biasdot);
    k := Weighted(i, l.n, l.activation, l.lreg, l.regval, weight, bias, weightdot, biasdot);
  }

  /** copy_ffn: a new list whose metadata is the old model's (indices taken
      from the position) and whose buffers are fresh, entry-for-entry copies
      of the old ones. */
  method CopyFfn(model: seq<Layer>) returns (newmodel: seq<Layer>)
    requires |model| >= 1 && Parameterised(model)
    ensures BuiltFrom(PlanOf(model), newmodel)
    ensures Duplicates(newmodel, model)
    ensures WellShaped(model) ==> WellShaped(newmodel)
    ensures Unaliased(newmodel) && fresh(Buffers(newmodel))
  {
    ghost var bp := PlanOf(model);
    assert |bp| == |model| && forall i :: 0 <= i < |model| ==> bp[i] == Describe(model[i]);
    newmodel := [Input(0, model[0].n, model[0].activation)];
    for layer := 1 to |model|
      invariant BuiltFrom(bp[..layer], newmodel)
      invariant CopiedUpTo(newmodel, model, layer)
      invariant Unaliased(newmodel) && fresh(Buffers(newmodel))
    {
      newmodel := AppendCopy(bp, newmodel, model, layer);
    }
    assert bp[..|bp|] == bp;
    if WellShaped(model) {
      CopyKeepsShape(model, newmodel);
    }
  }

  // ---------------------------------------------------------------------
  // Appending one layer keeps the construction invariants

  /** One step of init_ffn and reinit_ffn: appends the freshly initialised
      layer number |model|, built from entry |model| of `bp`. */
  method AppendInitialised(ghost bp: seq<LayerSpec>, model: seq<Layer>, n: int, nprev: int,
                           activation: string, lreg: int, regval: real, draw: Draw)
    returns (grown: seq<Layer>)
    requires 1 <= |model| < |bp| && BuiltFrom(bp[..|model|], model)
    requires bp[|model|].n == n && bp[|model|].activation == activation
    requires bp[|model|].lreg == Some(lreg) && bp[|model|].regval == Some(regval)
    requires nprev == model[|model| - 1].n && n >= 0 && nprev >= 0
    requires WellShaped(model) && AllInitialised(model, draw) && Unaliased(model)
    ensures BuiltFrom(bp[..|model| + 1], grown)
    ensures WellShaped(grown) && AllInitialised(grown, draw) && Unaliased(grown)
    ensures Buffers(model) <= Buffers(grown)
    ensures fresh(Buffers(grown) - Buffers(model))
  {
    var l := NewLayer(|model|, n, nprev, activation, lreg, regval, draw);
    assert Params(l) !! Buffers(model);
    Extend(bp, |model|, model, l, draw);
    grown := model + [l];
  }

  /** One step of copy_ffn: appends the copy of layer `layer` of `model`. */
  method AppendCopy(ghost bp: seq<LayerSpec>, copy: seq<Layer>, model: seq<Layer>, layer: nat)
    returns (grown: seq<Layer>)
    requires 1 <= layer < |model| && |bp| == |model| && model[layer].Weighted?
    requires bp[layer] == Describe(model[layer])
    requires BuiltFrom(bp[..layer], copy) && CopiedUpTo(copy, model, layer) && Unaliased(copy)
    ensures BuiltFrom(bp[..layer + 1], grown) && CopiedUpTo(grown, model, layer + 1)
    ensures Unaliased(grown)
    ensures Buffers(copy) <= Buffers(grown)
    ensures fresh(Buffers(grown) - Buffers(copy))
  {
    var l := CopyLayer(layer, model[layer]);
    assert Params(l) !! Buffers(copy);
    ExtendBuilt(bp, layer, copy, l);
    ExtendCopy(model, layer, copy, l);
    grown := copy + [l];
  }

  lemma ExtendBuilt(bp: seq<LayerSpec>, layer: nat, model: seq<Layer>, l: Layer)
    requires 1 <= layer < |bp| && |model| == layer
    requires BuiltFrom(bp[..layer], model) && BuiltLayer(bp[layer], layer, l)
    requires Unaliased(model) && Separate(l) && Params(l) !! Buffers(model)
    ensures BuiltFrom(bp[..layer + 1], model + [l])
    ensures Unaliased(model + [l])
    ensures Buffers(model + [l]) == Buffers(model) + Params(l)
  {
    var m := model + [l];
    assert forall i :: 0 <= i < layer ==> m[i] == model[i];
    assert m[layer] == l;
    assert BuiltFrom(bp[..layer + 1], m) by {
      assert forall i :: 0 <= i < layer ==> bp[..layer + 1][i] == bp[..layer][i];
    }
    ExtendUnaliased(model, l);
  }

  lemma ExtendUnaliased(model: seq<Layer>, l: Layer)
    requires Unaliased(model) && Separate(l) && Params(l) !! Buffers(model)
    ensures Unaliased(model + [l])
    ensures Buffers(model + [l]) == Buffers(model) + Params(l)
  {
    var m := model + [l];
    BuffersAppend(model, l);
    forall i | 0 <= i < |m|
      ensures Separate(m[i])
    {
      if i < |model| { assert m[i] == model[i]; }
    }
    forall i, j | 0 <= i < j < |m|
      ensures Params(m[i]) !! Params(m[j])
    {
      assert m[i] == model[i];
      if j < |model| {
        assert m[j] == model[j];
      } else {
        ParamsInBuffers(model, i);
      }
    }
  }

  /** Appending a freshly built layer keeps every construction invariant. */
  lemma Extend(bp: seq<LayerSpec>, layer: nat, model: seq<Layer>, l: Layer, draw: Draw)
    requires 1 <= layer < |bp| && |model| == layer
    requires BuiltFrom(bp[..layer], model) && BuiltLayer(bp[layer], layer, l)
    requires WellShaped(model) && Connects(l, model[layer - 1].n)
    requires AllInitialised(model, draw) && Initialised(l, layer, draw)
    requires Unaliased(model) && Separate(l) && Params(l) !! Buffers(model)
    ensures BuiltFrom(bp[..layer + 1], model + [l])
    ensures WellShaped(model + [l]) && AllInitialised(model + [l], draw)
    ensures Unaliased(model + [l])
    ensures Buffers(model + [l]) == Buffers(model) + Params(l)
  {
    ExtendBuilt(bp, layer, model, l);
    var m := model + [l];
    assert forall i :: 0 <= i < layer ==> m[i] == model[i];
    assert m[layer] == l;
  }

  /** Appending the copy of layer `layer` keeps the copy invariant. */
  lemma ExtendCopy(model: seq<Layer>, layer: nat, copy: seq<Layer>, l: Layer)
    requires 1 <= layer < |model| && model[layer].Weighted?
    requires CopiedUpTo(copy, model, layer)
    requires l.Weighted?
    requires SameEntries(l.weight, model[layer].weight) && SameEntries(l.bias, model[layer].bias)
    requires SameEntries(l.weightdot, model[layer].weightdot) && SameEntries(l.biasdot, model[layer].biasdot)
    ensures CopiedUpTo(copy + [l], model, layer + 1)
  {
    var m := copy + [l];
    BuffersAppend(copy, l);
    assert forall i :: 0 <= i < layer ==> m[i] == copy[i];
    assert m[layer] == l;
  }

  /** A copy of a well-shaped model is well shaped. */
  lemma CopyKeepsShape(model: seq<Layer>, copy: seq<Layer>)
    requires BuiltFrom(PlanOf(model), copy) && Duplicates(copy, model)
    requires WellShaped(model)
    ensures WellShaped(copy)
  {
    forall i | 1 <= i < |copy|
      ensures copy[i].Weighted? && Connects(copy[i], copy[i - 1].n)
    {
      assert copy[i - 1].n == model[i - 1].n by {
        if i - 1 > 0 { assert BuiltLayer(PlanOf(model)[i - 1], i - 1, copy[i - 1]); }
      }
      assert BuiltLayer(PlanOf(model)[i], i, copy[i]);
    }
  }

  // ---------------------------------------------------------------------
  // Round trips between body plans and models

  /** get_bodyplan after init_ffn gives back every width and activation,
      the regularisation of every layer after the first, and indices
      0, 1, ...; the input layer's regularisation is dropped. */
  lemma InitRoundTrip(bp: seq<LayerSpec>, model: seq<Layer>)
    requires BuiltFrom(bp, model)
    ensures |PlanOf(model)| == |bp|
    ensures forall i :: 0 <= i < |bp| ==>
              PlanOf(model)[i].layer == i && PlanOf(model)[i].n == bp[i].n &&
              PlanOf(model)[i].activation == bp[i].activation
    ensures forall i :: 1 <= i < |bp| ==>
              PlanOf(model)[i].regval == bp[i].regval && PlanOf(model)[i].lreg == bp[i].lreg
    ensures PlanOf(model)[0].regval == None && PlanOf(model)[0].lreg == None
  {
    forall i | 1 <= i < |bp|
      ensures PlanOf(model)[i] == LayerSpec(i, bp[i].n, bp[i].activation, bp[i].regval, bp[i].lreg)
    {
      assert BuiltLayer(bp[i], i, model[i]);
    }
  }

  /** The round trip reproduces the indices exactly when they are
      0, 1, ..., and the whole body plan exactly when, besides, the input
      entry names no regularisation. */
  lemma InitRoundTripExact(bp: seq<LayerSpec>, model: seq<Layer>)
    requires BuiltFrom(bp, model)
    ensures (forall i :: 0 <= i < |bp| ==> PlanOf(model)[i].layer == bp[i].layer) <==> Indexed(bp)
    ensures PlanOf(model) == bp <==> Indexed(bp) && bp[0].regval == None && bp[0].lreg == None
  {
    InitRoundTrip(bp, model);
    if Indexed(bp) && bp[0].regval == None && bp[0].lreg == None {
      forall i | 0 <= i < |bp| ensures PlanOf(model)[i] == bp[i] { }
    }
  }

  /** A body plan read from a table names the input layer's
      regularisation, so init_ffn followed by get_bodyplan never gives it
      back unchanged. */
  lemma ReadPlanLosesInputRegularisation(keys: seq<string>, rows: seq<seq<Cell>>, bp: seq<LayerSpec>, model: seq<Layer>)
    requires |bp| == |rows| && forall i :: 0 <= i < |rows| ==> MakeRecord(keys, rows[i]) == Ok(bp[i])
    requires BuiltFrom(bp, model)
    ensures PlanOf(model) != bp
  {
    assert MakeRecord(keys, rows[0]).Ok?;
    InitRoundTripExact(bp, model);
  }

  /** A plan read from a table of at least one row with non-negative widths
      meets every demand init_ffn makes of its input: it is not empty (no
      IndexError), names `lreg` and `regval` on every later entry (no
      KeyError) and gives numpy no negative dimension. */
  lemma ReadPlanFeedsInit(keys: seq<string>, rows: seq<seq<Cell>>, bp: seq<LayerSpec>)
    requires |bp| == |rows| >= 1 && forall i :: 0 <= i < |rows| ==> MakeRecord(keys, rows[i]) == Ok(bp[i])
    requires forall i :: 0 <= i < |bp| ==> bp[i].n >= 0
    ensures |bp| >= 1 && Allocatable(bp) && RegularisationGiven(bp)
  {
    ReadPlanIsComplete(keys, rows, bp);
  }

  /** The body plan of a parameterised model names `lreg` and `regval` on
      every entry after the first, so init_ffn raises no KeyError on it;
      when the model is not empty and its widths are not negative, the
      plan meets every demand init_ffn makes of its input. */
  lemma PlanOfParameterised(model: seq<Layer>)
    requires Parameterised(model)
    ensures RegularisationGiven(PlanOf(model))
    ensures |model| >= 1 && (forall i :: 0 <= i < |model| ==> model[i].n >= 0) ==>
              |PlanOf(model)| >= 1 && Allocatable(PlanOf(model))
  {
    forall i | 1 <= i < |model| ensures PlanOf(model)[i].regval.Some? && PlanOf(model)[i].lreg.Some? {
      assert model[i].Weighted?;
    }
  }

  /** Rebuilding a model from its own body plan -- what reinit_ffn and
      copy_ffn do to the metadata -- changes nothing in the body plan of a
      model init_ffn built. */
  lemma RebuildKeepsPlan(bp: seq<LayerSpec>, model: seq<Layer>, rebuilt: seq<Layer>)
    requires BuiltFrom(bp, model)
    requires BuiltFrom(PlanOf(model), rebuilt)
    ensures PlanOf(rebuilt) == PlanOf(model)
  {
    InitRoundTrip(bp, model);
    InitRoundTrip(PlanOf(model), rebuilt);
    forall i | 0 <= i < |model| ensures PlanOf(rebuilt)[i] == PlanOf(model)[i] { }
  }

  // ---------------------------------------------------------------------
  // Independence of a copy

  /** What copy_ffn's result says about one weighted layer. */
  lemma CopiedLayer(model: seq<Layer>, copy: seq<Layer>, i: int)
    requires Parameterised(model) && BuiltFrom(PlanOf(model), copy) && Duplicates(copy, model)
    requires 1 <= i < |model|
    ensures copy[i].Weighted? && model[i].Weighted?
    ensures SameEntries(copy[i].weight, model[i].weight) && SameEntries(copy[i].bias, model[i].bias)
    ensures SameEntries(copy[i].weightdot, model[i].weightdot) && SameEntries(copy[i].biasdot, model[i].biasdot)
    ensures Params(copy[i]) <= Buffers(copy)
  {
    assert BuiltLayer(PlanOf(model)[i], i, copy[i]);
    ParamsInBuffers(copy, i);
  }

  /** Writing into a copy leaves the original untouched: the method may not
      modify the original's buffers, and it need not declare the copy's. */
  method WriteIntoCopy(model: seq<Layer>, i: nat, r: nat, c: nat, v: real) returns (copy: seq<Layer>)
    requires |model| >= 1 && Parameterised(model)
    requires 1 <= i < |model| && r < model[i].weight.Length0 && c < model[i].weight.Length1
    ensures |copy| == |model| && copy[i].Weighted?
    ensures r < copy[i].weight.Length0 && c < copy[i].weight.Length1 && copy[i].weight[r, c] == v
    ensures unchanged(Buffers(model))
  {
    copy := CopyFfn(model);
    assert unchanged(Buffers(model));
    CopiedLayer(model, copy, i);
    var w := copy[i].weight;
    assert w !in Buffers(model);
    w[r, c] := v;
  }

  /** The layers of a copy hold the original's values, and an array outside
      the copy's buffers is none of them. */
  lemma SnapshotHolds(model: seq<Layer>, copy: seq<Layer>, w: Matrix)
    requires Parameterised(model) && BuiltFrom(PlanOf(model), copy) && Duplicates(copy, model)
    requires w !in Buffers(copy)
    ensures forall j :: 1 <= j < |model| ==> copy[j].Weighted? && model[j].Weighted?
    ensures forall j :: 1 <= j < |model| ==>
                          Values(copy[j].weight) == Values(model[j].weight) &&
                          Values(copy[j].bias) == Values(model[j].bias) &&
                          Values(copy[j].weightdot) == Values(model[j].weightdot) &&
                          Values(copy[j].biasdot) == Values(model[j].biasdot)
    ensures forall j :: 1 <= j < |model| ==>
                          w != copy[j].weight && w != copy[j].bias && w != copy[j].weightdot && w != copy[j].biasdot
  {
    forall j | 1 <= j < |model|
      ensures copy[j].Weighted? && model[j].Weighted?
      ensures Values(copy[j].weight) == Values(model[j].weight)
      ensures Values(copy[j].bias) == Values(model[j].bias)
      ensures Values(copy[j].weightdot) == Values(model[j].weightdot)
      ensures Values(copy[j].biasdot) == Values(model[j].biasdot)
      ensures w != copy[j].weight && w != copy[j].bias && w != copy[j].weightdot && w != copy[j].biasdot
    {
      CopiedLayer(model, copy, j);
      SameValues(copy[j].weight, model[j].weight);
      SameValues(copy[j].bias, model[j].bias);
      SameValues(copy[j].weightdot, model[j].weightdot);
      SameValues(copy[j].biasdot, model[j].biasdot);
    }
  }

  /** A snapshot taken with copy_ffn keeps the values the model had when
      the model is later updated in place: after one entry of a weight of
      the model is overwritten, every buffer of the snapshot still holds,
      entry for entry, what the model held before the write, and the rest
      of the model's weight is untouched. */
  method UpdateAfterSnapshot(model: seq<Layer>, i: nat, r: nat, c: nat, v: real) returns (snapshot: seq<Layer>)
    requires |model| >= 1 && Parameterised(model)
    requires 1 <= i < |model| && r < model[i].weight.Length0 && c < model[i].weight.Length1
    modifies model[i].weight
    ensures model[i].weight[r, c] == v
    ensures forall rr, cc :: (0 <= rr < model[i].weight.Length0 && 0 <= cc < model[i].weight.Length1 &&
                              (rr != r || cc != c)) ==> model[i].weight[rr, cc] == old(model[i].weight[rr, cc])
    ensures |snapshot| == |model| && fresh(Buffers(snapshot))
    ensures forall j :: 1 <= j < |model| ==> snapshot[j].Weighted? && model[j].Weighted?
    ensures forall j :: 1 <= j < |model| ==>
                          Values(snapshot[j].weight) == old(Values(model[j].weight)) &&
                          Values(snapshot[j].bias) == old(Values(model[j].bias)) &&
                          Values(snapshot[j].weightdot) == old(Values(model[j].weightdot)) &&
                          Values(snapshot[j].biasdot) == old(Values(model[j].biasdot))
  {
    snapshot := CopyFfn(model);
    var w := model[i].weight;
    assert w !in Buffers(snapshot);
    SnapshotHolds(model, snapshot, w);
    forall j | 1 <= j < |model|
      ensures Values(snapshot[j].weight) == old(Values(model[j].weight))
      ensures Values(snapshot[j].bias) == old(Values(model[j].bias))
      ensures Values(snapshot[j].weightdot) == old(Values(model[j].weightdot))
      ensures Values(snapshot[j].biasdot) == old(Values(model[j].biasdot))
    {
    }
    label before:
    w[r, c] := v;
    forall j | 1 <= j < |model|
      ensures Values(snapshot[j].weight) == old@before(Values(snapshot[j].weight))
      ensures Values(snapshot[j].bias) == old@before(Values(snapshot[j].bias))
      ensures Values(snapshot[j].weightdot) == old@before(Values(snapshot[j].weightdot))
      ensures Values(snapshot[j].biasdot) == old@before(Values(snapshot[j].biasdot))
    {
    }
  }
}
