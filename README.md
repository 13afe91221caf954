# CRPM feed-forward network body plans, in Dafny

This project models the model-construction module of CRPM, a small
feed-forward neural-network trainer: `crpm/ffn_bodyplan.py`.

A **body plan** is an ordered list of records, one per layer. Each record
holds `layer`, `n` (the number of units), `activation`, `regval` (the
regularisation strength) and `lreg` (the regularisation kind; this module
fixes only its default, 1 for L1). A **model** is a list of layers
index-aligned with the body plan.
Layer 0 is the input layer and holds only `layer`, `n` and `activation`.
Every later layer also owns four numpy buffers:

- `weight`, of shape (n_i, n_{i-1});
- `bias`, of shape (n_i, 1);
- `weightdot` and `biasdot`, momentum buffers with those same shapes.

The module turns a body plan into a model (`init_ffn`), a model back into a
body plan (`get_bodyplan`), re-initialises a model (`reinit_ffn`) and
deep-copies one (`copy_ffn`). It also builds body-plan records from a CSV
header and row (`read_bodyplan`).

Files:

- `outcome.dfy` — module `Outcome`: `Option` (a dictionary key that may be
  missing) and `Result` (an operation that may raise).
- `bodyplan.dfy` — module `Bodyplan`: the record type `LayerSpec` and the
  record construction of `read_bodyplan`, with its defaults and its
  exceptions.
- `ffn.dfy` — module `Ffn`: layers as a datatype whose buffers are
  `array2<real>`, and the four model operations as methods with loops.
  Their contracts state the shapes, the initial contents, the carried
  metadata, the freshness of every buffer and the absence of aliasing.
  Lemmas state the round trips between body plans and models.

The code validates nothing: `init_ffn` takes the index of each layer from
its position and copies the widths as given (crpm/ffn_bodyplan.py:60,69-70).
So `InitFfn` has no error result, and `InitRoundTripExact` states exactly
when the original indices survive the round trip.

The weight initialiser `np.random.randn` is a parameter,
`draw: (layer, row, column) -> real`. The contracts say that every weight
entry is the value drawn for its position. Nothing is said about the
distribution.

## Model

| member | source | states |
|---|---|---|
| `Bodyplan.IndexOf` | crpm/ffn_bodyplan.py:25-33 | `keys.index(name)`: the position of the first header equal to the name, and no position exactly when the name is not in the header |
| `Bodyplan.Column` | crpm/ffn_bodyplan.py:25-27 | the cell under the first column with that name; a missing-column error when the header lacks the name; a missing-cell error when the row is too short |
| `Bodyplan.MakeRecord` | crpm/ffn_bodyplan.py:24-35 | a record is built exactly when `layer`, `n` and `activation` are present and convert, and `regval`/`lreg` convert where their columns exist; each field comes from its named column; a missing `regval` column gives 0.0 and a missing `lreg` column gives 1; a missing `layer` column is the error reported first |
| `Bodyplan.ReadBodyplan` | crpm/ffn_bodyplan.py:23-37 | one record per row, in row order, when every row builds; otherwise the error of the first row that fails |
| `Bodyplan.ReadPlanIsComplete` | crpm/ffn_bodyplan.py:28-35 | every record read from a table carries both `regval` and `lreg`, so `init_ffn` finds them on every entry after the first and raises no KeyError (crpm/ffn_bodyplan.py:72-73) |
| `Ffn.GetBodyplan` | crpm/ffn_bodyplan.py:97-110 | the result has one record per layer, carrying that layer's `layer`, `n` and `activation`, and `regval`/`lreg` exactly when the layer has them |
| `Ffn.NewLayer` | crpm/ffn_bodyplan.py:66-77 | a weighted layer whose weight and weight momentum are (n, nprev) and whose bias and bias momentum are (n, 1); weights are the drawn values and the other three buffers are zero; its four buffers are fresh and distinct |
| `Ffn.AppendInitialised` | crpm/ffn_bodyplan.py:65-78 | one loop step of `init_ffn` and `reinit_ffn`: the appended layer takes its index from the position and its metadata from the entry; the shape, contents and ownership invariants hold for the longer model; the new buffers are fresh |
| `Ffn.InitFfn` | crpm/ffn_bodyplan.py:57-80 | one layer per body-plan entry; layer 0 is an input layer holding only index 0, `n` and `activation`; layer i ≥ 1 has index i, the entry's `n`, `activation`, `lreg` and `regval`, buffers of shape (n_i, n_{i-1}) and (n_i, 1), drawn weights and zero bias and momenta; every buffer is fresh and no two layers share one |
| `Ffn.ReinitFfn` | crpm/ffn_bodyplan.py:123-146 | the metadata of the new model is what `init_ffn` gives for the old model's body plan: same `n`, `activation`, `lreg`, `regval`, indices from the position; the shapes, contents, freshness and ownership are as for `InitFfn`; the old model is not modified (the method has no modifies clause) |
| `Ffn.CopyMatrix` | crpm/ffn_bodyplan.py:175-178 | `np.copy`: a fresh array with the same shape and the same entries |
| `Ffn.CopyLayer` | crpm/ffn_bodyplan.py:169-179 | the copied layer has index i, the original's `n`, `activation`, `lreg` and `regval`, and four fresh, distinct buffers equal entry for entry to the original's |
| `Ffn.AppendCopy` | crpm/ffn_bodyplan.py:168-179 | one loop step of `copy_ffn`: the appended layer takes its index from the position and its metadata from the original layer; the copy keeps matching the original entry for entry; the new buffers are fresh and unshared |
| `Ffn.CopyFfn` | crpm/ffn_bodyplan.py:160-180 | same length and metadata as the input, indices from the position; every buffer equal entry for entry to the original's, freshly allocated and not shared with any other buffer of the copy; a well-shaped model gives a well-shaped copy |
| `Ffn.InitRoundTrip` | crpm/ffn_bodyplan.py:58-108 | `get_bodyplan(init_ffn(bp))` has one record per entry, with `n` and `activation` of every entry, `regval`/`lreg` of every entry after the first, index i at position i, and no `regval`/`lreg` for the input layer |
| `Ffn.InitRoundTripExact` | crpm/ffn_bodyplan.py:58-108 | the round trip gives back the indices if and only if they are 0, 1, …; it gives back the whole body plan if and only if, in addition, the input entry has no `regval` and no `lreg` |
| `Ffn.ReadPlanLosesInputRegularisation` | crpm/ffn_bodyplan.py:58-62 | for a body plan read from a table, `get_bodyplan(init_ffn(bp))` is never `bp`, because the input layer's regularisation is dropped |
| `Ffn.PlanOfParameterised` | crpm/ffn_bodyplan.py:104-107 | the body plan of a model whose later layers are all weighted names `regval` and `lreg` for every entry after the first, so `init_ffn` raises no KeyError on it; when the model is not empty and no width is negative, the plan also passes the checks behind the IndexError and numpy's ValueError |
| `Ffn.ReadPlanFeedsInit` | crpm/ffn_bodyplan.py:57-80 | a plan read from a table with at least one row and no negative width meets every `InitFfn` precondition: not empty (no IndexError at :60), `lreg`/`regval` after the first entry (no KeyError at :72-73), and no negative dimension for numpy (:74) |
| `Ffn.RebuildKeepsPlan` | crpm/ffn_bodyplan.py:123-139 | rebuilding a model from its own body plan, as `reinit_ffn` and `copy_ffn` do, leaves the body plan of an `init_ffn` model unchanged |
| `Ffn.CopyKeepsShape` | crpm/ffn_bodyplan.py:175-178 | a layer-by-layer duplicate of a well-shaped model, with the same widths, is well shaped |
| `Ffn.CopiedLayer` | crpm/ffn_bodyplan.py:169-178 | each weighted layer of a copy holds the same weight, bias and momentum entries as the original's layer |
| `Ffn.WriteIntoCopy` | crpm/ffn_bodyplan.py:175-178 | after copying a model and writing into a weight of the copy, every buffer of the original is unchanged |
| `Ffn.UpdateAfterSnapshot` | crpm/ffn_bodyplan.py:175-178 | after copying a model and then writing one entry of a weight of the original, every buffer of every layer of the copy still holds, entry for entry, the values the original held before the write; the rest of the written weight is unchanged; the copy's buffers are fresh |
| `Ffn.SnapshotHolds` | crpm/ffn_bodyplan.py:169-178 | every weighted layer of a copy holds the original layer's values in all four buffers, and an array outside the copy is none of the copy's buffers |

## Left out

- File handling in `read_bodyplan` (opening the file, the CSV reader, reading the header) is I/O. The header arrives as a sequence of names and each row as a sequence of cells.
- `Bodyplan.MakeRecord`: `int(...)` and `float(...)` on the cell text are not modelled; each cell carries their outcome, or None where Python would raise `ValueError`.
- The distribution of `np.random.randn` is not modelled. The initialiser is a function of (layer, row, column), so the model does not capture that two calls to the global generator give different values.
- `Ffn.InitFfn`: the IndexError on an empty body plan, the KeyError on a missing `lreg`/`regval` after the input layer, and numpy's ValueError on a negative width are preconditions, not modelled error paths. A width of 0 is allowed and gives empty buffers.
- `Ffn.ReinitFfn` and `Ffn.CopyFfn`: the same three failures (empty model, a later layer without parameters, a negative width for reinit) are preconditions.
- Floating-point arithmetic: buffer entries are `real`. Nothing in this module computes with them.
- Dictionary keys other than the five body-plan fields and the four buffers are not modelled.
- `copy.copy` of the integer, float and string fields is not modelled separately: those values are immutable, so only equality matters.
- The optimizer, propagation and loss code, and the tests in `crpm/test_earlystopping.py` and `crpm/test_gradientdecent.py`, are not part of this model.
