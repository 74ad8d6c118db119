# Paired pipeline and vertical flip

This project models the core of DJL's paired data-augmentation pipeline. The pipeline
(`PairedPipeline`) keeps an ordered registry of (key, paired transform) entries. A key picks
one tensor of a list, either by name or by position. For each call it resolves every key
against an input list and a target list and runs the transforms in registry order. Each
transform runs on the current (input, target) tensors of the resolved slots. The model also
covers one transform, the random vertical flip (`PairedRandomFlipTopBottom`). It reverses the
image along axis 0 and rewrites the coordinate columns of the box matrix in place.

Files:
- `wrappers.dfy`: `Option` (a nullable reference) and `Result` (success or error).
- `tensors.dfy`: a tensor is an optional name plus its rows. Axis 0 is the outer sequence.
- `index_key.dfy`: the private `IndexKey` class as the datatype `Key`, and its
  (asymmetric) `equals`.
- `paired_pipeline.dfy`: the registry as the class `PairedPipeline` with a `seq` field.
  It also holds the specification of `transform` as functions (`IndexMap`, `Step`, `Run`,
  `Apply`), the imperative `Transform` method proved equal to `Apply`, and the lemmas.
- `flip_top_bottom.dfy`: the flip on an `array2<real>` updated in place, its specification
  on rows of reals, and the corrected flip described under Findings.

Modelling choices:
- The resolution maps are plain Dafny maps keyed by structural equality on `Key`. In the
  source they are per-call local maps.
- A failed lookup is `Err(KeyNotFound(key, side))`. The input side is looked up first. In
  the source the missing value is a null unboxed to `int`, which aborts the call.
- `insert` requires `0 <= position <= |registry|`. The source's list throws outside that range.
- The random decision of the flip is the parameter `flip`.

The model follows the code, also where it differs from what the Javadoc or an ordinary
key type would lead one to expect:
- Named and index keys can compare equal. `IndexKey.equals` makes index key 0 equal to every
  name key, but not the other way round (`EqualsNotSymmetric`).
- Duplicate names resolve to the last position with that name (`IndexMapNamed`).
- The flip's two slice updates together complement the even columns from 2 on and leave
  column 0 and the odd columns as they were. Whether that is "only flip y values", as the
  comment at PairedRandomFlipTopBottom.java:32 says, depends on the row layout, which the
  source does not document. The only caller builds a 1 × 5 target
  (`examples/src/main/java/ai/djl/examples/training/TestTransforms.java:38`). That fits a
  `[label, x1, y1, x2, y2]` row. For that layout the two updates make exactly the y values
  1 − y, which is what the comment says (`FlippedTargetLabelRow`). This does not make the
  update a correct box flip for every label-first format. If the columns are the corners
  ymin and ymax, the flipped ymin ends up above the flipped ymax. For
  `[class, cx, cy, w, h]`, column 4 (the height h) also becomes 1 − h. For a row laid out
  `[x, y, x, y, …]` from column 0, the updates do not flip the y values (see Findings).

## Model

| member | source | states |
|---|---|---|
| IndexKeys.KeyOfName | api/src/main/java/ai/djl/translate/PairedPipeline.java:199-205 | the key stands for an object whose fields are exactly those `new IndexKey(name)` sets (key = name, index = 0); it has the fields of `new IndexKey(0)` exactly when the name is null |
| IndexKeys.FieldsInjective | api/src/main/java/ai/djl/translate/PairedPipeline.java:195-205 | two keys are equal exactly when the Java objects they stand for have equal `key` and `index` fields |
| IndexKeys.EqualsIsJavaEquals | api/src/main/java/ai/djl/translate/PairedPipeline.java:218-230 | `Equals` on keys gives the same answer as `IndexKey.equals` on the fields of the objects they stand for |
| IndexKeys.Equals | api/src/main/java/ai/djl/translate/PairedPipeline.java:218-230 | `equals` holds exactly for identical keys, or when the receiver is index key 0 and the argument is any name key |
| IndexKeys.EqualsWithinKind | api/src/main/java/ai/djl/translate/PairedPipeline.java:226-229 | two name keys (or two index keys) are equal iff their names (indices) are equal, and then `equals` is symmetric |
| IndexKeys.EqualsNotSymmetric | api/src/main/java/ai/djl/translate/PairedPipeline.java:226-229 | index key 0 equals every name key, but no name key equals index key 0 |
| IndexKeys.EqualsBothWays | api/src/main/java/ai/djl/translate/PairedPipeline.java:218-230 | `equals` in both directions coincides with structural key equality |
| Pipelines.IndexMap | api/src/main/java/ai/djl/translate/PairedPipeline.java:160-173 | every position a resolution map hands out lies inside its list |
| Pipelines.IndexMapIndexed | api/src/main/java/ai/djl/translate/PairedPipeline.java:160-173 | index key i is in the map iff 0 <= i < size, and it maps to i |
| Pipelines.IndexMapNamed | api/src/main/java/ai/djl/translate/PairedPipeline.java:160-173 | a name key is in the map iff some element carries that name, and it maps to the last such position |
| Pipelines.IndexMapResolves | api/src/main/java/ai/djl/translate/PairedPipeline.java:160-173 | the keys of a resolution map are exactly the keys that resolve against the list |
| Pipelines.ResolutionMap | api/src/main/java/ai/djl/translate/PairedPipeline.java:160-173 | the mapping loop builds the resolution map `IndexMap` of its list |
| Pipelines.Step | api/src/main/java/ai/djl/translate/PairedPipeline.java:176-189 | one entry fails iff its key is missing from a map (input side first); otherwise only the two resolved slots change, they hold the transform's output on the current tensors, and every name and both lengths are kept |
| Pipelines.Run | api/src/main/java/ai/djl/translate/PairedPipeline.java:175-190 | a successful walk over the registry keeps both lengths and every position's name |
| Pipelines.FirstUnresolved | api/src/main/java/ai/djl/translate/PairedPipeline.java:175-180 | the position of the first entry whose key is missing from a map: all earlier keys resolve |
| Pipelines.Apply | api/src/main/java/ai/djl/translate/PairedPipeline.java:149-193 | identity when the registry or either list is empty; on success the outputs have the inputs' lengths and names, position by position |
| Pipelines.RunAppend | api/src/main/java/ai/djl/translate/PairedPipeline.java:175-190 | entries run in registry order, each on the previous entries' output: running a + b is running a and then b on its result |
| Pipelines.RunOkIff | api/src/main/java/ai/djl/translate/PairedPipeline.java:175-190 | the walk succeeds iff every registered key is in both maps |
| Pipelines.RunErrIsFirstUnresolved | api/src/main/java/ai/djl/translate/PairedPipeline.java:176-180 | the walk fails iff some key is unresolved, and the error names the first such entry's key and the side that failed |
| Pipelines.ApplyOkIff | api/src/main/java/ai/djl/translate/PairedPipeline.java:149-193 | `transform` succeeds iff the fast path applies or every registered key resolves on both sides; an unresolved key is never skipped |
| Pipelines.NameOrIndexSameResult | api/src/main/java/ai/djl/translate/PairedPipeline.java:160-189 | registering by a name, or by the index where it last occurs on both sides, gives the same result anywhere in the registry |
| Pipelines.SingleEntry | api/src/main/java/ai/djl/translate/PairedPipeline.java:149-193 | one entry under the default key on one-element lists yields the transform's output, carrying the original names |
| Pipelines.OrderMatters | api/src/main/java/ai/djl/translate/PairedPipeline.java:175-190 | two non-commuting transforms on the same slot give different results in the two registration orders |
| Pipelines.Inserted | api/src/main/java/ai/djl/translate/PairedPipeline.java:104-137 | inserting puts the entry at the position, and removing it gives back the registry as it was |
| Pipelines.PairedPipeline.constructor | api/src/main/java/ai/djl/translate/PairedPipeline.java:28-30 | a new pipeline has an empty registry |
| Pipelines.PairedPipeline.Of | api/src/main/java/ai/djl/translate/PairedPipeline.java:42-47 | the varargs constructor registers each transform under index key 0, in argument order |
| Pipelines.PairedPipeline.Add | api/src/main/java/ai/djl/translate/PairedPipeline.java:59-62 | appends (index 0, t) and returns this pipeline |
| Pipelines.PairedPipeline.AddAt | api/src/main/java/ai/djl/translate/PairedPipeline.java:73-76 | appends (index i, t) and returns this pipeline |
| Pipelines.PairedPipeline.AddNamed | api/src/main/java/ai/djl/translate/PairedPipeline.java:88-91 | appends (name key, t) and returns this pipeline |
| Pipelines.PairedPipeline.Insert | api/src/main/java/ai/djl/translate/PairedPipeline.java:104-107 | inserts (index 0, t) at the position; other entries keep their order |
| Pipelines.PairedPipeline.InsertAt | api/src/main/java/ai/djl/translate/PairedPipeline.java:119-122 | inserts (index i, t) at the position; other entries keep their order |
| Pipelines.PairedPipeline.InsertNamed | api/src/main/java/ai/djl/translate/PairedPipeline.java:134-137 | inserts (name key, t) at the position; other entries keep their order |
| Pipelines.PairedPipeline.Transform | api/src/main/java/ai/djl/translate/PairedPipeline.java:149-193 | the array-based loop returns exactly `Apply` of the registry on the two lists |
| FlipTopBottom.Transform | api/src/main/java/ai/djl/modality/cv/pairedtransform/PairedRandomFlipTopBottom.java:30-39 | no flip: both arguments unchanged; flip: input reversed along axis 0, box matrix rewritten in place by the two slice updates, same array returned |
| FlipTopBottom.FlippedTargetEffect | api/src/main/java/ai/djl/modality/cv/pairedtransform/PairedRandomFlipTopBottom.java:32-33 | the two slice updates keep the shape; column 0 and the odd columns end where they started; the even columns from 2 on become 1 − v |
| FlipTopBottom.ReverseAt | api/src/main/java/ai/djl/modality/cv/pairedtransform/PairedRandomFlipTopBottom.java:35 | `flip(0)` keeps the length and puts row k at position n − 1 − k |
| FlipTopBottom.ReverseTwice | api/src/main/java/ai/djl/modality/cv/pairedtransform/PairedRandomFlipTopBottom.java:35 | reversing twice restores the input |
| FlipTopBottom.FlipBranchTwice | api/src/main/java/ai/djl/modality/cv/pairedtransform/PairedRandomFlipTopBottom.java:32-35 | over exact reals, the flip branch applied twice restores both the input and the target |
| FlipTopBottom.FlippedTargetLabelRow | api/src/main/java/ai/djl/modality/cv/pairedtransform/PairedRandomFlipTopBottom.java:32-33 | for a five-column row [label, x1, y1, x2, y2] the two updates as written make exactly y1 and y2 into 1 − y and keep the label and x values |
| FlipTopBottom.FlippedTargetExample | api/src/main/java/ai/djl/modality/cv/pairedtransform/PairedRandomFlipTopBottom.java:32-33 | for a row laid out x, y, x, y, the box row [0.2, 0.3, 0.8, 0.9] becomes [0.2, 0.3, 0.2, 0.9] as written, not [0.2, 0.7, 0.8, 0.1] with the y values flipped |
| FlipTopBottom.IntendedTargetEffect | api/src/main/java/ai/djl/modality/cv/pairedtransform/PairedRandomFlipTopBottom.java:32-33 | the update for rows laid out x, y, x, y keeps the shape, makes each odd (y) column 1 − v and leaves every other column alone |
| FlipTopBottom.IntendedTargetTwice | api/src/main/java/ai/djl/modality/cv/pairedtransform/PairedRandomFlipTopBottom.java:32-33 | the corrected update undoes itself |
| FlipTopBottom.FlipAsWrittenInPipeline | api/src/main/java/ai/djl/modality/cv/pairedtransform/PairedRandomFlipTopBottom.java:30-39 | the flip as written, under the default key on a one-image, one-box sample: on a flip the image is reversed and the box goes through the two slice updates; with no flip both come back unchanged; both keep their names |
| FlipTopBottom.FlipInPipeline | api/src/main/java/ai/djl/modality/cv/pairedtransform/PairedRandomFlipTopBottom.java:30-39 | the corrected flip (rows laid out x, y, x, y), registered under the default key on a one-image, one-box sample, reverses the image and flips the box's y columns, and both keep their names |

## Findings

| source | as written | input that shows it | evidently intended | confidence | as-written member | corrected member |
|---|---|---|---|---|---|---|
| api/src/main/java/ai/djl/modality/cv/pairedtransform/PairedRandomFlipTopBottom.java:32-33 | columns `1:` and then columns `1::2` each get v ↦ 1 − v, so the odd columns return to their value and the even columns from 2 on are flipped | a box row laid out x, y, x, y, such as [0.2, 0.3, 0.8, 0.9], ends as [0.2, 0.3, 0.2, 0.9] | flip only the y values, as the comment on line 32 says: [0.2, 0.7, 0.8, 0.1] | low: holds only if rows are laid out x, y, x, y from column 0; the five-column target at examples/src/main/java/ai/djl/examples/training/TestTransforms.java:38 suggests a [label, x1, y1, x2, y2] layout, for which the two updates make exactly the y values 1 − y, as the comment says (`FlippedTargetLabelRow`); not executed | FlipTopBottom.FlippedTargetExample | FlipTopBottom.IntendedTargetEffect |

`FlipTopBottom.Transform` models the code as written. `FlipTopBottom.PairedAsWritten` is the
same update as a paired transform, and `FlipAsWrittenInPipeline` registers it in a pipeline.
`FlipTopBottom.Paired` flips the odd columns, which are the y values only for rows laid out
x, y, x, y. `FlipInPipeline` registers it. For a `[label, x1, y1, x2, y2]` row, it is the code
as written, not `Paired`, that flips the y values.

## Left out

- `IndexKey.hashCode` and the hash table: lookups use structural key equality. In the
  source, index key 0 and a name whose string hash is 0 (the empty name, for one) fall into
  the same bucket, and `equals` then lets index key 0 match that name key. The model does
  not capture this collision.
- `ConcurrentHashMap`: each map is local to one call, so it is a plain map here.
- Pipelines.Step, Pipelines.Apply: tensors are values here, so these functions do not capture
  three effects of the source's shared references.
  - (a) `toArray` (PairedPipeline.java:154-155) copies only references. A transform that
    updates its argument in place, such as the flip's `targetBox.set`, also changes the tensor
    that the caller's input or target list still holds. This happens even when a later entry
    fails on an unresolved key. In the model the caller's lists never change, and an `Err`
    leaves no partial effect behind.
  - (b) Lines 188-189 read the name from `inputArray`/`targetArray` AFTER the transform has
    run. A transform that renames its argument in place therefore has that new name restored.
    `Step` restores the name the slot had before the step.
  - (c) `setName` mutates the returned object. A transform that returns the same object for
    both sides, or an object held in another slot, would have that object renamed too.
- `java.util.Random` is replaced by the `flip` parameter. The debug `System.out.println` is dropped.
- Tensor arithmetic is over exact `real`s. Over IEEE floats, applying `mul(-1).add(1)` twice
  need not give back exactly the original value, so `FlipBranchTwice` and the "odd columns
  unchanged" part of `FlippedTargetEffect` hold only in exact arithmetic.
- The name of the tensor returned by `flip(0)` depends on the backend, which is not part of
  this model. The model keeps the input's name. The pipeline restores names either way.
- The flip treats the target as a matrix (`array2`, or rows for the specification). Axes of
  the image below axis 0 are flattened into one row.
- `PairList` internals and the NDArray/NDList backend (`toArray`, `flip`, `set`, `mul`,
  `add`) are not part of this model. Their effect on the core is modelled directly.
- `examples/src/main/java/ai/djl/examples/training/TestTransforms.java` is file decoding and
  image saving, with no pipeline logic of its own.
- Pipelines.PairedPipeline.Insert, InsertAt, InsertNamed: require a position inside the
  registry. For other positions the source's list throws, and the model leaves that case out.
