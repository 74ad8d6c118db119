/**
 * The paired vertical flip: with a given decision, reverse the input along axis 0 and
 * rewrite the coordinate columns of the target box matrix in place.
 */
module FlipTopBottom {
  import opened Tensors
  import opened IndexKeys
  import opened Wrappers
  import Pipelines

  /** A column selection `start::step` of the row-wise index ":, start::step". */
  datatype ColumnSlice = ColumnSlice(start: nat, step: nat)

  /** ":, 1:" — every column but the first. */
  const AllButFirst := ColumnSlice(1, 1)

  /** ":, 1::2" — the odd columns. */
  const OddColumns := ColumnSlice(1, 2)

  /** Whether column j lies in the slice. */
  predicate Selects(sl: ColumnSlice, j: int)
  {
    sl.step > 0 && j >= sl.start && (j - sl.start) % sl.step == 0
  }

  /** The elementwise update `array -> array.mul(-1).add(1)`, over exact reals. */
  function Complement(v: real): real
  {
    v * -1.0 + 1.0
  }

  /** `set(":, start::step", fn)` on a matrix given as rows: the selected columns go through Complement. */
  function SetSlice(m: seq<seq<real>>, sl: ColumnSlice): seq<seq<real>>
  {
    seq(|m|, i requires 0 <= i < |m| =>
      seq(|m[i]|, j requires 0 <= j < |m[i]| => if Selects(sl, j) then Complement(m[i][j]) else m[i][j]))
  }

  /** Two matrices have the same number of rows and each row the same number of columns. */
  ghost predicate SameShape(a: seq<seq<real>>, b: seq<seq<real>>)
  {
    |a| == |b| && forall i :: 0 <= i < |a| ==> |a[i]| == |b[i]|
  }

  /** The target after the flip branch as written: first ":, 1:", then ":, 1::2". */
  function FlippedTarget(m: seq<seq<real>>): seq<seq<real>>
  {
    SetSlice(SetSlice(m, AllButFirst), OddColumns)
  }

  /**
   * The composed effect of the two slice updates: the shape is kept, column 0 and every
   * odd column end where they started (odd columns are complemented twice), and only the
   * even columns from 2 on are complemented.
   */
  lemma FlippedTargetEffect(m: seq<seq<real>>)
    ensures SameShape(FlippedTarget(m), m)
    ensures forall i, j :: 0 <= i < |m| && 0 <= j < |m[i]| ==>
              FlippedTarget(m)[i][j] == if j >= 2 && j % 2 == 0 then 1.0 - m[i][j] else m[i][j]
  {
  }

  /** Axis-0 reversal, `flip(0)`. */
  function Reverse<T>(s: seq<T>): seq<T>
    decreases |s|
  {
    if s == [] then [] else [s[|s| - 1]] + Reverse(s[..|s| - 1])
  }

  /** Reversal keeps the length and puts element k at position |s| - 1 - k. */
  lemma {:induction false} ReverseAt<T>(s: seq<T>)
    ensures |Reverse(s)| == |s|
    ensures forall k :: 0 <= k < |s| ==> Reverse(s)[k] == s[|s| - 1 - k]
    decreases |s|
  {
    if s != [] {
      var p := |s| - 1;
      var rest := Reverse(s[..p]);
      ReverseAt(s[..p]);
      assert Reverse(s) == [s[p]] + rest;
      forall k | 0 <= k < |s| ensures Reverse(s)[k] == s[p - k] {
        if k > 0 {
          assert rest[k - 1] == s[..p][p - 1 - (k - 1)];
        }
      }
    }
  }

  /** Reversing twice gives the sequence back. */
  lemma ReverseTwice<T>(s: seq<T>)
    ensures Reverse(Reverse(s)) == s
  {
    ReverseAt(s);
    ReverseAt(Reverse(s));
  }

  /** Over exact reals the flip branch as written undoes itself, on both the input and the target. */
  lemma FlipBranchTwice(rows: seq<seq<real>>, m: seq<seq<real>>)
    ensures Reverse(Reverse(rows)) == rows
    ensures FlippedTarget(FlippedTarget(m)) == m
  {
    ReverseTwice(rows);
    var once := FlippedTarget(m);
    FlippedTargetEffect(m);
    FlippedTargetEffect(once);
    forall i | 0 <= i < |m| ensures FlippedTarget(once)[i] == m[i] { }
  }

  /** The matrix an `array2` holds, row by row. */
  function Matrix(a: array2<real>): (m: seq<seq<real>>)
    reads a
    ensures |m| == a.Length0
    ensures forall i :: 0 <= i < |m| ==> |m[i]| == a.Length1
    ensures forall i, j :: 0 <= i < a.Length0 && 0 <= j < a.Length1 ==> m[i][j] == a[i, j]
  {
    seq(a.Length0, i requires 0 <= i < a.Length0 reads a =>
      seq(a.Length1, j requires 0 <= j < a.Length1 reads a => a[i, j]))
  }

  /**
   * `transform(inputArray, targetBox)` with the coin flip as the parameter `flip`. On a
   * flip the box matrix is updated in place by the two slice assignments and the same
   * array is returned; the input is replaced by its axis-0 reversal.
   */
  method Transform(flip: bool, inputArray: Tensor, targetBox: array2<real>)
    returns (outInput: Tensor, outTarget: array2<real>)
    modifies targetBox
    ensures outTarget == targetBox
    ensures flip ==> outInput == inputArray.(rows := Reverse(inputArray.rows))
    ensures flip ==> Matrix(targetBox) == FlippedTarget(old(Matrix(targetBox)))
    ensures !flip ==> outInput == inputArray && Matrix(targetBox) == old(Matrix(targetBox))
  {
    ghost var m0 := Matrix(targetBox);
    if flip {
      forall i, j | 0 <= i < targetBox.Length0 && 0 <= j < targetBox.Length1 && Selects(AllButFirst, j) {
        targetBox[i, j] := Complement(targetBox[i, j]);
      }
      ghost var m1 := Matrix(targetBox);
      assert m1 == SetSlice(m0, AllButFirst) by {
        forall i | 0 <= i < |m1| ensures m1[i] == SetSlice(m0, AllButFirst)[i] { }
      }
      forall i, j | 0 <= i < targetBox.Length0 && 0 <= j < targetBox.Length1 && Selects(OddColumns, j) {
        targetBox[i, j] := Complement(targetBox[i, j]);
      }
      ghost var m2 := Matrix(targetBox);
      assert m2 == SetSlice(m1, OddColumns) by {
        forall i | 0 <= i < |m2| ensures m2[i] == SetSlice(m1, OddColumns)[i] { }
      }
      return inputArray.(rows := Reverse(inputArray.rows)), targetBox;
    } else {
      return inputArray, targetBox;
    }
  }

  /**
   * The update the comment "only flip y values" asks for IF box rows are laid out
   * x, y, x, y, ... from column 0: the odd (y) columns complemented once. Under a
   * label, x, y, x, y, ... layout the y values are the even columns from 2 on, and the
   * code as written flips exactly those (`FlippedTargetLabelRow`).
   */
  function IntendedTarget(m: seq<seq<real>>): seq<seq<real>>
  {
    SetSlice(m, OddColumns)
  }

  /**
   * The intended effect: the shape is kept, each odd column becomes 1 - v, and every
   * other column, column 0 included, is untouched.
   */
  lemma IntendedTargetEffect(m: seq<seq<real>>)
    ensures SameShape(IntendedTarget(m), m)
    ensures forall i, j :: 0 <= i < |m| && 0 <= j < |m[i]| ==>
              IntendedTarget(m)[i][j] == if j % 2 == 1 then 1.0 - m[i][j] else m[i][j]
  {
  }

  /** The intended update undoes itself too. */
  lemma IntendedTargetTwice(m: seq<seq<real>>)
    ensures IntendedTarget(IntendedTarget(m)) == m
  {
    var once := IntendedTarget(m);
    IntendedTargetEffect(m);
    IntendedTargetEffect(once);
    forall i | 0 <= i < |m| ensures IntendedTarget(once)[i] == m[i] { }
  }

  /**
   * Assuming a box row laid out x, y, x, y (y at columns 1 and 3): as written, the y
   * values come back unchanged and the x value at column 2 is flipped; the update of
   * `IntendedTarget` flips the y values.
   */
  lemma FlippedTargetExample()
    ensures FlippedTarget([[0.2, 0.3, 0.8, 0.9]]) == [[0.2, 0.3, 0.2, 0.9]]
    ensures IntendedTarget([[0.2, 0.3, 0.8, 0.9]]) == [[0.2, 0.7, 0.8, 0.1]]
    ensures FlippedTarget([[0.2, 0.3, 0.8, 0.9]]) != IntendedTarget([[0.2, 0.3, 0.8, 0.9]])
  {
    var m := [[0.2, 0.3, 0.8, 0.9]];
    FlippedTargetEffect(m);
    IntendedTargetEffect(m);
    assert FlippedTarget(m)[0] == [0.2, 0.3, 0.2, 0.9];
    assert IntendedTarget(m)[0] == [0.2, 0.7, 0.8, 0.1];
    assert FlippedTarget(m)[0][1] != IntendedTarget(m)[0][1];
  }

  /**
   * Assuming a five-column box row laid out label, x1, y1, x2, y2 (the shape of the
   * target built in examples/src/main/java/ai/djl/examples/training/TestTransforms.java:38):
   * as written, exactly the two y values become 1 - y and the label and x values stay.
   */
  lemma FlippedTargetLabelRow(c: real, x1: real, y1: real, x2: real, y2: real)
    ensures FlippedTarget([[c, x1, y1, x2, y2]]) == [[c, x1, 1.0 - y1, x2, 1.0 - y2]]
  {
    var m := [[c, x1, y1, x2, y2]];
    FlippedTargetEffect(m);
    assert FlippedTarget(m)[0] == [c, x1, 1.0 - y1, x2, 1.0 - y2];
  }

  /** The flip as written as a paired transform, with the coin flip fixed to `flip`. */
  function PairedAsWritten(flip: bool): Pipelines.PairedTransform
  {
    (input: Tensor, target: Tensor) =>
      if flip then (input.(rows := Reverse(input.rows)), target.(rows := FlippedTarget(target.rows)))
      else (input, target)
  }

  /**
   * The flip as written, registered under the default key on a one-image, one-box sample:
   * the image is reversed, the box goes through the two slice updates, and both keep their
   * names.
   */
  lemma FlipAsWrittenInPipeline(flip: bool, x: Tensor, y: Tensor)
    ensures Pipelines.Apply([Pipelines.Entry(Indexed(0), PairedAsWritten(flip))], [x], [y]) ==
              if flip then Ok(([x.(rows := Reverse(x.rows))], [y.(rows := FlippedTarget(y.rows))]))
              else Ok(([x], [y]))
  {
    Pipelines.SingleEntry(PairedAsWritten(flip), x, y);
  }

  /**
   * The corrected flip (for box rows laid out x, y, x, y, ...) as a paired transform,
   * with the coin flip fixed to `flip`.
   */
  function Paired(flip: bool): Pipelines.PairedTransform
  {
    (input: Tensor, target: Tensor) =>
      if flip then (input.(rows := Reverse(input.rows)), target.(rows := IntendedTarget(target.rows)))
      else (input, target)
  }

  /**
   * The corrected flip registered under the default key on a one-image, one-box sample: the
   * image is reversed, the box's odd (y) columns are flipped, and both keep their names.
   */
  lemma FlipInPipeline(flip: bool, x: Tensor, y: Tensor)
    ensures Pipelines.Apply([Pipelines.Entry(Indexed(0), Paired(flip))], [x], [y]) ==
              if flip then Ok(([x.(rows := Reverse(x.rows))], [y.(rows := IntendedTarget(y.rows))]))
              else Ok(([x], [y]))
  {
    Pipelines.SingleEntry(Paired(flip), x, y);
  }
}
