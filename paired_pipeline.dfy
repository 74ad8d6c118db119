/**
 * The paired pipeline: an ordered registry of (key, paired transform) entries that is
 * applied, entry by entry, to an input list and a target list of tensors.
 */
module Pipelines {
  import opened Wrappers
  import opened Tensors
  import opened IndexKeys

  /** A paired transform maps the current (input, target) tensors of one slot to their replacements. */
  type PairedTransform = (Tensor, Tensor) -> (Tensor, Tensor)

  /** One registry entry: the key that picks the slot, and the transform run on it. */
  datatype Entry = Entry(key: Key, transform: PairedTransform)

  /** The side of the call on which a key failed to resolve. */
  datatype Side = InputSide | TargetSide

  /** Looking a key up in a resolution map found nothing (a null unboxed to `int` in the source). */
  datatype Error = KeyNotFound(key: Key, side: Side)

  /** The input list and the target list. */
  type Lists = (seq<Tensor>, seq<Tensor>)

  /** Every position a resolution map hands out lies inside a list of length n. */
  ghost predicate Bounded(m: map<Key, nat>, n: nat)
  {
    forall k | k in m :: m[k] < n
  }

  /** Two lists have the same length and carry the same names position by position. */
  ghost predicate SameNames(a: seq<Tensor>, b: seq<Tensor>)
  {
    |a| == |b| && forall p :: 0 <= p < |a| ==> a[p].name == b[p].name
  }

  /** A key resolves against a list: an index inside it, or a name some element carries. */
  ghost predicate Resolves(k: Key, ts: seq<Tensor>)
  {
    match k
    case Indexed(i) => 0 <= i < |ts|
    case Named(n) => exists p :: 0 <= p < |ts| && ts[p].name == Some(n)
  }

  /**
   * The resolution map built for one list: walking the list in order, a named element
   * puts name -> position and every element then puts index -> position; a later put
   * overwrites an earlier one.
   */
  ghost function IndexMap(ts: seq<Tensor>): (m: map<Key, nat>)
    ensures Bounded(m, |ts|)
    decreases |ts|
  {
    if ts == [] then map[]
    else
      var p := |ts| - 1;
      var m := IndexMap(ts[..p]);
      var m' := if ts[p].name.Some? then m[Named(ts[p].name.value) := p] else m;
      m'[Indexed(p) := p]
  }

  /** An index key is in the resolution map exactly when it lies inside the list, and maps to itself. */
  lemma {:induction false} IndexMapIndexed(ts: seq<Tensor>, i: int)
    ensures Indexed(i) in IndexMap(ts) <==> 0 <= i < |ts|
    ensures Indexed(i) in IndexMap(ts) ==> IndexMap(ts)[Indexed(i)] == i
    decreases |ts|
  {
    if ts != [] {
      IndexMapIndexed(ts[..|ts| - 1], i);
    }
  }

  /**
   * A name key is in the resolution map exactly when some element carries that name, and
   * it maps to the LAST position carrying it (a later put overwrites an earlier one).
   */
  lemma {:induction false} IndexMapNamed(ts: seq<Tensor>, n: string)
    ensures Named(n) in IndexMap(ts) <==> Resolves(Named(n), ts)
    ensures Named(n) in IndexMap(ts) ==>
              ts[IndexMap(ts)[Named(n)]].name == Some(n) &&
              forall q :: IndexMap(ts)[Named(n)] < q < |ts| ==> ts[q].name != Some(n)
    decreases |ts|
  {
    if ts != [] {
      var p := |ts| - 1;
      var pre := ts[..p];
      IndexMapNamed(pre, n);
      if ts[p].name != Some(n) {
        assert Named(n) in IndexMap(ts) <==> Named(n) in IndexMap(pre);
        if Resolves(Named(n), ts) {
          var w :| 0 <= w < |ts| && ts[w].name == Some(n);
          assert pre[w] == ts[w];
        }
        if Resolves(Named(n), pre) {
          var w :| 0 <= w < |pre| && pre[w].name == Some(n);
          assert ts[w] == pre[w];
        }
        if Named(n) in IndexMap(pre) {
          var v := IndexMap(pre)[Named(n)];
          assert IndexMap(ts)[Named(n)] == v;
          assert ts[v] == pre[v];
          forall q | v < q < |ts| ensures ts[q].name != Some(n) {
            if q < p {
              assert ts[q] == pre[q];
            }
          }
        }
      }
    }
  }

  /** The keys in a resolution map are exactly the keys that resolve against the list. */
  lemma IndexMapResolves(ts: seq<Tensor>, k: Key)
    ensures k in IndexMap(ts) <==> Resolves(k, ts)
  {
    match k
    case Indexed(i) => IndexMapIndexed(ts, i);
    case Named(n) => IndexMapNamed(ts, n);
  }

  /**
   * One step of the apply loop: resolve the entry's key on the input side, then on the
   * target side, run the transform on the current tensors of the two slots, store the
   * results back and give them the names the slots had.
   */
  function Step(e: Entry, im: map<Key, nat>, tm: map<Key, nat>, s: Lists): (r: Result<Lists, Error>)
    requires Bounded(im, |s.0|) && Bounded(tm, |s.1|)
    ensures r.Err? <==> e.key !in im || e.key !in tm
    ensures r.Err? ==> r.error == KeyNotFound(e.key, if e.key !in im then InputSide else TargetSide)
    ensures r.Ok? ==> SameNames(r.value.0, s.0) && SameNames(r.value.1, s.1)
    ensures r.Ok? ==> forall p :: 0 <= p < |s.0| && p != im[e.key] ==> r.value.0[p] == s.0[p]
    ensures r.Ok? ==> forall p :: 0 <= p < |s.1| && p != tm[e.key] ==> r.value.1[p] == s.1[p]
    ensures r.Ok? ==> r.value.0[im[e.key]].rows == e.transform(s.0[im[e.key]], s.1[tm[e.key]]).0.rows
    ensures r.Ok? ==> r.value.1[tm[e.key]].rows == e.transform(s.0[im[e.key]], s.1[tm[e.key]]).1.rows
  {
    if e.key !in im then Err(KeyNotFound(e.key, InputSide))
    else if e.key !in tm then Err(KeyNotFound(e.key, TargetSide))
    else
      var i, j := im[e.key], tm[e.key];
      var out := e.transform(s.0[i], s.1[j]);
      Ok((s.0[i := out.0.(name := s.0[i].name)], s.1[j := out.1.(name := s.1[j].name)]))
  }

  /** The apply loop over the registry: entries run in order, each on the previous one's output. */
  function Run(entries: seq<Entry>, im: map<Key, nat>, tm: map<Key, nat>, s: Lists): (r: Result<Lists, Error>)
    requires Bounded(im, |s.0|) && Bounded(tm, |s.1|)
    ensures r.Ok? ==> SameNames(r.value.0, s.0) && SameNames(r.value.1, s.1)
    decreases |entries|
  {
    if entries == [] then Ok(s)
    else
      match Step(entries[0], im, tm, s)
      case Err(e) => Err(e)
      case Ok(s') => Run(entries[1..], im, tm, s')
  }

  /**
   * `transform(input, target)`: the identity when the registry or either list is empty,
   * otherwise the apply loop over maps built from the two lists.
   */
  ghost function Apply(entries: seq<Entry>, input: seq<Tensor>, target: seq<Tensor>): (r: Result<Lists, Error>)
    ensures entries == [] || input == [] || target == [] ==> r == Ok((input, target))
    ensures r.Ok? ==> SameNames(r.value.0, input) && SameNames(r.value.1, target)
  {
    if entries == [] || input == [] || target == [] then Ok((input, target))
    else Run(entries, IndexMap(input), IndexMap(target), (input, target))
  }

  /** Running two registries one after the other is running their concatenation. */
  lemma {:induction false} RunAppend(a: seq<Entry>, b: seq<Entry>, im: map<Key, nat>, tm: map<Key, nat>, s: Lists)
    requires Bounded(im, |s.0|) && Bounded(tm, |s.1|)
    ensures Run(a + b, im, tm, s) ==
              match Run(a, im, tm, s)
              case Err(e) => Err(e)
              case Ok(s') => Run(b, im, tm, s')
    decreases |a|
  {
    if a == [] {
      assert a + b == b;
    } else {
      assert (a + b)[0] == a[0];
      assert (a + b)[1..] == a[1..] + b;
      match Step(a[0], im, tm, s)
      case Err(e) =>
      case Ok(s') => RunAppend(a[1..], b, im, tm, s');
    }
  }

  /** The loop succeeds exactly when every registered key is in both maps. */
  lemma {:induction false} RunOkIff(entries: seq<Entry>, im: map<Key, nat>, tm: map<Key, nat>, s: Lists)
    requires Bounded(im, |s.0|) && Bounded(tm, |s.1|)
    ensures Run(entries, im, tm, s).Ok? <==> forall e <- entries :: e.key in im && e.key in tm
    decreases |entries|
  {
    if entries != [] {
      match Step(entries[0], im, tm, s)
      case Err(_) =>
      case Ok(s') =>
        RunOkIff(entries[1..], im, tm, s');
        assert forall e <- entries :: e == entries[0] || e in entries[1..];
    }
  }

  /** The position of the first entry whose key is missing from one of the maps, or |entries|. */
  function FirstUnresolved(entries: seq<Entry>, im: map<Key, nat>, tm: map<Key, nat>): (p: nat)
    ensures p <= |entries|
    ensures forall q :: 0 <= q < p ==> entries[q].key in im && entries[q].key in tm
    ensures p < |entries| ==> entries[p].key !in im || entries[p].key !in tm
    decreases |entries|
  {
    if entries == [] then 0
    else if entries[0].key !in im || entries[0].key !in tm then 0
    else 1 + FirstUnresolved(entries[1..], im, tm)
  }

  /**
   * A failure names the first registry entry whose key does not resolve, and the side
   * that failed: the input side is looked up first.
   */
  lemma {:induction false} RunErrIsFirstUnresolved(entries: seq<Entry>, im: map<Key, nat>, tm: map<Key, nat>, s: Lists)
    requires Bounded(im, |s.0|) && Bounded(tm, |s.1|)
    ensures var p := FirstUnresolved(entries, im, tm);
            Run(entries, im, tm, s).Err? <==> p < |entries|
    ensures var p := FirstUnresolved(entries, im, tm);
            p < |entries| ==>
              Run(entries, im, tm, s).error ==
                KeyNotFound(entries[p].key, if entries[p].key !in im then InputSide else TargetSide)
    decreases |entries|
  {
    if entries != [] {
      match Step(entries[0], im, tm, s)
      case Err(_) =>
      case Ok(s') =>
        RunErrIsFirstUnresolved(entries[1..], im, tm, s');
        var p := FirstUnresolved(entries[1..], im, tm);
        assert p < |entries[1..]| ==> entries[p + 1] == entries[1..][p];
    }
  }

  /**
   * `transform` on non-empty lists fails exactly when some registered key does not resolve
   * on one of the two sides: an absent name or an index outside the list is an error,
   * never a skipped step.
   */
  lemma ApplyOkIff(entries: seq<Entry>, input: seq<Tensor>, target: seq<Tensor>)
    ensures Apply(entries, input, target).Ok? <==>
              entries == [] || input == [] || target == [] ||
              forall e <- entries :: Resolves(e.key, input) && Resolves(e.key, target)
  {
    if entries != [] && input != [] && target != [] {
      RunOkIff(entries, IndexMap(input), IndexMap(target), (input, target));
      forall e <- entries
        ensures e.key in IndexMap(input) <==> Resolves(e.key, input)
        ensures e.key in IndexMap(target) <==> Resolves(e.key, target)
      {
        IndexMapResolves(input, e.key);
        IndexMapResolves(target, e.key);
      }
    }
  }

  /**
   * Registering a transform by a name, or by the index where that name last occurs on
   * both sides, gives the same result wherever in the registry it is placed.
   */
  lemma NameOrIndexSameResult(pre: seq<Entry>, post: seq<Entry>, t: PairedTransform, n: string, p: nat,
                              input: seq<Tensor>, target: seq<Tensor>)
    requires p < |input| && input[p].name == Some(n) && forall q :: p < q < |input| ==> input[q].name != Some(n)
    requires p < |target| && target[p].name == Some(n) && forall q :: p < q < |target| ==> target[q].name != Some(n)
    ensures Apply(pre + [Entry(Named(n), t)] + post, input, target) ==
            Apply(pre + [Entry(Indexed(p), t)] + post, input, target)
  {
    var im, tm := IndexMap(input), IndexMap(target);
    IndexMapNamed(input, n);
    IndexMapNamed(target, n);
    IndexMapIndexed(input, p);
    IndexMapIndexed(target, p);
    assert Named(n) in im && Named(n) in tm;
    assert im[Named(n)] == p && tm[Named(n)] == p;
    var byName, byIndex := Entry(Named(n), t), Entry(Indexed(p), t);
    RunAppend(pre + [byName], post, im, tm, (input, target));
    RunAppend(pre + [byIndex], post, im, tm, (input, target));
    RunAppend(pre, [byName], im, tm, (input, target));
    RunAppend(pre, [byIndex], im, tm, (input, target));
    match Run(pre, im, tm, (input, target))
    case Err(_) =>
    case Ok(s') =>
      assert Step(byName, im, tm, s') == Step(byIndex, im, tm, s');
  }

  /** Two transforms that do not commute give different results in the two registration orders. */
  lemma OrderMatters(x: Tensor, y: Tensor)
    ensures var append: PairedTransform := (a: Tensor, b: Tensor) => (a.(rows := a.rows + [[1.0]]), b);
            var reset: PairedTransform := (a: Tensor, b: Tensor) => (a.(rows := []), b);
            Apply([Entry(Indexed(0), append), Entry(Indexed(0), reset)], [x], [y]) !=
            Apply([Entry(Indexed(0), reset), Entry(Indexed(0), append)], [x], [y])
  {
  }

  /**
   * A single entry under the default key on a one-element input and target: the result is
   * the transform's output on the two tensors, carrying their names.
   */
  lemma SingleEntry(t: PairedTransform, x: Tensor, y: Tensor)
    ensures Apply([Entry(Indexed(0), t)], [x], [y]) ==
              Ok(([t(x, y).0.(name := x.name)], [t(x, y).1.(name := y.name)]))
  {
    var entries := [Entry(Indexed(0), t)];
    var im, tm := IndexMap([x]), IndexMap([y]);
    IndexMapIndexed([x], 0);
    IndexMapIndexed([y], 0);
    assert entries[1..] == [];
    var out := t(x, y);
    assert [x][0 := out.0.(name := x.name)] == [out.0.(name := x.name)];
    assert [y][0 := out.1.(name := y.name)] == [out.1.(name := y.name)];
    var after := ([out.0.(name := x.name)], [out.1.(name := y.name)]);
    assert Step(entries[0], im, tm, ([x], [y])) == Ok(after);
    assert Run(entries[1..], im, tm, after) == Ok(after);
  }

  /** The pipeline object: its registry is the one piece of state, changed only by registration. */
  class PairedPipeline {
    var transforms: seq<Entry>

    /** A pipeline with no transforms yet. */
    constructor ()
      ensures transforms == []
    {
      transforms := [];
    }

    /** The varargs constructor: each transform, in argument order, under the key index 0. */
    constructor Of(ts: seq<PairedTransform>)
      ensures |transforms| == |ts|
      ensures forall p :: 0 <= p < |ts| ==> transforms[p] == Entry(Indexed(0), ts[p])
    {
      transforms := [];
      new;
      var i := 0;
      while i < |ts|
        invariant 0 <= i <= |ts|
        invariant |transforms| == i
        invariant forall p :: 0 <= p < i ==> transforms[p] == Entry(Indexed(0), ts[p])
      {
        transforms := transforms + [Entry(Indexed(0), ts[i])];
        i := i + 1;
      }
    }

    /** `add(transform)`: appends the transform under the key index 0. */
    method Add(t: PairedTransform) returns (self: PairedPipeline)
      modifies this
      ensures self == this
      ensures transforms == old(transforms) + [Entry(Indexed(0), t)]
    {
      transforms := transforms + [Entry(Indexed(0), t)];
      self := this;
    }

    /** `add(index, transform)`: appends the transform under the given index. */
    method AddAt(index: int, t: PairedTransform) returns (self: PairedPipeline)
      modifies this
      ensures self == this
      ensures transforms == old(transforms) + [Entry(Indexed(index), t)]
    {
      transforms := transforms + [Entry(Indexed(index), t)];
      self := this;
    }

    /** `add(name, transform)`: appends the transform under the given name. */
    method AddNamed(name: Option<string>, t: PairedTransform) returns (self: PairedPipeline)
      modifies this
      ensures self == this
      ensures transforms == old(transforms) + [Entry(KeyOfName(name), t)]
    {
      transforms := transforms + [Entry(KeyOfName(name), t)];
      self := this;
    }

    /** `insert(position, transform)`: the transform under index 0 at registry position `position`. */
    method Insert(position: int, t: PairedTransform) returns (self: PairedPipeline)
      requires 0 <= position <= |transforms|
      modifies this
      ensures self == this
      ensures transforms == Inserted(old(transforms), position, Entry(Indexed(0), t))
    {
      transforms := transforms[..position] + [Entry(Indexed(0), t)] + transforms[position..];
      self := this;
    }

    /** `insert(position, index, transform)`. */
    method InsertAt(position: int, index: int, t: PairedTransform) returns (self: PairedPipeline)
      requires 0 <= position <= |transforms|
      modifies this
      ensures self == this
      ensures transforms == Inserted(old(transforms), position, Entry(Indexed(index), t))
    {
      transforms := transforms[..position] + [Entry(Indexed(index), t)] + transforms[position..];
      self := this;
    }

    /** `insert(position, name, transform)`. */
    method InsertNamed(position: int, name: Option<string>, t: PairedTransform) returns (self: PairedPipeline)
      requires 0 <= position <= |transforms|
      modifies this
      ensures self == this
      ensures transforms == Inserted(old(transforms), position, Entry(KeyOfName(name), t))
    {
      transforms := transforms[..position] + [Entry(KeyOfName(name), t)] + transforms[position..];
      self := this;
    }

    /**
     * `transform(input, target)`: applies the registry to the two lists and returns two
     * new lists; the pipeline itself is left as it was.
     */
    method Transform(input: seq<Tensor>, target: seq<Tensor>) returns (r: Result<Lists, Error>)
      ensures r == Apply(transforms, input, target)
    {
      if |transforms| == 0 || |input| == 0 || |target| == 0 {
        return Ok((input, target));
      }
      var inputArrays := new Tensor[|input|](p requires 0 <= p < |input| => input[p]);
      var targetArrays := new Tensor[|target|](p requires 0 <= p < |target| => target[p]);
      var inputMap := ResolutionMap(input);
      var targetMap := ResolutionMap(target);
      assert inputArrays[..] == input && targetArrays[..] == target;
      var i := 0;
      while i < |transforms|
        invariant 0 <= i <= |transforms|
        invariant inputArrays.Length == |input| && targetArrays.Length == |target|
        invariant Run(transforms[i..], inputMap, targetMap, (inputArrays[..], targetArrays[..])) ==
                  Run(transforms, inputMap, targetMap, (input, target))
      {
        var entry := transforms[i];
        assert transforms[i..][0] == entry && transforms[i..][1..] == transforms[i + 1..];
        if entry.key !in inputMap {
          return Err(KeyNotFound(entry.key, InputSide));
        }
        var inputIndex := inputMap[entry.key];
        var inputArray := inputArrays[inputIndex];
        if entry.key !in targetMap {
          return Err(KeyNotFound(entry.key, TargetSide));
        }
        var targetIndex := targetMap[entry.key];
        var targetArray := targetArrays[targetIndex];
        var result := entry.transform(inputArray, targetArray);
        inputArrays[inputIndex] := result.0.(name := inputArray.name);
        targetArrays[targetIndex] := result.1.(name := targetArray.name);
        i := i + 1;
      }
      return Ok((inputArrays[..], targetArrays[..]));
    }
  }

  /** The registry after `PairList.add(position, key, value)`. */
  function Inserted(reg: seq<Entry>, position: int, e: Entry): (r: seq<Entry>)
    requires 0 <= position <= |reg|
    ensures |r| == |reg| + 1 && r[position] == e
    ensures r[..position] + r[position + 1..] == reg
  {
    reg[..position] + [e] + reg[position..]
  }

  /** The mapping loop of `transform` for one list. */
  method ResolutionMap(ts: seq<Tensor>) returns (m: map<Key, nat>)
    ensures m == IndexMap(ts)
  {
    m := map[];
    for i := 0 to |ts|
      invariant m == IndexMap(ts[..i])
    {
      assert ts[..i + 1][..i] == ts[..i];
      var key := ts[i].name;
      if key.Some? {
        m := m[Named(key.value) := i];
      }
      m := m[Indexed(i) := i];
    }
    assert ts[..|ts|] == ts;
  }
}
