/** The tensors the pipeline moves around, reduced to what the core looks at. */
module Tensors {
  import opened Wrappers

  /**
   * An n-dimensional array with an optional name tag. Axis 0 is the outer sequence;
   * everything below axis 0 is flattened into one row of reals.
   */
  datatype Tensor = Tensor(name: Option<string>, rows: seq<seq<real>>)
}
