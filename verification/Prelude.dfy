/** Notions shared by all components. */
module Prelude {
  datatype Option<+T> = None | Some(value: T)

  /** Normalised path, as its list of components. */
  type Path = seq<string>

  const ELLIPSIS: char := '\U{2026}'

  function Max(a: nat, b: nat): nat { if a < b then b else a }

  predicate NewlineFree(lines: seq<string>) {
    forall i :: 0 <= i < |lines| ==> '\n' !in lines[i]
  }
}
