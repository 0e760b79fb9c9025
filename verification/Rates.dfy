/** What the input-rate vote and the placement of sessions share about frame rates. */
module Rates {
  const MAXIMUM_FPS: nat := 480
  const DEFAULT_FPS: nat := 30

  function Min(a: nat, b: nat): nat {
    if a < b then a else b
  }

  function Max(a: nat, b: nat): nat {
    if a > b then a else b
  }
}
