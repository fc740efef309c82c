/** Wrappers used throughout. */
module Commons {

  datatype Option<T> = None | Some(value: T)

  datatype Result<T> = Ok(value: T) | Err

  /** The entry of a key, zero when there is none. */
  function Get<K>(m: map<K, int>, k: K): int {
    if k in m then m[k] else 0
  }

  /** Only the entry of `k` moves, by `delta`. */
  ghost predicate Shifts<K(!new)>(before: map<K, int>, after: map<K, int>, k: K, delta: int) {
    forall j: K :: Get(after, j) == Get(before, j) + if j == k then delta else 0
  }

  predicate IsDigit(c: char) { '0' <= c <= '9' }
}

/** Block ids, which carry their block number. */
module Blocks {

  datatype BlockId = BlockId(num: nat, hash: nat)

  /** The default-constructed id. */
  const NO_ID := BlockId(0, 0)
}
