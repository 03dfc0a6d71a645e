/** Small shared vocabulary: an optional value, standing for JavaScript's
    `undefined`/`null` where the face-control service checks for it. */
module Base {

  datatype Option<T> = None | Some(value: T)

  function MinInt(a: int, b: int): int { if a <= b then a else b }
  function MaxInt(a: int, b: int): int { if a >= b then a else b }
}
