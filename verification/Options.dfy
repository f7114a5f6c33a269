/** An optional value, JavaScript's `undefined` or `null`, and JavaScript's largest safe integer. */
module Options {
  datatype Option<+T> = None | Some(value: T)

  const MAX_SAFE_INTEGER := 9_007_199_254_740_991
}
