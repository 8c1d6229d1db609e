/** Values shared by the asset model and the bundle builder. */
module Common {

  /** A result that may be absent; stands for PHP's `false` returns. */
  datatype Option<+T> = None | Some(value: T)

  /**
   * The part of a dynamically typed PHP value that this core inspects:
   * strings, (list-shaped) arrays, booleans and null.
   */
  datatype Value = Str(s: string) | Arr(items: seq<Value>) | Bool(b: bool) | Null
}
