/** Definitions that several modules share. */
module Common {

  datatype Option<T> = None | Some(value: T)

  /** A value of a 32 bit `int`. */
  predicate Int32(x: int) { -0x8000_0000 <= x <= 0x7fff_ffff }

  ghost predicate Distinct<T>(s: seq<T>) {
    forall a, b :: 0 <= a < b < |s| ==> s[a] != s[b]
  }
}
