/** Types that several parts share. */
module Types {
  datatype Option<T> = None | Some(value: T)

  newtype byte = x: int | 0 <= x < 256

  ghost predicate Distinct<T(!new)>(s: seq<T>) {
    forall i, j :: 0 <= i < j < |s| ==> s[i] != s[j]
  }
}
