/** Small definitions that several modules share. */
module Collections {
  datatype Option<T> = None | Some(value: T)

  ghost predicate Distinct<T>(s: seq<T>) {
    forall i, j :: 0 <= i < j < |s| ==> s[i] != s[j]
  }

  /** The elements from the k-th on, and those before it. */
  function Beyond<T>(s: seq<T>, k: nat): (r: seq<T>)
    ensures forall i :: 0 <= i < |r| ==> r[i] in s
  {
    if k < |s| then s[k..] else []
  }

  function Within<T>(s: seq<T>, k: nat): seq<T> {
    if k < |s| then s[..k] else s
  }
}
