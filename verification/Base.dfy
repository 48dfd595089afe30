/** Small shared vocabulary: optional values and the machine integers of the service. */
module Base {
  datatype Option<+T> = None | Some(value: T)

  // A stored string column that the code writes as NULL when the Go string is empty.
  function NonEmpty(s: string): Option<string> {
    if s == "" then None else Some(s)
  }

  // A sequence with one position taken out.
  function Without<T>(s: seq<T>, k: nat): seq<T>
    requires k < |s|
  {
    s[..k] + s[k + 1..]
  }

  lemma WithoutMultiset<T>(s: seq<T>, k: nat)
    requires k < |s|
    ensures multiset(Without(s, k)) == multiset(s) - multiset{s[k]}
  {
    assert s == (s[..k] + [s[k]]) + s[k + 1..];
  }

  lemma EmptyMultiset<T>(s: seq<T>)
    requires multiset(s) == multiset{}
    ensures s == []
  {
    assert |multiset(s)| == |s|;
  }
}
