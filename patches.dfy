/** The two mutable fields of the connection-lifecycle controller, and the
    partial-state patches that its single mutation path copies into them. */
module Patches {

  /** The controller's mutable session: the pending WalletConnect URI and
      whether the modal is shown. */
  datatype Fields = Fields(uri: string, show: bool)

  datatype Key = UriKey | ShowKey

  /** One key/value pair of a patch object. */
  datatype Entry = UriEntry(uri: string) | ShowEntry(show: bool) {
    function Key(): Key {
      match this
      case UriEntry(_) => UriKey
      case ShowEntry(_) => ShowKey
    }
  }

  /** A patch object, its keys in the order `Object.keys` lists them. */
  type Patch = seq<Entry>

  /** `this[key] = state[key]` for one key. */
  function Assign(f: Fields, e: Entry): Fields {
    match e
    case UriEntry(u) => f.(uri := u)
    case ShowEntry(b) => f.(show := b)
  }

  /** The fields after copying every key of `p`, first to last, into `f`. */
  function Merge(f: Fields, p: Patch): Fields
    decreases |p|
  {
    if p == [] then f else Assign(Merge(f, p[..|p| - 1]), p[|p| - 1])
  }

  /** `p[i]` is the last entry of `p` that names key `k`. */
  ghost predicate LastFor(p: Patch, k: Key, i: int) {
    0 <= i < |p| && p[i].Key() == k && forall j :: i < j < |p| ==> p[j].Key() != k
  }

  /** No key occurs twice, as in an object literal. */
  ghost predicate DistinctKeys(p: Patch) {
    forall i, j :: 0 <= i < j < |p| ==> p[i].Key() != p[j].Key()
  }

  /** The field named by `e` holds the value `e` carries. */
  ghost predicate Holds(f: Fields, e: Entry) {
    match e
    case UriEntry(u) => f.uri == u
    case ShowEntry(b) => f.show == b
  }

  /** Merging changes a field only when the patch names it, and then the
      field takes the value of the last entry naming it. */
  lemma {:induction false} MergeExact(f: Fields, p: Patch)
    ensures (forall i :: 0 <= i < |p| ==> p[i].Key() != UriKey) ==> Merge(f, p).uri == f.uri
    ensures (forall i :: 0 <= i < |p| ==> p[i].Key() != ShowKey) ==> Merge(f, p).show == f.show
    ensures forall i :: LastFor(p, UriKey, i) ==> Merge(f, p).uri == p[i].uri
    ensures forall i :: LastFor(p, ShowKey, i) ==> Merge(f, p).show == p[i].show
  {
    if p != [] {
      var n := |p| - 1;
      var q := p[..n];
      MergeExact(f, q);
      assert forall i :: 0 <= i < n ==> q[i] == p[i];
      forall i | LastFor(p, UriKey, i)
        ensures Merge(f, p).uri == p[i].uri
      {
        if i < n {
          assert LastFor(q, UriKey, i);
        }
      }
      forall i | LastFor(p, ShowKey, i)
        ensures Merge(f, p).show == p[i].show
      {
        if i < n {
          assert LastFor(q, ShowKey, i);
        }
      }
    }
  }

  /** For a patch written as an object literal, every key it names takes
      the value it carries, and a field it does not name keeps its value. */
  lemma PatchApplied(f: Fields, p: Patch)
    requires DistinctKeys(p)
    ensures forall i :: 0 <= i < |p| ==> Holds(Merge(f, p), p[i])
    ensures (forall i :: 0 <= i < |p| ==> p[i].Key() != UriKey) ==> Merge(f, p).uri == f.uri
    ensures (forall i :: 0 <= i < |p| ==> p[i].Key() != ShowKey) ==> Merge(f, p).show == f.show
  {
    MergeExact(f, p);
    forall i | 0 <= i < |p|
      ensures Holds(Merge(f, p), p[i])
    {
      assert LastFor(p, p[i].Key(), i);
    }
  }

  /** A one-key patch sets exactly that key. */
  lemma MergeOne(f: Fields, e: Entry)
    ensures Merge(f, [e]) == Assign(f, e)
  {
  }
}
