/**
 * The two list transforms every collection of the store is edited with, keyed by
 * the record's `id`: `list.filter(x => x.id !== id)` and
 * `list.map(x => x.id === id ? change(x) : x)`.
 */
module Records {
  import opened Options
  import opened Seqs

  /** `if (id)` on a `string | null`: an id is chosen and it is not the empty string. */
  predicate IsTruthy(id: Option<string>) {
    id.Some? && id.value != ""
  }

  function KeyIsNot<T>(key: T -> string, id: string): T -> bool {
    x => key(x) != id
  }

  /** Every record whose key is `id` dropped, the others kept in their order. */
  function RemoveKey<T>(s: seq<T>, key: T -> string, id: string): (r: seq<T>)
    ensures |r| <= |s|
  {
    Filter(s, KeyIsNot(key, id))
  }

  /** A removal drops exactly the records with the key, and is a no-op when there are none. */
  lemma RemoveKeySpec<T>(s: seq<T>, key: T -> string, id: string)
    ensures forall x :: x in RemoveKey(s, key, id) <==> x in s && key(x) != id
    ensures (forall i :: 0 <= i < |s| ==> key(s[i]) != id) ==> RemoveKey(s, key, id) == s
  {
    FilterSound(s, KeyIsNot(key, id));
    FilterComplete(s, KeyIsNot(key, id));
    if forall i :: 0 <= i < |s| ==> key(s[i]) != id {
      FilterKeepsAll(s, KeyIsNot(key, id));
    }
  }

  /** Removal keeps the order of what it keeps: it commutes with joining two lists. */
  lemma RemoveKeyAppend<T>(a: seq<T>, b: seq<T>, key: T -> string, id: string)
    ensures RemoveKey(a + b, key, id) == RemoveKey(a, key, id) + RemoveKey(b, key, id)
  {
    FilterAppend(a, b, KeyIsNot(key, id));
  }

  /** Every record whose key is `id` replaced by `change` of it, every other record kept in place. */
  function UpdateKey<T>(s: seq<T>, key: T -> string, id: string, change: T -> T): (r: seq<T>)
    ensures |r| == |s|
    ensures forall i :: 0 <= i < |s| && key(s[i]) != id ==> r[i] == s[i]
    ensures forall i :: 0 <= i < |s| && key(s[i]) == id ==> r[i] == change(s[i])
  {
    seq(|s|, i requires 0 <= i < |s| => if key(s[i]) == id then change(s[i]) else s[i])
  }
}
