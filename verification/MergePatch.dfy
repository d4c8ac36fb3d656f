/** JSON merge patches on a flat object (RFC 7396, section 2): client.MergeFrom sends only what
    changed between two copies, a null removing a member. */
module MergePatch {
  import opened Wrappers

  type Patch<K(==), V(==)> = map<K, Option<V>>

  function Get<K(!new), V>(m: map<K, V>, k: K): Option<V> {
    if k in m then Some(m[k]) else None
  }

  function Diff<K(!new), V>(before: map<K, V>, after: map<K, V>): (d: Patch<K, V>) {
    map k | k in before.Keys + after.Keys && Get(before, k) != Get(after, k) :: Get(after, k)
  }

  function Apply<K(!new), V>(d: Patch<K, V>, target: map<K, V>): (r: map<K, V>)
    ensures forall k :: Get(r, k) == if k in d then d[k] else Get(target, k)
  {
    var kept := map k | k in target && k !in d :: target[k];
    var set' := map k | k in d && d[k].Some? :: d[k].value;
    kept + set'
  }

  lemma SameMembers<K(!new), V>(a: map<K, V>, b: map<K, V>)
    requires forall k :: Get(a, k) == Get(b, k)
    ensures a == b
  {
    forall k | k in a ensures k in b && a[k] == b[k] { assert Get(a, k) == Get(b, k); }
    forall k | k in b ensures k in a { assert Get(a, k) == Get(b, k); }
  }

  /** On an unchanged target the patch reproduces the intended object; on a target someone else
      changed it writes exactly the members that were meant to change and keeps the others. */
  lemma PatchExact<K(!new), V>(before: map<K, V>, after: map<K, V>, target: map<K, V>)
    ensures Apply(Diff(before, after), before) == after
    ensures forall k :: Get(Apply(Diff(before, after), target), k) ==
              if Get(before, k) != Get(after, k) then Get(after, k) else Get(target, k)
  {
    forall k ensures Get(Apply(Diff(before, after), before), k) == Get(after, k) {}
    SameMembers(Apply(Diff(before, after), before), after);
  }

  /** Resending a patch changes nothing. */
  lemma PatchIdempotent<K(!new), V>(d: Patch<K, V>, target: map<K, V>)
    ensures Apply(d, Apply(d, target)) == Apply(d, target)
  {
    SameMembers(Apply(d, Apply(d, target)), Apply(d, target));
  }
}
