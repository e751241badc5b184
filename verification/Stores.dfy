/** Repositories as values: what a name is bound to, and how one commit changes it. */
module Stores {

  datatype Option<+T> = None | Some(value: T)

  type Name = string
  type Uuid = nat

  datatype Obj = Obj(uuid: Uuid, content: string)

  type Store = map<Name, Obj>

  function Look(s: Store, n: Name): Option<Obj> {
    if n in s then Some(s[n]) else None
  }

  /** Install an object under a name, or remove the name. */
  function Put(s: Store, n: Name, v: Option<Obj>): Store {
    if v.Some? then s[n := v.value] else s - {n}
  }

  /** Two objects with the same uuid are the same object. */
  predicate Coherent(a: Option<Obj>, b: Option<Obj>) {
    a.Some? && b.Some? && a.value.uuid == b.value.uuid ==> a == b
  }

  function UuidOf(v: Option<Obj>): Option<Uuid> {
    if v.Some? then Some(v.value.uuid) else None
  }

  /** Same names with the same uuids. */
  ghost predicate SameUuids(a: Store, b: Store) {
    forall n :: UuidOf(Look(a, n)) == UuidOf(Look(b, n))
  }

  ghost predicate CoherentStores(a: Store, b: Store) {
    forall n :: Coherent(Look(a, n), Look(b, n))
  }

  lemma LookPut(s: Store, n: Name, v: Option<Obj>, m: Name)
    ensures Look(Put(s, n, v), m) == if m == n then v else Look(s, m)
  {
  }

  /** Stores are extensional in what they bind. */
  lemma StoresEqual(a: Store, b: Store)
    requires forall n :: Look(a, n) == Look(b, n)
    ensures a == b
  {
    forall n
      ensures n in a <==> n in b
      ensures n in a && n in b ==> a[n] == b[n]
    {
      assert Look(a, n) == Look(b, n);
    }
  }
}
