/** The chunked enumeration of a repository's names and uuids. */
module Enumerator {
  import opened Stores
  import CopyProtocol

  function Min(a: nat, b: nat): nat {
    if a < b then a else b
  }

  function NameSet(s: seq<Name>): set<Name> {
    set i | 0 <= i < |s| :: s[i]
  }

  /** Iterates over the names of a directory, which it sees in some order. */
  class UuidEnumerator {
    var rest: seq<Name>

    constructor (names: seq<Name>)
      ensures rest == names
    {
      rest := names;
    }

    /** The next names, at most a chunk of them; nothing at the end. */
    method Next(chunk: nat) returns (objectnames: Option<set<Name>>)
      modifies this
      ensures var m := Min(chunk, |old(rest)|);
        && rest == old(rest)[m..]
        && objectnames == if m == 0 then None else Some(NameSet(old(rest)[..m]))
    {
      var names: set<Name> := {};
      var n := chunk;
      var b := 0;
      while n > 0
        invariant 0 <= b <= |rest| && 0 <= n && n + b == chunk
        invariant rest == old(rest) && names == NameSet(rest[..b])
        invariant names == {} <==> b == 0
        decreases n
      {
        if b == |rest| {
          break;
        }
        assert rest[..b + 1] == rest[..b] + [rest[b]];
        names := names + {rest[b]};
        b := b + 1;
        n := n - 1;
      }
      rest := rest[b..];
      if names == {} {
        return None;
      }
      return Some(names);
    }
  }

  /** The uuids of those of the names that exist. */
  method NextBatch(repo: Store, objectnames: set<Name>) returns (uuids: map<Name, Uuid>)
    ensures uuids == CopyProtocol.UuidsOf(repo, objectnames)
  {
    uuids := map[];
    var todo := objectnames;
    while todo != {}
      invariant todo <= objectnames
      invariant uuids == CopyProtocol.UuidsOf(repo, objectnames - todo)
      decreases |todo|
    {
      var n :| n in todo;
      if n in repo {
        uuids := uuids[n := repo[n].uuid];
      }
      todo := todo - {n};
    }
    assert objectnames - todo == objectnames;
  }

  /** What successive calls return, up to the end. */
  function Batches(rest: seq<Name>, chunk: nat): seq<seq<Name>>
    decreases |rest|
  {
    if chunk == 0 || rest == [] then []
    else [rest[..Min(chunk, |rest|)]] + Batches(rest[Min(chunk, |rest|)..], chunk)
  }

  function Flatten(bs: seq<seq<Name>>): seq<Name> {
    if bs == [] then [] else bs[0] + Flatten(bs[1..])
  }

  /** Successive batches are the enumerated names in order, none empty and only the last below the chunk size. */
  lemma {:induction false} BatchesPartition(rest: seq<Name>, chunk: nat)
    requires chunk >= 1
    ensures Flatten(Batches(rest, chunk)) == rest
    ensures forall i :: 0 <= i < |Batches(rest, chunk)| ==> 1 <= |Batches(rest, chunk)[i]| <= chunk
    ensures forall i :: 0 <= i < |Batches(rest, chunk)| - 1 ==> |Batches(rest, chunk)[i]| == chunk
    decreases |rest|
  {
    if rest != [] {
      var m := Min(chunk, |rest|);
      BatchesPartition(rest[m..], chunk);
      assert Batches(rest, chunk)[1..] == Batches(rest[m..], chunk);
      assert rest == rest[..m] + rest[m..];
      assert rest[m..] == [] ==> Batches(rest[m..], chunk) == [];
    }
  }

  lemma {:induction false} DistinctCount(s: seq<Name>)
    requires forall i, j :: 0 <= i < j < |s| ==> s[i] != s[j]
    ensures |NameSet(s)| == |s|
    decreases |s|
  {
    if s != [] {
      var init := s[..|s| - 1];
      DistinctCount(init);
      assert NameSet(s) == NameSet(init) + {s[|s| - 1]};
    }
  }

  /**
   Over a directory nobody changes, what the enumerator returns is what the
   copy protocol expects of a walk over it.
   */
  lemma NextIsAWalk(rest: seq<Name>, chunk: nat)
    requires forall i, j :: 0 <= i < j < |rest| ==> rest[i] != rest[j]
    ensures var m := Min(chunk, |rest|);
      var walk := CopyProtocol.Walk(NameSet(rest), NameSet(rest));
      && CopyProtocol.MayYield(walk, NameSet(rest[..m]), chunk)
      && CopyProtocol.Yield(walk, NameSet(rest[..m])) == CopyProtocol.Walk(NameSet(rest[m..]), NameSet(rest[m..]))
  {
    var m := Min(chunk, |rest|);
    DistinctCount(rest[..m]);
    assert rest == rest[..m] + rest[m..];
    forall n
      ensures n in NameSet(rest) <==> n in NameSet(rest[..m]) || n in NameSet(rest[m..])
    {
      if n in NameSet(rest) {
        var i :| 0 <= i < |rest| && rest[i] == n;
        if i < m {
          assert rest[..m][i] == n;
        } else {
          assert rest[m..][i - m] == n;
        }
      }
    }
    forall i, j | 0 <= i < m && 0 <= j < |rest| - m
      ensures rest[..m][i] != rest[m..][j]
    {
      assert rest[i] != rest[m + j];
    }
    assert NameSet(rest) - NameSet(rest[..m]) == NameSet(rest[m..]);
  }
}
