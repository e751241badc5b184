/** The status of a node in its cluster, and the order in which statuses compete for mastership. */
module NodeStatus {
  import opened Stores

  datatype Status = Status(master: Name, uuid: Uuid, slavecount: nat, timestamp: nat, reluctant: bool)

  /** The characters decide, then the length. */
  function CompareNames(a: Name, b: Name): int
    decreases |a|
  {
    if a == [] then (if b == [] then 0 else -1)
    else if b == [] then 1
    else if a[0] < b[0] then -1
    else if a[0] > b[0] then 1
    else CompareNames(a[1..], b[1..])
  }

  /** A willing master beats a reluctant one, then more slaves win, then the older one, then the name. */
  function Compare(a: Status, b: Status): int {
    if a.reluctant && !b.reluctant then -1
    else if !a.reluctant && b.reluctant then 1
    else if a.slavecount < b.slavecount then -1
    else if a.slavecount > b.slavecount then 1
    else if a.timestamp > b.timestamp then -1
    else if a.timestamp < b.timestamp then 1
    else CompareNames(a.master, b.master)
  }

  predicate IsMasterOf(m: Status, s: Status) {
    m.master == s.master && m.uuid == s.uuid
  }

  lemma {:induction false} NamesOpposite(a: Name, b: Name)
    ensures CompareNames(a, b) == -CompareNames(b, a)
    ensures CompareNames(a, b) == 0 <==> a == b
    decreases |a|
  {
    if a != [] && b != [] && a[0] == b[0] {
      NamesOpposite(a[1..], b[1..]);
      assert a == [a[0]] + a[1..] && b == [b[0]] + b[1..];
    }
  }

  lemma {:induction false} NamesTransitive(a: Name, b: Name, c: Name)
    requires CompareNames(a, b) <= 0 && CompareNames(b, c) <= 0
    ensures CompareNames(a, c) <= 0
    decreases |a|
  {
    if a != [] && b != [] && c != [] && a[0] == b[0] == c[0] {
      NamesTransitive(a[1..], b[1..], c[1..]);
    }
  }

  /** At the first difference a has the smaller character, or a ends there and b goes on. */
  ghost predicate NameBefore(a: Name, b: Name) {
    exists i :: 0 <= i <= |a| && i < |b| && a[..i] == b[..i] && (i == |a| || a[i] < b[i])
  }

  lemma FirstCharacters(a: Name, b: Name)
    requires a != [] && b != []
    ensures NameBefore(a, b) <==> a[0] < b[0] || (a[0] == b[0] && NameBefore(a[1..], b[1..]))
  {
    if i :| 0 <= i <= |a| && i < |b| && a[..i] == b[..i] && (i == |a| || a[i] < b[i]) {
      if i > 0 {
        assert a[0] == a[..i][0] == b[..i][0] == b[0];
        assert a[1..][..i - 1] == a[..i][1..] && b[1..][..i - 1] == b[..i][1..];
      }
    }
    if a[0] < b[0] {
      assert a[..0] == b[..0];
    }
    if a[0] == b[0] && NameBefore(a[1..], b[1..]) {
      var i :| 0 <= i <= |a[1..]| && i < |b[1..]| && a[1..][..i] == b[1..][..i] && (i == |a[1..]| || a[1..][i] < b[1..][i]);
      assert a[..i + 1] == [a[0]] + a[1..][..i] && b[..i + 1] == [b[0]] + b[1..][..i];
    }
  }

  /** Names compare by the first character in which they differ, then by where they end. */
  lemma {:induction false} NamesDirection(a: Name, b: Name)
    ensures CompareNames(a, b) < 0 <==> NameBefore(a, b)
    decreases |a|
  {
    if a == [] {
      assert b != [] ==> a[..0] == b[..0];
    } else if b == [] {
      assert !NameBefore(a, b);
    } else {
      FirstCharacters(a, b);
      NamesDirection(a[1..], b[1..]);
    }
  }

  /**
   What makes a the better master, clause by clause: it is willing and b is not;
   or it has more slaves; or it is older; or its name comes after b's.
   */
  lemma CompareDirection(a: Status, b: Status)
    ensures Compare(a, b) > 0 <==>
      || (!a.reluctant && b.reluctant)
      || (a.reluctant == b.reluctant && a.slavecount > b.slavecount)
      || (a.reluctant == b.reluctant && a.slavecount == b.slavecount && a.timestamp < b.timestamp)
      || (a.reluctant == b.reluctant && a.slavecount == b.slavecount && a.timestamp == b.timestamp
          && NameBefore(b.master, a.master))
  {
    NamesOpposite(a.master, b.master);
    NamesDirection(b.master, a.master);
  }

  /** s would not be the better master: it is not willing where r is reluctant, and where they agree r has no fewer slaves, and so on. */
  ghost predicate NotBetter(s: Status, r: Status) {
    && (r.reluctant ==> s.reluctant)
    && (s.reluctant == r.reluctant ==> s.slavecount <= r.slavecount)
    && (s.reluctant == r.reluctant && s.slavecount == r.slavecount ==> s.timestamp >= r.timestamp)
    && (s.reluctant == r.reluctant && s.slavecount == r.slavecount && s.timestamp == r.timestamp
        ==> !NameBefore(r.master, s.master))
  }

  lemma NotBetterIff(s: Status, r: Status)
    ensures Compare(s, r) <= 0 <==> NotBetter(s, r)
  {
    CompareDirection(s, r);
    hide NameBefore, Compare;
  }

  /** Any two statuses compare, and one way round only unless they tie. */
  lemma CompareTotal(a: Status, b: Status)
    ensures Compare(a, b) == -Compare(b, a)
  {
    NamesOpposite(a.master, b.master);
  }

  lemma CompareTransitive(a: Status, b: Status, c: Status)
    requires Compare(a, b) <= 0 && Compare(b, c) <= 0
    ensures Compare(a, c) <= 0
    ensures Compare(a, b) < 0 || Compare(b, c) < 0 ==> Compare(a, c) < 0
  {
    if a.reluctant == b.reluctant == c.reluctant && a.slavecount == b.slavecount == c.slavecount
      && a.timestamp == b.timestamp == c.timestamp {
      NamesTransitive(a.master, b.master, c.master);
      NamesOpposite(a.master, b.master);
      NamesOpposite(a.master, c.master);
      NamesOpposite(b.master, c.master);
    }
  }

  /** Statuses tie exactly when they agree on everything but the uuid. */
  lemma CompareTies(a: Status, b: Status)
    ensures Compare(a, b) == 0 <==> a == b.(uuid := a.uuid)
  {
    NamesOpposite(a.master, b.master);
  }
}
