/**
 A connected client's subscriptions on the server: indexed by the client's
 name, by the repository name, and by repository hierarchy.
 */
module Subscriptions {
  import opened Sets
  import opened Stores
  import opened ObjectNames
  import opened NsView

  // ------------------------------------------------------------ names and their components

  /** The components of a name; empty ones do not count. */
  function Tokens(s: string): seq<string>
    decreases |s|
  {
    if s == [] then []
    else
      var i := FirstSlash(s);
      if i == |s| then [s]
      else if i == 0 then Tokens(s[1..])
      else [s[..i]] + Tokens(s[i + 1..])
  }

  function Join(t: seq<string>): string {
    if t == [] then [] else if |t| == 1 then t[0] else t[0] + "/" + Join(t[1..])
  }

  /** The name of a hierarchy: nothing for the root, otherwise ending in a slash. */
  function HierName(t: seq<string>): string {
    if t == [] then [] else t[0] + "/" + HierName(t[1..])
  }

  predicate Component(c: string) {
    c != [] && FirstSlash(c) == |c|
  }

  predicate IsHier(h: string) {
    h == [] || h[|h| - 1] == '/'
  }

  function Key(h: string): seq<string> {
    if h == [] then [] else Tokens(h[..|h| - 1])
  }

  /** A name the server maps client names to: an object's, or a hierarchy's. */
  predicate Canonical(m: string) {
    m == [] || ValidName(m) || (m[|m| - 1] == '/' && ValidName(m[..|m| - 1]))
  }

  lemma ValidTail(s: string)
    requires ValidName(s) && FirstSlash(s) < |s|
    ensures ValidName(s[FirstSlash(s) + 1..]) && Component(s[..FirstSlash(s)])
    ensures s == s[..FirstSlash(s)] + "/" + s[FirstSlash(s) + 1..]
  {
    TailIsValid(s, FirstSlash(s));
    HeadIsComponent(s, FirstSlash(s));
    SplitHere(s, FirstSlash(s));
    hide ValidName, Component, FirstSlash;
  }

  lemma SplitHere(s: string, i: nat)
    requires i < |s| && s[i] == '/'
    ensures s == s[..i] + "/" + s[i + 1..]
  {
  }

  lemma TailIsValid(s: string, i: nat)
    requires ValidName(s) && i < |s| && s[i] == '/'
    ensures ValidName(s[i + 1..])
  {
    var rest := s[i + 1..];
    assert rest != [] && s[i + 1] != '/';
    forall j | 0 <= j < |rest| - 1 && rest[j] == '/'
      ensures rest[j + 1] != '/'
    {
      assert s[i + 1 + j] == '/';
    }
  }

  lemma HeadIsComponent(s: string, i: nat)
    requires s != [] && s[0] != '/' && i == FirstSlash(s)
    ensures Component(s[..i])
  {
    var c := s[..i];
    assert forall j :: 0 <= j < |c| ==> c[j] == s[j] && c[j] != '/';
  }

  /** A valid name is the join of its components. */
  lemma {:induction false} JoinTokens(s: string)
    requires ValidName(s)
    ensures Tokens(s) != [] && Join(Tokens(s)) == s
    ensures forall c :: c in Tokens(s) ==> Component(c)
    decreases |s|
  {
    var i := FirstSlash(s);
    if i == |s| {
      assert Tokens(s) == [s];
    } else {
      ValidTail(s);
      JoinTokens(s[i + 1..]);
      assert Tokens(s) == [s[..i]] + Tokens(s[i + 1..]);
      assert Tokens(s)[1..] == Tokens(s[i + 1..]);
    }
  }

  /** A hierarchy's name is its components', each followed by a slash. */
  lemma {:induction false} HierTokens(s: string)
    requires ValidName(s)
    ensures HierName(Tokens(s)) == s + "/"
    decreases |s|
  {
    var i := FirstSlash(s);
    if i == |s| {
      assert Tokens(s)[1..] == [];
      assert HierName([s]) == s + "/" + [];
    } else {
      ValidTail(s);
      HierTokens(s[i + 1..]);
      assert Tokens(s) == [s[..i]] + Tokens(s[i + 1..]);
      assert Tokens(s)[1..] == Tokens(s[i + 1..]);
      assert s[..i] + "/" + (s[i + 1..] + "/") == s[..i] + "/" + s[i + 1..] + "/";
    }
  }

  /** A name starts with the hierarchies of its leading components, and what follows are the rest. */
  lemma {:induction false} LeadingHierarchy(t: seq<string>, k: nat)
    requires k < |t|
    ensures Join(t) == HierName(t[..k]) + Join(t[k..])
    decreases k
  {
    if k == 0 {
      assert t[0..] == t && [] + Join(t) == Join(t);
    } else {
      LeadingHierarchy(t[1..], k - 1);
      assert t[..k][1..] == t[1..][..k - 1] && t[1..][k - 1..] == t[k..] && t[..k][0] == t[0];
      Associates(t[0], HierName(t[1..][..k - 1]), Join(t[k..]));
    }
  }

  lemma Associates(c: string, h: string, r: string)
    ensures c + "/" + (h + r) == c + "/" + h + r
  {
  }

  lemma SlashAfter(c: string, h: string, s: string)
    requires c + "/" + h <= s
    ensures |c| < |s| && s[..|c|] == c && s[|c|] == '/'
  {
    assert (c + "/" + h)[|c|] == '/';
    assert s[..|c|] == (c + "/" + h)[..|c|] == c;
  }

  lemma FirstOfJoin(t: seq<string>)
    requires t != []
    ensures var s := Join(t);
      && |t[0]| <= |s| && s[..|t[0]|] == t[0] && (|t[0]| < |s| ==> s[|t[0]|] == '/')
      && (if |t| == 1 then s == t[0] else s == t[0] + "/" + Join(t[1..]))
  {
    if |t| == 1 {
      assert t[0][..|t[0]|] == t[0];
    } else {
      SlashAfter(t[0], Join(t[1..]), Join(t));
    }
  }

  /** A name and a hierarchy it is in have their first component in common. */
  lemma SameStart(c: string, h: string, t: seq<string>)
    requires t != [] && Component(c) && Component(t[0]) && c + "/" + h <= Join(t)
    ensures |t| > 1 && c == t[0] && h <= Join(t[1..])
  {
    FirstOfJoin(t);
    SlashAfter(c, h, Join(t));
    hide Join, Component;
    SameFirst(c, t[0], Join(t));
    DropBoth(c + "/", h, Join(t[1..]));
  }

  /** A hierarchy whose name begins an object's name consists of leading components of it, not of all. */
  lemma {:induction false} PrefixHierarchy(key: seq<string>, t: seq<string>)
    requires t != [] && (forall c :: c in t ==> Component(c)) && (forall c :: c in key ==> Component(c))
    requires HierName(key) <= Join(t)
    ensures |key| < |t| && key == t[..|key|]
    decreases |key|
  {
    hide Component, Join;
    if key != [] {
      assert key[0] in key && t[0] in t;
      SameStart(key[0], HierName(key[1..]), t);
      assert forall x :: x in t[1..] ==> x in t;
      assert forall x :: x in key[1..] ==> x in key;
      PrefixHierarchy(key[1..], t[1..]);
      assert key == [key[0]] + key[1..] && t[..|key|] == [t[0]] + t[1..][..|key| - 1];
    }
  }

  /** Two components a name starts with, the first followed by a slash, the second by a slash or nothing. */
  lemma SameFirst(c: string, d: string, s: string)
    requires Component(c) && Component(d) && |c| < |s| && s[..|c|] == c && s[|c|] == '/'
    requires |d| <= |s| && s[..|d|] == d && (|d| < |s| ==> s[|d|] == '/')
    ensures c == d
  {
    assert |d| < |c| ==> c[|d|] == s[|d|];
    assert |c| < |d| ==> d[|c|] == s[|c|];
    NoSlashIn(c);
    NoSlashIn(d);
  }

  lemma NoSlashIn(c: string)
    requires Component(c)
    ensures forall i :: 0 <= i < |c| ==> c[i] != '/'
  {
  }

  lemma DropBoth(p: string, a: string, b: string)
    requires p + a <= p + b
    ensures a <= b
  {
    assert forall i :: 0 <= i < |a| ==> a[i] == (p + a)[|p| + i] == (p + b)[|p| + i] == b[i];
  }

  // ------------------------------------------------------------ what a change means to a subscription

  /** The change of an object concerns subscriptions to it and to hierarchies it is in. */
  predicate Matches(mapped: string, objname: string) {
    mapped == objname || (IsHier(mapped) && mapped <= objname)
  }

  const DONE := "etc/done/"

  /** The hierarchies of the components from k on, and the object itself. */
  predicate Covered(mapped: string, objname: string, k: nat) {
    var t := Tokens(objname);
    mapped == objname || exists j :: k <= j < |t| && mapped == HierName(t[..j])
  }

  lemma HierNameSplits(m: string)
    requires Canonical(m) && IsHier(m)
    ensures HierName(Key(m)) == m && forall c :: c in Key(m) ==> Component(c)
  {
    if m != [] {
      HierTokens(m[..|m| - 1]);
      JoinTokens(m[..|m| - 1]);
      assert m == m[..|m| - 1] + "/";
    }
  }

  lemma {:induction false} HierNameIsHier(t: seq<string>)
    requires forall c :: c in t ==> Component(c)
    ensures IsHier(HierName(t)) && (t != [] ==> HierName(t) != [])
  {
    if t != [] {
      assert forall c :: c in t[1..] ==> c in t;
      HierNameIsHier(t[1..]);
    }
  }

  /** The leading components of a name make the hierarchies the name is in. */
  lemma LeadingMatches(objname: string, j: nat)
    requires ValidName(objname) && j < |Tokens(objname)|
    ensures var m := HierName(Tokens(objname)[..j]);
      m <= objname && IsHier(m) && m != objname && objname[|m|..] == Join(Tokens(objname)[j..])
  {
    var t := Tokens(objname);
    JoinTokens(objname);
    LeadingHierarchy(t, j);
    assert forall c :: c in t[..j] ==> c in t;
    HierNameIsHier(t[..j]);
  }

  /** The beginning of a valid name up to a slash is a hierarchy's name. */
  lemma PrefixIsCanonical(mapped: string, objname: string)
    requires ValidName(objname) && IsHier(mapped) && mapped <= objname
    ensures Canonical(mapped)
  {
    if mapped != [] {
      var n := mapped[..|mapped| - 1];
      assert forall i :: 0 <= i < |mapped| ==> mapped[i] == objname[i];
      assert n != [] && n[|n| - 1] != '/';
    }
  }

  /** Looking at the object and the hierarchies of all its leading components finds what matches, whatever was subscribed. */
  lemma CoveredIffMatches(mapped: string, objname: string)
    requires ValidName(objname)
    ensures Covered(mapped, objname, 0) <==> Matches(mapped, objname)
  {
    var t := Tokens(objname);
    if Covered(mapped, objname, 0) && mapped != objname {
      var j :| 0 <= j < |t| && mapped == HierName(t[..j]);
      LeadingMatches(objname, j);
    }
    if Matches(mapped, objname) && mapped != objname {
      PrefixIsCanonical(mapped, objname);
      HierNameSplits(mapped);
      JoinTokens(objname);
      PrefixHierarchy(Key(mapped), t);
    }
  }

  lemma {:induction false} HierNameGrows(t: seq<string>, i: nat, j: nat)
    requires i < j <= |t|
    ensures |HierName(t[..i])| < |HierName(t[..j])|
    decreases i
  {
    assert t[..j][1..] == t[1..][..j - 1];
    if i > 0 {
      assert t[..i][1..] == t[1..][..i - 1];
      HierNameGrows(t[1..], i - 1, j - 1);
    }
  }

  // ------------------------------------------------------------ the indexes

  type Subscribed = map<Name, string>

  function Subscribers(subscribed: Subscribed, mapped: string): set<Name> {
    set n | n in subscribed && subscribed[n] == mapped
  }

  function HierSubs(subscribed: Subscribed, key: seq<string>): set<Name> {
    set n | n in subscribed && IsHier(subscribed[n]) && Key(subscribed[n]) == key
  }

  /** The reverse index lists each name's subscribers once, and nothing else. */
  ghost predicate ReverseOk(subscribed: Subscribed, revmap: map<string, seq<Name>>) {
    forall m ::
      && (m in revmap <==> Subscribers(subscribed, m) != {})
      && (m in revmap ==> Distinct(revmap[m]) && forall n :: n in revmap[m] <==> n in Subscribers(subscribed, m))
  }

  /** The hierarchy index counts the subscriptions to each hierarchy there are any to. */
  ghost predicate HierOk(subscribed: Subscribed, hier: map<seq<string>, nat>) {
    forall k ::
      && (k in hier <==> HierSubs(subscribed, k) != {})
      && (k in hier ==> hier[k] == |HierSubs(subscribed, k)|)
  }

  lemma SubscriberAdded(subscribed: Subscribed, name: Name, mapped: string, m: string)
    requires name !in subscribed
    ensures Subscribers(subscribed[name := mapped], m)
         == Subscribers(subscribed, m) + if m == mapped then {name} else {}
    ensures name !in Subscribers(subscribed, m)
  {
  }

  lemma SubscriberRemoved(subscribed: Subscribed, name: Name, m: string)
    requires name in subscribed
    ensures Subscribers(subscribed - {name}, m) == Subscribers(subscribed, m) - {name}
  {
  }

  lemma HierSubAdded(subscribed: Subscribed, name: Name, mapped: string, k: seq<string>)
    requires name !in subscribed
    ensures HierSubs(subscribed[name := mapped], k)
         == HierSubs(subscribed, k) + if IsHier(mapped) && k == Key(mapped) then {name} else {}
    ensures name !in HierSubs(subscribed, k)
  {
  }

  lemma HierSubRemoved(subscribed: Subscribed, name: Name, k: seq<string>)
    requires name in subscribed
    ensures HierSubs(subscribed - {name}, k) == HierSubs(subscribed, k) - {name}
  {
  }

  /** A name added behind the ones that already had the same repository name. */
  function Listed(revmap: map<string, seq<Name>>, mapped: string): seq<Name> {
    if mapped in revmap then revmap[mapped] else []
  }

  lemma ReverseAdded(subscribed: Subscribed, revmap: map<string, seq<Name>>, name: Name, mapped: string)
    requires ReverseOk(subscribed, revmap) && name !in subscribed
    ensures ReverseOk(subscribed[name := mapped], revmap[mapped := Listed(revmap, mapped) + [name]])
  {
    var r2 := revmap[mapped := Listed(revmap, mapped) + [name]];
    forall m
      ensures m in r2 <==> Subscribers(subscribed[name := mapped], m) != {}
      ensures m in r2 ==> Distinct(r2[m]) && forall n :: n in r2[m] <==> n in Subscribers(subscribed[name := mapped], m)
    {
      SubscriberAdded(subscribed, name, mapped, m);
      if m == mapped {
        assert forall n :: n in r2[m] <==> n in Listed(revmap, m) || n == name;
        assert m !in revmap ==> forall n :: n !in Subscribers(subscribed, m);
      }
    }
  }

  function Without(names: seq<Name>, name: Name): seq<Name> {
    if names == [] then []
    else if names[0] == name then names[1..]
    else [names[0]] + Without(names[1..], name)
  }

  lemma {:induction false} WithoutOne(names: seq<Name>, name: Name)
    requires Distinct(names) && name in names
    ensures Distinct(Without(names, name))
    ensures forall n :: n in Without(names, name) <==> n in names && n != name
    decreases |names|
  {
    var rest := names[1..];
    assert names == [names[0]] + rest;
    assert names[0] !in rest;
    if names[0] != name {
      WithoutOne(rest, name);
      var w := Without(rest, name);
      assert names[0] !in w;
    }
  }

  function Unlisted(revmap: map<string, seq<Name>>, mapped: string, name: Name): map<string, seq<Name>>
    requires mapped in revmap
  {
    if Without(revmap[mapped], name) == [] then revmap - {mapped}
    else revmap[mapped := Without(revmap[mapped], name)]
  }

  lemma ReverseRemoved(subscribed: Subscribed, revmap: map<string, seq<Name>>, name: Name)
    requires ReverseOk(subscribed, revmap) && name in subscribed
    ensures subscribed[name] in revmap && name in revmap[subscribed[name]]
    ensures ReverseOk(subscribed - {name}, Unlisted(revmap, subscribed[name], name))
  {
    var mapped := subscribed[name];
    assert name in Subscribers(subscribed, mapped);
    WithoutOne(revmap[mapped], name);
    var r2 := Unlisted(revmap, mapped, name);
    forall m
      ensures m in r2 <==> Subscribers(subscribed - {name}, m) != {}
      ensures m in r2 ==> Distinct(r2[m]) && forall n :: n in r2[m] <==> n in Subscribers(subscribed - {name}, m)
    {
      SubscriberRemoved(subscribed, name, m);
      if m == mapped {
        var w := Without(revmap[mapped], name);
        assert forall n :: n in w <==> n in Subscribers(subscribed - {name}, m);
        assert w != [] ==> w[0] in w;
      } else {
        assert name !in Subscribers(subscribed, m);
        assert Subscribers(subscribed - {name}, m) == Subscribers(subscribed, m);
      }
    }
  }

  function Counted(hier: map<seq<string>, nat>, k: seq<string>): map<seq<string>, nat> {
    hier[k := if k in hier then hier[k] + 1 else 1]
  }

  function Uncounted(hier: map<seq<string>, nat>, k: seq<string>): map<seq<string>, nat>
    requires k in hier && hier[k] > 0
  {
    if hier[k] == 1 then hier - {k} else hier[k := hier[k] - 1]
  }

  lemma HierAdded(subscribed: Subscribed, hier: map<seq<string>, nat>, name: Name, mapped: string)
    requires HierOk(subscribed, hier) && name !in subscribed
    ensures HierOk(subscribed[name := mapped], if IsHier(mapped) then Counted(hier, Key(mapped)) else hier)
  {
    var h2 := if IsHier(mapped) then Counted(hier, Key(mapped)) else hier;
    forall k
      ensures k in h2 <==> HierSubs(subscribed[name := mapped], k) != {}
      ensures k in h2 ==> h2[k] == |HierSubs(subscribed[name := mapped], k)|
    {
      HierSubAdded(subscribed, name, mapped, k);
      if IsHier(mapped) && k == Key(mapped) {
        assert name in HierSubs(subscribed[name := mapped], k);
      } else {
        assert HierSubs(subscribed[name := mapped], k) == HierSubs(subscribed, k);
      }
    }
  }

  lemma HierRemoved(subscribed: Subscribed, hier: map<seq<string>, nat>, name: Name)
    requires HierOk(subscribed, hier) && name in subscribed
    ensures IsHier(subscribed[name]) ==> Key(subscribed[name]) in hier && hier[Key(subscribed[name])] > 0
    ensures HierOk(subscribed - {name},
                   if IsHier(subscribed[name]) then Uncounted(hier, Key(subscribed[name])) else hier)
  {
    var mapped := subscribed[name];
    if IsHier(mapped) {
      assert name in HierSubs(subscribed, Key(mapped));
    }
    var h2 := if IsHier(mapped) then Uncounted(hier, Key(mapped)) else hier;
    forall k
      ensures k in h2 <==> HierSubs(subscribed - {name}, k) != {}
      ensures k in h2 ==> h2[k] == |HierSubs(subscribed - {name}, k)|
    {
      HierSubRemoved(subscribed, name, k);
      if IsHier(mapped) && k == Key(mapped) {
        assert |HierSubs(subscribed - {name}, k)| == hier[k] - 1;
      } else {
        assert name !in HierSubs(subscribed, k);
        assert HierSubs(subscribed - {name}, k) == HierSubs(subscribed, k);
      }
    }
  }

  // ------------------------------------------------------------ walking up from an object

  predicate OncePerName(msgs: seq<(Name, string)>) {
    forall i, j :: 0 <= i < j < |msgs| ==> msgs[i].0 != msgs[j].0
  }

  /** What follows the subscription's repository name in the object's. */
  function Suffix(objname: string, mapped: string): string {
    if |mapped| <= |objname| then objname[|mapped|..] else []
  }

  /** The messages are those for the object and its hierarchies from the k-th on. */
  ghost predicate TellsFrom(subscribed: Subscribed, objname: string, k: nat, msgs: seq<(Name, string)>) {
    forall n, s :: (n, s) in msgs <==>
      n in subscribed && Covered(subscribed[n], objname, k) && s == Suffix(objname, subscribed[n])
  }

  lemma {:induction false} JoinLength(t: seq<string>)
    requires forall c :: c in t ==> Component(c)
    ensures |HierName(t)| == if t == [] then 0 else |Join(t)| + 1
    ensures t != [] ==> Join(t) != []
  {
    if t != [] {
      assert t[0] in t;
      assert forall c :: c in t[1..] ==> c in t;
      JoinLength(t[1..]);
    }
  }

  /** The next hierarchy up, as the index spells it. */
  lemma NextHierarchy(objname: string, k: nat)
    requires ValidName(objname) && k < |Tokens(objname)|
    ensures var t := Tokens(objname);
      var l := if |Join(t[..k])| > 0 then |Join(t[..k])| + 1 else 0;
      l <= |objname| && objname[..l] == HierName(t[..k]) && l == |HierName(t[..k])|
  {
    var t := Tokens(objname);
    JoinTokens(objname);
    assert forall c :: c in t[..k] ==> c in t;
    JoinLength(t[..k]);
    LeadingMatches(objname, k);
  }

  lemma CoverOneMore(mapped: string, objname: string, k: nat)
    requires k < |Tokens(objname)|
    ensures Covered(mapped, objname, k) <==> Covered(mapped, objname, k + 1) || mapped == HierName(Tokens(objname)[..k])
  {
    var t := Tokens(objname);
    if Covered(mapped, objname, k) && mapped != objname {
      var j :| k <= j < |t| && mapped == HierName(t[..j]);
      assert j == k || j >= k + 1;
    }
  }

  /** No other hierarchy of the object has the same name, nor has the object. */
  lemma CoveredApart(objname: string, k: nat)
    requires ValidName(objname) && k < |Tokens(objname)|
    ensures !Covered(HierName(Tokens(objname)[..k]), objname, k + 1)
  {
    var t := Tokens(objname);
    LeadingMatches(objname, k);
    forall j | k + 1 <= j < |t|
      ensures HierName(t[..k]) != HierName(t[..j])
    {
      HierNameGrows(t, k, j);
    }
  }

  lemma TellMore(subscribed: Subscribed, objname: string, k: nat, msgs: seq<(Name, string)>, more: seq<(Name, string)>)
    requires ValidName(objname) && k < |Tokens(objname)|
    requires OncePerName(msgs) && TellsFrom(subscribed, objname, k + 1, msgs) && OncePerName(more)
    requires var m := HierName(Tokens(objname)[..k]);
      forall n, s :: (n, s) in more <==> n in subscribed && subscribed[n] == m && s == Suffix(objname, m)
    ensures OncePerName(msgs + more) && TellsFrom(subscribed, objname, k, msgs + more)
  {
    CoveredApart(objname, k);
    forall i, j | 0 <= i < |msgs| && 0 <= j < |more|
      ensures msgs[i].0 != more[j].0
    {
      assert (msgs[i].0, msgs[i].1) in msgs && (more[j].0, more[j].1) in more;
    }
    forall n, s
      ensures (n, s) in msgs + more <==>
        n in subscribed && Covered(subscribed[n], objname, k) && s == Suffix(objname, subscribed[n])
    {
      assert (n, s) in msgs + more <==> (n, s) in msgs || (n, s) in more;
      if n in subscribed {
        CoverOneMore(subscribed[n], objname, k);
      }
    }
  }

  /** A hierarchy the index does not have has no subscribers. */
  lemma NobodyThere(subscribed: Subscribed, hier: map<seq<string>, nat>, objname: string, k: nat, n: Name)
    requires HierOk(subscribed, hier) && n in subscribed
    requires ValidName(objname) && k < |Tokens(objname)| && Tokens(objname)[..k] !in hier
    ensures subscribed[n] != HierName(Tokens(objname)[..k])
  {
    var t, m := Tokens(objname), subscribed[n];
    assert n !in HierSubs(subscribed, t[..k]);
    if m == HierName(t[..k]) {
      LeadingMatches(objname, k);
      PrefixIsCanonical(m, objname);
      HierNameSplits(m);
      JoinTokens(objname);
      PrefixHierarchy(Key(m), t);
      var j := |Key(m)|;
      if j < k {
        HierNameGrows(t, j, k);
      }
      if k < j {
        HierNameGrows(t, k, j);
      }
    }
  }

  lemma NobodyTold(subscribed: Subscribed, hier: map<seq<string>, nat>, objname: string, k: nat, msgs: seq<(Name, string)>)
    requires HierOk(subscribed, hier)
    requires ValidName(objname) && k < |Tokens(objname)| && Tokens(objname)[..k] !in hier
    requires TellsFrom(subscribed, objname, k + 1, msgs)
    ensures TellsFrom(subscribed, objname, k, msgs)
  {
    forall n | n in subscribed
      ensures Covered(subscribed[n], objname, k) <==> Covered(subscribed[n], objname, k + 1)
    {
      NobodyThere(subscribed, hier, objname, k, n);
      CoverOneMore(subscribed[n], objname, k);
    }
  }

  /** The messages are one for each matching subscription. */
  ghost predicate TellsExactly(subscribed: Subscribed, objname: string, msgs: seq<(Name, string)>) {
    && OncePerName(msgs)
    && forall n, s :: (n, s) in msgs <==>
      n in subscribed && Matches(subscribed[n], objname) && s == Suffix(objname, subscribed[n])
  }

  lemma TellsAll(subscribed: Subscribed, objname: string, msgs: seq<(Name, string)>)
    requires ValidName(objname)
    requires OncePerName(msgs) && TellsFrom(subscribed, objname, 0, msgs)
    ensures TellsExactly(subscribed, objname, msgs)
  {
    forall n | n in subscribed
      ensures Covered(subscribed[n], objname, 0) <==> Matches(subscribed[n], objname)
    {
      CoveredIffMatches(subscribed[n], objname);
    }
  }

  lemma ObjectTold(subscribed: Subscribed, objname: string, msgs: seq<(Name, string)>)
    requires forall n, s :: (n, s) in msgs <==> n in subscribed && subscribed[n] == objname && s == ""
    ensures TellsFrom(subscribed, objname, |Tokens(objname)|, msgs)
  {
    assert objname[|objname|..] == "";
  }

  lemma OneLess(subscribed: Subscribed, name: Name)
    requires name in subscribed
    ensures |subscribed - {name}| == |subscribed| - 1
  {
    assert subscribed.Keys == (subscribed - {name}).Keys + {name};
    assert |subscribed| == |subscribed.Keys| && |subscribed - {name}| == |(subscribed - {name}).Keys|;
  }

  // ------------------------------------------------------------ requests to subscribe

  datatype ReqStatus = Processed | BadName | TooMany | NoPermission

  predicate CanonicalView(view: View) {
    forall n :: n in view ==> view[n].path == [] || ValidName(view[n].path)
  }

  /** An object's name, a hierarchy's, or nothing. */
  predicate Subscribable(name: Name) {
    name == [] || ValidName(if name[|name| - 1] == '/' then name[..|name| - 1] else name)
  }

  /** The repository name a client's name stands for; a hierarchy is mapped as if it were an object in it. */
  function SubscribedAs(view: View, name: Name): Option<string> {
    if IsHier(name) then
      var m := FromClient(view, name + "x", false);
      if m.None? || m.value == [] then None else Some(m.value[..|m.value| - 1])
    else FromClient(view, name, false)
  }

  function BeginStatus(view: View, maxsubs: nat, subscribed: Subscribed, name: Name): ReqStatus {
    if !Subscribable(name) then BadName
    else if |subscribed| >= maxsubs then TooMany
    else if FromClient(view, if IsHier(name) then name + "x" else name, false).None? then NoPermission
    else if name in subscribed then TooMany
    else Processed
  }

  lemma ValidUnder(path: string, rest: string)
    requires (path == [] || ValidName(path)) && ValidName(rest)
    ensures ValidName(Under(path, rest))
  {
    if path != [] {
      var u := path + "/" + rest;
      forall i | 0 <= i < |u| - 1 && u[i] == '/'
        ensures u[i + 1] != '/'
      {
        if i < |path| {
          assert path[i] == '/';
        } else if i > |path| {
          assert rest[i - |path| - 1] == '/';
        }
      }
    }
  }

  lemma ValidRest(view: View, name: string)
    requires ValidName(name)
    ensures ValidName(NsView.Rest(view, name))
  {
    if Mapped(view, name) {
      ValidTail(name);
    }
  }

  lemma ValidExtended(h: string)
    requires h == [] || (h[|h| - 1] == '/' && ValidName(h[..|h| - 1]))
    ensures ValidName(h + "x")
  {
    var u := h + "x";
    forall i | 0 <= i < |u| - 1 && u[i] == '/'
      ensures u[i + 1] != '/'
    {
      if i < |h| - 1 {
        assert h[..|h| - 1][i] == '/';
        if i < |h| - 2 {
          assert h[..|h| - 1][i + 1] == u[i + 1];
        }
      }
    }
  }

  lemma UnderEnds(path: string, rest: string)
    requires rest != [] && (|rest| == 1 || rest[|rest| - 2] == '/')
    ensures var u := Under(path, rest);
      u != [] && (|u| > 1 ==> u[|u| - 2] == '/')
  {
  }

  /** The letter appended to a hierarchy's name is still there when the name is mapped. */
  lemma MappedIsSome(view: View, name: Name)
    requires FromClient(view, if IsHier(name) then name + "x" else name, false).Some?
    ensures SubscribedAs(view, name).Some?
  {
    if IsHier(name) {
      RestOfHierarchy(view, name);
    }
  }

  /** Under a view of object names a valid client name is subscribed as an object's or a hierarchy's name. */
  lemma MappedIsCanonical(view: View, name: Name)
    requires CanonicalView(view) && Subscribable(name)
    requires FromClient(view, if IsHier(name) then name + "x" else name, false).Some?
    ensures SubscribedAs(view, name).Some? && Canonical(SubscribedAs(view, name).value)
  {
    hide ValidName, NsView.Rest, Under, Applies, Mapped, FirstSlash, Canonical;
    if IsHier(name) {
      ValidExtended(name);
      RestOfHierarchy(view, name);
      MappedIsValid(view, name + "x");
      var path, rest := Applies(view, name + "x").value.path, NsView.Rest(view, name + "x");
      UnderEnds(path, rest);
      ValidShortened(Under(path, rest));
    } else {
      MappedIsValid(view, name);
      ValidIsCanonical(FromClient(view, name, false).value);
    }
  }

  lemma ValidIsCanonical(m: string)
    requires ValidName(m)
    ensures Canonical(m)
  {
  }

  lemma MappedIsValid(view: View, n: string)
    requires CanonicalView(view) && ValidName(n) && FromClient(view, n, false).Some?
    ensures ValidName(FromClient(view, n, false).value)
  {
    ValidRest(view, n);
    ValidUnder(Applies(view, n).value.path, NsView.Rest(view, n));
  }

  lemma RestOfHierarchy(view: View, h: string)
    requires IsHier(h)
    ensures var rest := NsView.Rest(view, h + "x");
      rest == "x" || (|rest| > 1 && rest[|rest| - 2] == '/')
  {
  }

  lemma ValidShortened(u: string)
    requires ValidName(u) && (|u| > 1 ==> u[|u| - 2] == '/')
    ensures Canonical(u[..|u| - 1])
  {
    if |u| > 1 {
      var h := u[..|u| - 1];
      var n := h[..|h| - 1];
      assert |u| > 2 && u[|u| - 3] != '/';
      forall i | 0 <= i < |n| - 1 && n[i] == '/'
        ensures n[i + 1] != '/'
      {
        assert u[i] == '/';
      }
    }
  }

  /**
   What a subscriber of a hierarchy is told names the object that changed: the
   client's hierarchy followed by the suffix maps to it.
   */
  lemma ToldNameMapsBack(view: View, h: Name, objname: string)
    requires h != [] && IsHier(h) && SubscribedAs(view, h).Some?
    requires ValidName(objname) && Matches(SubscribedAs(view, h).value, objname)
    requires SubscribedAs(view, h).value != objname
    ensures FromClient(view, h + Suffix(objname, SubscribedAs(view, h).value), false) == Some(objname)
  {
    var m := SubscribedAs(view, h).value;
    var s := Suffix(objname, m);
    assert objname == m + s && m + [] == m;
    HierarchyCommutes(view, h, s, false);
  }

  /**
   The repository name of a subscription written out: an object's name is mapped
   as it is, and a hierarchy's is what every name in it is mapped under.
   */
  lemma SubscribedAsIs(view: View, name: Name)
    requires SubscribedAs(view, name).Some?
    ensures !IsHier(name) ==> FromClient(view, name, false) == SubscribedAs(view, name)
    ensures IsHier(name) ==> FromClient(view, name + "x", false) == Some(SubscribedAs(view, name).value + "x")
  {
    if IsHier(name) {
      EndsWithRest(Applies(view, name + "x").value.path, NsView.Rest(view, name + "x"));
      RestEndsWithX(view, name);
    }
  }

  lemma RestEndsWithX(view: View, name: Name)
    ensures var rest := NsView.Rest(view, name + "x"); rest != [] && rest[|rest| - 1] == 'x'
  {
    var s := name + "x";
    assert s[|s| - 1] == 'x' && FirstSlash(s) + 1 != |s|;
  }

  lemma EndsWithRest(path: string, rest: string)
    requires rest != []
    ensures var u := Under(path, rest);
      u != [] && u[|u| - 1] == rest[|rest| - 1] && u == u[..|u| - 1] + [rest[|rest| - 1]]
  {
  }

  /** The answer to a request, written out: what is refused for which reason, and what is left. */
  lemma BeginStatusIs(view: View, maxsubs: nat, subscribed: Subscribed, name: Name)
    ensures var status := BeginStatus(view, maxsubs, subscribed, name);
      var readable := FromClient(view, if IsHier(name) then name + "x" else name, false).Some?;
      && (status == BadName <==> !Subscribable(name))
      && (status == NoPermission <==> Subscribable(name) && |subscribed| < maxsubs && !readable)
      && (status == TooMany <==> Subscribable(name) && (|subscribed| >= maxsubs || (readable && name in subscribed)))
      && (status == Processed <==> Subscribable(name) && |subscribed| < maxsubs && readable && name !in subscribed)
  {
  }

  /**
   Under a view of object names, one who subscribed to an object is told of a
   change exactly if the name maps to the object that changed, and then of
   nothing else.
   */
  lemma ObjectSubscriberIsTold(view: View, subscribed: Subscribed, name: Name, objname: string, msgs: seq<(Name, string)>)
    requires CanonicalView(view) && ValidName(name) && name in subscribed && SubscribedAs(view, name) == Some(subscribed[name])
    requires ValidName(objname) && TellsExactly(subscribed, objname, msgs)
    ensures forall s :: (name, s) in msgs <==> FromClient(view, name, false) == Some(objname) && s == ""
  {
    assert !IsHier(name);
    MappedIsValid(view, name);
    assert ValidName(subscribed[name]) && !IsHier(subscribed[name]);
    assert subscribed[name] == objname ==> Suffix(objname, subscribed[name]) == "";
    hide FromClient, ValidName, CanonicalView;
  }

  // ------------------------------------------------------------ the subscriptions of a connection

  class SubscriptionIndex {
    var revmap: map<string, seq<Name>>
    var subscribed: Subscribed
    var hier: map<seq<string>, nat>
    var cnt: nat

    ghost predicate Valid()
      reads this
    {
      ReverseOk(subscribed, revmap) && HierOk(subscribed, hier) && cnt == |subscribed|
    }

    constructor ()
      ensures Valid() && subscribed == map[]
    {
      revmap, subscribed, hier, cnt := map[], map[], map[], 0;
      new;
      assert forall m :: Subscribers(map[], m) == {};
      assert forall k :: HierSubs(map[], k) == {};
    }

    /** Refused if the client already has a subscription of that name. */
    method AddSub(name: Name, mapped: string) returns (ok: bool)
      requires Valid()
      modifies this
      ensures Valid() && ok == (name !in old(subscribed))
      ensures subscribed == if ok then old(subscribed)[name := mapped] else old(subscribed)
    {
      if name in subscribed {
        return false;
      }
      ReverseAdded(subscribed, revmap, name, mapped);
      HierAdded(subscribed, hier, name, mapped);
      revmap := revmap[mapped := Listed(revmap, mapped) + [name]];
      subscribed := subscribed[name := mapped];
      if IsHier(mapped) {
        hier := Counted(hier, Key(mapped));
      }
      cnt := cnt + 1;
      return true;
    }

    /** The hierarchy of a subscription is always there to be counted down. */
    method DelSub(name: Name)
      requires Valid()
      modifies this
      ensures Valid() && subscribed == old(subscribed) - {name}
    {
      if name in subscribed {
        var mapped := subscribed[name];
        ReverseRemoved(subscribed, revmap, name);
        HierRemoved(subscribed, hier, name);
        if IsHier(mapped) {
          assert Key(mapped) in hier;
          hier := Uncounted(hier, Key(mapped));
        }
        revmap := Unlisted(revmap, mapped, name);
        OneLess(subscribed, name);
        subscribed := subscribed - {name};
        cnt := cnt - 1;
      }
    }

    /** Tell everyone subscribed to exactly this repository name. */
    method SendUpdate(m: string, suffix: string) returns (msgs: seq<(Name, string)>)
      requires Valid()
      ensures OncePerName(msgs)
      ensures forall n, s :: (n, s) in msgs <==> n in subscribed && subscribed[n] == m && s == suffix
    {
      msgs := [];
      var names := Listed(revmap, m);
      var i := 0;
      while i < |names|
        invariant 0 <= i <= |names| && |msgs| == i
        invariant forall j :: 0 <= j < i ==> msgs[j] == (names[j], suffix)
      {
        msgs := msgs + [(names[i], suffix)];
        i := i + 1;
      }
      assert m !in revmap ==> Subscribers(subscribed, m) == {};
      assert forall n :: n in names <==> n in Subscribers(subscribed, m);
      forall n, s
        ensures (n, s) in msgs <==> n in subscribed && subscribed[n] == m && s == suffix
      {
        if n in names && s == suffix {
          var j :| 0 <= j < |names| && names[j] == n;
          assert msgs[j] == (n, s);
        }
      }
    }

    /**
     Tell the client of the change of an object: exactly one message for each
     subscription the change matches, naming the subscription and what follows
     its hierarchy in the object's name.
     */
    method Notify(objname: string) returns (msgs: seq<(Name, string)>)
      requires Valid() && ValidName(objname)
      ensures if "etc/done/" <= objname then msgs == [] else TellsExactly(subscribed, objname, msgs)
    {
      if DONE <= objname {
        return [];
      }
      msgs := SendUpdate(objname, "");
      ObjectTold(subscribed, objname, msgs);
      var key := Tokens(objname);
      var k := |key|;
      while k > 0
        invariant 0 <= k <= |key| && OncePerName(msgs) && TellsFrom(subscribed, objname, k, msgs)
      {
        k := k - 1;
        if key[..k] in hier {
          var more := TellHierarchy(objname, k);
          TellMore(subscribed, objname, k, msgs, more);
          msgs := msgs + more;
        } else {
          NobodyTold(subscribed, hier, objname, k, msgs);
        }
      }
      TellsAll(subscribed, objname, msgs);
    }

    method TellHierarchy(objname: string, k: nat) returns (msgs: seq<(Name, string)>)
      requires Valid() && ValidName(objname) && k < |Tokens(objname)|
      ensures OncePerName(msgs)
      ensures var m := HierName(Tokens(objname)[..k]);
        forall n, s :: (n, s) in msgs <==> n in subscribed && subscribed[n] == m && s == Suffix(objname, m)
    {
      NextHierarchy(objname, k);
      var l := |Join(Tokens(objname)[..k])|;
      if l > 0 {
        l := l + 1;
      }
      msgs := SendUpdate(objname[..l], objname[l..]);
    }

    /** A client's request to subscribe: the name is checked, counted against the limit and mapped. */
    method BeginSub(view: View, maxsubs: nat, name: Name) returns (status: ReqStatus)
      requires Valid()
      modifies this
      ensures Valid() && status == BeginStatus(view, maxsubs, old(subscribed), name)
      ensures subscribed == if status.Processed? then old(subscribed)[name := SubscribedAs(view, name).value]
                            else old(subscribed)
      ensures |old(subscribed)| <= maxsubs ==> |subscribed| <= maxsubs
      ensures status.Processed? ==>
        && Subscribable(name) && |old(subscribed)| < maxsubs && name !in old(subscribed)
        && (if name == "" || name[|name| - 1] == '/'
            then FromClient(view, name + "x", false) == Some(subscribed[name] + "x")
            else FromClient(view, name, false) == Some(subscribed[name]))
      ensures status.BadName? <==> !Subscribable(name)
      ensures status.NoPermission? ==> FromClient(view, if IsHier(name) then name + "x" else name, false).None?
      ensures status.TooMany? ==> |old(subscribed)| >= maxsubs || name in old(subscribed)
    {
      var slash := false;
      var n := name;
      if |name| > 0 {
        if name[|name| - 1] == '/' {
          n := name[..|name| - 1];
          slash := true;
        }
        EncodesIffValid(n);
        var encoded := EncodeObjectName(n);
        if encoded.None? {
          return BadName;
        }
      } else {
        slash := true;
      }
      if cnt >= maxsubs {
        return TooMany;
      }
      var mapped := FromClient(view, if slash then name + "x" else name, false);
      if mapped.None? {
        return NoPermission;
      }
      MappedIsSome(view, name);
      SubscribedAsIs(view, name);
      var ok := AddSub(name, if slash then mapped.value[..|mapped.value| - 1] else mapped.value);
      return if ok then Processed else TooMany;
    }
  }
}
