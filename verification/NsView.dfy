/** A client's view of the repository: top-level names mapped to repository hierarchies. */
module NsView {
  import opened Stores

  datatype Mapping = Mapping(path: string, rw: bool)

  type View = map<string, Mapping>

  /** The position of the first slash, or the length if there is none. */
  function FirstSlash(s: string): (i: nat)
    ensures i <= |s| && (i < |s| ==> s[i] == '/') && forall j :: 0 <= j < i ==> s[j] != '/'
  {
    if s == [] || s[0] == '/' then 0 else 1 + FirstSlash(s[1..])
  }

  /** Whether the name's first component is mapped on its own. */
  predicate Mapped(view: View, name: string) {
    var i := FirstSlash(name);
    0 < i < |name| && name[..i] in view
  }

  /** The mapping that applies to the name, and what of the name it leaves. */
  function Applies(view: View, name: string): Option<Mapping> {
    if Mapped(view, name) then Some(view[name[..FirstSlash(name)]])
    else if "" in view then Some(view[""])
    else None
  }

  function Rest(view: View, name: string): string {
    if Mapped(view, name) then name[FirstSlash(name) + 1..] else name
  }

  function Under(path: string, rest: string): string {
    if path != [] && rest != [] then path + "/" + rest else path + rest
  }

  /** The repository name, or nothing if the client may not use the name. */
  function FromClient(view: View, name: string, write: bool): Option<string> {
    var m := Applies(view, name);
    if m.None? || (write && !m.value.rw) then None
    else Some(Under(m.value.path, Rest(view, name)))
  }

  function FromClientDir(view: View, dirname: string): Option<string> {
    if dirname == [] then FromClient(view, dirname, false)
    else
      var n := FromClient(view, dirname + "/" + ".", false);
      if n.None? then None
      else if |n.value| >= 2 then Some(n.value[..|n.value| - 2])
      else Some(dirname)
  }

  lemma FirstSlashIs(s: string, i: nat)
    requires i < |s| && s[i] == '/' && forall j :: 0 <= j < i ==> s[j] != '/'
    ensures FirstSlash(s) == i
  {
    var k := FirstSlash(s);
    assert !(k < i);
  }

  /** Whether the first component of a hierarchy's name is mapped on its own. */
  predicate HierarchyMapped(view: View, h: string) {
    var i := FirstSlash(h);
    0 < i < |h| && h[..i] in view
  }

  function HierarchyMapping(view: View, h: string): Option<Mapping> {
    if HierarchyMapped(view, h) then Some(view[h[..FirstSlash(h)]])
    else if "" in view then Some(view[""])
    else None
  }

  /** What is left of a hierarchy's name under the mapping that applies to it. */
  function HierarchyRest(view: View, h: string): string {
    if HierarchyMapped(view, h) then h[FirstSlash(h) + 1..] else h
  }

  lemma FirstSlashPrefix(h: string, s: string)
    requires FirstSlash(h) < |h|
    ensures FirstSlash(h + s) == FirstSlash(h)
    ensures (h + s)[..FirstSlash(h)] == h[..FirstSlash(h)]
    ensures (h + s)[FirstSlash(h) + 1..] == h[FirstSlash(h) + 1..] + s
  {
    FirstSlashIs(h + s, FirstSlash(h));
  }

  lemma RestInHierarchy(view: View, h: string, s: string)
    requires FirstSlash(h) < |h| && s != []
    ensures Applies(view, h + s) == HierarchyMapping(view, h)
    ensures Rest(view, h + s) == HierarchyRest(view, h) + s
  {
    FirstSlashPrefix(h, s);
    assert Mapped(view, h + s) <==> HierarchyMapped(view, h);
  }

  lemma UnderExtends(path: string, r: string, s: string)
    requires s != []
    ensures Under(path, r + "x") != [] && Under(path, r + s) == Under(path, r + "x")[..|Under(path, r + "x")| - 1] + s
  {
    var prefix := if path != [] then path + "/" + r else path + r;
    assert Under(path, r + s) == prefix + s;
    assert Under(path, r + "x") == prefix + "x";
    assert (prefix + "x")[..|prefix|] == prefix;
  }

  /**
   The mapping of a hierarchy carries over to every object in it: the name a
   subscriber is told together with the suffix is the object that changed.
   */
  lemma HierarchyCommutes(view: View, h: string, s: string, write: bool)
    requires h != [] && h[|h| - 1] == '/' && s != []
    ensures FromClient(view, h + s, write).Some? <==> FromClient(view, h + "x", write).Some?
    ensures FromClient(view, h + s, write).Some? ==>
      var hx := FromClient(view, h + "x", write).value;
      |hx| > 0 && FromClient(view, h + s, write).value == hx[..|hx| - 1] + s
  {
    assert h[|h| - 1] == '/' && FirstSlash(h) < |h|;
    RestInHierarchy(view, h, s);
    RestInHierarchy(view, h, "x");
    hide Applies, Rest, HierarchyRest, HierarchyMapping, Under;
    var m := HierarchyMapping(view, h);
    if m.Some? {
      UnderExtends(m.value.path, HierarchyRest(view, h), s);
    }
  }

  /** What the root namespace puts in front of a name. */
  function RootPrefix(view: View): string
    requires "" in view
  {
    if view[""].path == [] then [] else view[""].path + "/"
  }

  lemma SamePrefix(a: string, b: string, rest: string)
    requires rest != [] && b != []
    ensures Under(a, rest) == Under(b, rest) <==> a == b
  {
    assert |Under(b, rest)| == |b| + 1 + |rest|;
    if a != [] && |a| == |b| {
      assert (a + "/" + rest)[..|a|] == a;
      assert (b + "/" + rest)[..|b|] == b;
    }
  }

  /**
   At the root this holds exactly for the objects whose first component is not
   mapped elsewhere than where the root mapping would put it.
   */
  lemma RootCommutesIff(view: View, s: string)
    requires "" in view && s != [] && s[|s| - 1] != '/'
    ensures FromClient(view, "x", false) == Some(RootPrefix(view) + "x")
    ensures FromClient(view, s, false) == Some(RootPrefix(view) + s)
      <==> (Mapped(view, s) ==> view[s[..FirstSlash(s)]].path == RootPrefix(view) + s[..FirstSlash(s)])
  {
    assert FirstSlash("x") == 1;
    if Mapped(view, s) {
      MappedAtRoot(view[s[..FirstSlash(s)]].path, RootPrefix(view), s);
    }
  }

  lemma MappedAtRoot(path: string, root: string, s: string)
    requires 0 < FirstSlash(s) < |s| && s[|s| - 1] != '/'
    ensures Under(path, s[FirstSlash(s) + 1..]) == root + s <==> path == root + s[..FirstSlash(s)]
  {
    var i := FirstSlash(s);
    var c, rest := s[..i], s[i + 1..];
    assert |rest| > 0 && |root + c| > 0;
    SplitAtSlash(root, s, i);
    hide FirstSlash, Under;
    SamePrefix(path, root + c, rest);
  }

  lemma SplitAtSlash(root: string, s: string, i: nat)
    requires i < |s| && s[i] == '/'
    ensures root + s == root + s[..i] + "/" + s[i + 1..]
  {
    assert s == s[..i] + "/" + s[i + 1..];
    assert root + (s[..i] + "/" + s[i + 1..]) == root + s[..i] + "/" + s[i + 1..];
  }

  // ------------------------------------------------------------ hierarchies as directories

  /** The one directory that is not mapped: a namespace for the whole repository. */
  predicate WholeRepository(view: View, d: string) {
    FirstSlash(d) == |d| && d in view && view[d].path == []
  }

  lemma SlashOfDirectory(d: string)
    requires d != []
    ensures FirstSlash(d + "/") == FirstSlash(d)
    ensures (d + "/")[..FirstSlash(d)] == d[..FirstSlash(d)]
  {
    var i := FirstSlash(d);
    assert forall j :: 0 <= j < |d| ==> (d + "/")[j] == d[j];
    FirstSlashIs(d + "/", i);
  }

  /** The part of a directory's name its mapping leaves, without the final slash; nothing for a namespace itself. */
  lemma RestOfDirectory(view: View, d: string) returns (r: string)
    requires d != []
    ensures FirstSlash(d) == |d| && d in view ==> HierarchyRest(view, d + "/") == [] && r == []
    ensures !(FirstSlash(d) == |d| && d in view) ==> HierarchyRest(view, d + "/") == r + "/"
  {
    SlashOfDirectory(d);
    var h, i := d + "/", FirstSlash(d);
    assert d[..|d|] == d;
    if HierarchyMapped(view, h) {
      r := if i == |d| then [] else d[i + 1..];
      assert i < |d| ==> h[i + 1..] == r + "/";
    } else {
      r := d;
    }
  }

  /**
   A directory's mapping followed by a name is that object's mapping, except
   for a namespace that maps to the whole repository: its directory keeps the
   client's name.
   */
  lemma DirectoryCommutesIff(view: View, d: string, s: string)
    requires d != [] && s != [] && FromClientDir(view, d).Some?
    ensures FromClient(view, d + "/" + s, false).Some?
    ensures FromClient(view, d + "/" + s, false).value == FromClientDir(view, d).value + "/" + s
      <==> !WholeRepository(view, d)
  {
    SlashOfDirectory(d);
    RestInHierarchy(view, d + "/", s);
    RestInHierarchy(view, d + "/", ".");
    var r := RestOfDirectory(view, d);
    var path := HierarchyMapping(view, d + "/").value.path;
    assert d[..|d|] == d;
    if FirstSlash(d) == |d| && d in view {
      assert path == view[d].path;
      NamespaceDirectory(path, d, s);
      assert [] + s == s && [] + "." == ".";
    } else {
      PlainDirectory(path, r, s);
    }
  }

  lemma NamespaceDirectory(path: string, d: string, s: string)
    requires d != [] && s != []
    ensures path != [] ==> |Under(path, ".")| >= 2 && Under(path, s) == Under(path, ".")[..|Under(path, ".")| - 2] + "/" + s
    ensures path == [] ==> |Under(path, ".")| < 2 && Under(path, s) != d + "/" + s
  {
    if path != [] {
      assert (path + "/" + ".")[..|path|] == path;
    } else {
      assert |d + "/" + s| > |s|;
    }
  }

  lemma PlainDirectory(path: string, r: string, s: string)
    requires s != []
    ensures var u := Under(path, r + "/" + ".");
      |u| >= 2 && Under(path, r + "/" + s) == u[..|u| - 2] + "/" + s
  {
    var pre := if path != [] then path + "/" + r else path + r;
    UnderIs(path, r, ".");
    UnderIs(path, r, s);
    hide Under;
    assert (pre + "/" + ".")[..|pre|] == pre;
  }

  lemma UnderIs(path: string, r: string, s: string)
    requires s != []
    ensures Under(path, r + "/" + s) == (if path != [] then path + "/" + r else path + r) + "/" + s
  {
    if path != [] {
      assert path + "/" + (r + "/" + s) == path + "/" + r + "/" + s;
    } else {
      assert path + (r + "/" + s) == path + r + "/" + s;
    }
  }

  /** A directory's name can be used exactly if its first component is mapped, or the root is. */
  lemma DirectoryAllowedIff(view: View, d: string)
    ensures FromClientDir(view, d).Some? <==> "" in view || (FirstSlash(d) > 0 && d[..FirstSlash(d)] in view)
  {
    if d != [] {
      SlashOfDirectory(d);
      RestInHierarchy(view, d + "/", ".");
    }
  }

  /**
   A name may be written exactly if it may be read and the mapping that applies
   to it, its first component's or else the root's, is read-write; it then maps
   to what it maps to for reading.
   */
  lemma WritableIff(view: View, name: string)
    ensures var i := FirstSlash(name);
      var own := 0 < i < |name| && name[..i] in view;
      && (FromClient(view, name, false).Some? <==> own || "" in view)
      && (FromClient(view, name, true).Some?
          <==> if own then view[name[..i]].rw else "" in view && view[""].rw)
      && (FromClient(view, name, true).Some? ==> FromClient(view, name, true) == FromClient(view, name, false))
  {
  }

  /** A path and a name in it, with a slash between them unless one of them is empty. */
  function Joined(path: string, rest: string): (s: string)
    ensures path == [] ==> s == rest
    ensures rest == [] ==> s == path
    ensures path != [] && rest != [] ==> |s| == |path| + 1 + |rest| && path + "/" <= s && s[|path| + 1..] == rest
  {
    Under(path, rest)
  }

  // ------------------------------------------------------------ the view object

  function Entries(nsmap: map<string, string>, rw: bool): View {
    map n | n in nsmap :: Mapping(nsmap[n], rw)
  }

  class NamespaceView {
    var view: View

    constructor (ro: map<string, string>, rw: map<string, string>, root: string)
      ensures view.Keys == ro.Keys + rw.Keys + {""}
      ensures forall n :: n in rw ==> view[n] == Mapping(rw[n], true)
      ensures forall n :: n in ro && n !in rw ==> view[n] == Mapping(ro[n], false)
      ensures "" !in ro && "" !in rw ==> view[""] == Mapping(root, true)
    {
      view := map[];
      new;
      Merge(ro, false);
      assert view == Entries(ro, false);
      Merge(rw, true);
      if "" !in view {
        view := view["" := Mapping(root, true)];
      }
    }

    method Merge(nsmap: map<string, string>, rw: bool)
      modifies this
      ensures view == old(view) + Entries(nsmap, rw)
      ensures view.Keys == old(view).Keys + nsmap.Keys
      ensures forall n :: n in view ==> view[n] == if n in nsmap then Mapping(nsmap[n], rw) else old(view)[n]
    {
      ghost var was := view;
      var todo := nsmap.Keys;
      MergedNoneAndAll(was, nsmap, rw);
      while todo != {}
        invariant todo <= nsmap.Keys && view == MergedBut(was, nsmap, rw, todo)
        decreases |todo|
      {
        var n :| n in todo;
        MergeOneMore(was, nsmap, rw, todo, n);
        todo := todo - {n};
        view := view[n := Mapping(nsmap[n], rw)];
      }
    }

    /** Maps the name, or leaves it alone and says no. */
    method FromClientName(name: string, write: bool) returns (ok: bool, mapped: string)
      ensures ok == FromClient(view, name, write).Some?
      ensures mapped == if ok then FromClient(view, name, write).value else name
      ensures var i := FirstSlash(name);
        if 0 < i < |name| && name[..i] in view
        then (ok <==> write ==> view[name[..i]].rw) && (ok ==> mapped == Joined(view[name[..i]].path, name[i + 1..]))
        else (ok <==> "" in view && (write ==> view[""].rw)) && (ok ==> mapped == Joined(view[""].path, name))
    {
      var tlhier := FirstSlash(name);
      var start := tlhier + 1;
      if tlhier == |name| {
        tlhier, start := 0, 0;
      }
      var m: Mapping;
      if tlhier == 0 || name[..tlhier] !in view {
        tlhier, start := 0, 0;
        if "" !in view {
          return false, name;
        }
        m := view[""];
      } else {
        m := view[name[..tlhier]];
      }
      if write && !m.rw {
        return false, name;
      }
      var prefix := m.path;
      if |prefix| > 0 && start < |name| {
        prefix := prefix + "/";
      }
      return true, prefix + name[start..];
    }

    method FromClientDirName(dirname: string) returns (ok: bool, mapped: string)
      ensures ok == FromClientDir(view, dirname).Some?
      ensures mapped == if ok then FromClientDir(view, dirname).value else dirname
      ensures ok <==> "" in view || (FirstSlash(dirname) > 0 && dirname[..FirstSlash(dirname)] in view)
    {
      DirectoryAllowedIff(view, dirname);
      if |dirname| == 0 {
        ok, mapped := FromClientName(dirname, false);
        return;
      }
      var n;
      ok, n := FromClientName(dirname + "/" + ".", false);
      if !ok {
        return false, dirname;
      }
      mapped := dirname;
      if |n| >= 2 {
        mapped := n[..|n| - 2];
      }
    }
  }

  function MergedBut(view: View, nsmap: map<string, string>, rw: bool, todo: set<string>): View {
    map n | n in view.Keys + nsmap.Keys && (n in view || n !in todo) ::
      if n in nsmap && n !in todo then Mapping(nsmap[n], rw) else view[n]
  }

  lemma MergedNoneAndAll(view: View, nsmap: map<string, string>, rw: bool)
    ensures MergedBut(view, nsmap, rw, nsmap.Keys) == view
    ensures MergedBut(view, nsmap, rw, {}) == view + Entries(nsmap, rw)
  {
  }

  lemma MergeOneMore(view: View, nsmap: map<string, string>, rw: bool, todo: set<string>, n: string)
    requires n in todo && n in nsmap
    ensures MergedBut(view, nsmap, rw, todo - {n}) == MergedBut(view, nsmap, rw, todo)[n := Mapping(nsmap[n], rw)]
  {
  }
}
