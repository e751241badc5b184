/** Object names, and the file names they are stored under. */
module ObjectNames {
  import opened Stores

  /** A dot marks the end of a file's name, so no encoded name contains one of its own. */
  function EncodeChar(c: char): string {
    if c == '.' then ['\\', '_'] else if c == '\\' then ['\\', '\\'] else [c]
  }

  /** Encode the rest of a name; start tells that a component must begin here. */
  function EncodeFrom(s: string, start: bool): Option<string> {
    if s == [] then (if start then None else Some(['.', 'f']))
    else if start && s[0] == '/' then None
    else
      var rest := EncodeFrom(s[1..], s[0] == '/');
      if rest.None? then None else Some(EncodeChar(s[0]) + rest.value)
  }

  /** Up to the first dot that is not escaped. */
  function Decode(e: string): string {
    if e == [] || e[0] == '.' then []
    else if e[0] != '\\' then [e[0]] + Decode(e[1..])
    else if |e| == 1 then []
    else [if e[1] == '_' then '.' else e[1]] + Decode(e[2..])
  }

  /** One or more components separated by slashes, none of them empty. */
  predicate ValidName(s: string) {
    && s != [] && s[0] != '/' && s[|s| - 1] != '/'
    && forall i :: 0 <= i < |s| - 1 && s[i] == '/' ==> s[i + 1] != '/'
  }

  predicate ValidFrom(s: string, start: bool) {
    if s == [] then !start
    else !(start && s[0] == '/') && s[|s| - 1] != '/' && forall i :: 0 <= i < |s| - 1 && s[i] == '/' ==> s[i + 1] != '/'
  }

  lemma {:induction false} EncodesIffValidFrom(s: string, start: bool)
    ensures EncodeFrom(s, start).Some? <==> ValidFrom(s, start)
    decreases |s|
  {
    if s != [] {
      EncodesIffValidFrom(s[1..], s[0] == '/');
      if ValidFrom(s, start) && s[1..] != [] {
        forall i | 0 <= i < |s[1..]| - 1 && s[1..][i] == '/'
          ensures s[1..][i + 1] != '/'
        {
          assert s[i + 1] == '/';
        }
      }
      if ValidFrom(s[1..], s[0] == '/') && s[1..] != [] {
        forall i | 0 <= i < |s| - 1 && s[i] == '/'
          ensures s[i + 1] != '/'
        {
          if i > 0 {
            assert s[1..][i - 1] == '/';
          } else {
            assert s[1..][0] == s[1];
          }
        }
      }
    }
  }

  /** A name is accepted exactly when it has no empty component. */
  lemma EncodesIffValid(s: string)
    ensures EncodeFrom(s, true).Some? <==> ValidName(s)
  {
    EncodesIffValidFrom(s, true);
  }

  lemma {:induction false} DecodeEncodeFrom(s: string, start: bool)
    requires EncodeFrom(s, start).Some?
    ensures Decode(EncodeFrom(s, start).value) == s
    decreases |s|
  {
    if s != [] {
      DecodeEncodeFrom(s[1..], s[0] == '/');
      var rest := EncodeFrom(s[1..], s[0] == '/').value;
      var e := EncodeChar(s[0]) + rest;
      assert s == [s[0]] + s[1..];
      if |EncodeChar(s[0])| == 2 {
        assert e[2..] == rest;
      } else {
        assert e[1..] == rest;
      }
    }
  }

  /** Decoding a stored file's name gives the object's name back. */
  lemma DecodeEncode(s: string)
    requires ValidName(s)
    ensures EncodeFrom(s, true).Some? && Decode(EncodeFrom(s, true).value) == s
  {
    EncodesIffValid(s);
    DecodeEncodeFrom(s, true);
  }

  /** Different objects are stored under different names. */
  lemma EncodingIsInjective(s: string, t: string)
    requires ValidName(s) && ValidName(t) && EncodeFrom(s, true) == EncodeFrom(t, true)
    ensures s == t
  {
    DecodeEncode(s);
    DecodeEncode(t);
  }

  /** The shape of a stored file's name: components that are not empty, and a dot only before the final f. */
  predicate EncodedForm(e: string) {
    && |e| >= 3 && e[|e| - 2] == '.' && e[|e| - 1] == 'f'
    && e[0] != '/' && e[|e| - 3] != '/'
    && (forall i :: 0 <= i < |e| - 2 ==> e[i] != '.')
    && forall i :: 0 <= i < |e| - 1 && e[i] == '/' ==> e[i + 1] != '/'
  }

  predicate FormFrom(e: string, start: bool) {
    && |e| >= 2 && e[|e| - 2] == '.' && e[|e| - 1] == 'f'
    && (start ==> |e| >= 3 && e[0] != '/')
    && (|e| >= 3 ==> e[|e| - 3] != '/')
    && (forall i :: 0 <= i < |e| - 2 ==> e[i] != '.')
    && forall i :: 0 <= i < |e| - 1 && e[i] == '/' ==> e[i + 1] != '/'
  }

  lemma FormOneMore(x: string, rest: string, slash: bool, start: bool)
    requires FormFrom(rest, slash) && 1 <= |x| <= 2
    requires forall i :: 0 <= i < |x| ==> x[i] != '.'
    requires if slash then x == ['/'] && !start else forall i :: 0 <= i < |x| ==> x[i] != '/'
    ensures FormFrom(x + rest, start)
  {
    var e := x + rest;
    forall i | 0 <= i < |e| - 1 && e[i] == '/'
      ensures e[i + 1] != '/'
    {
      if i >= |x| {
        assert rest[i - |x|] == '/' && e[i + 1] == rest[i - |x| + 1];
      } else {
        assert e[i] == x[i];
      }
    }
    assert e[|e| - 2] == rest[|rest| - 2] && e[|e| - 1] == rest[|rest| - 1];
    assert |rest| >= 3 ==> e[|e| - 3] == rest[|rest| - 3];
    forall i | 0 <= i < |e| - 2
      ensures e[i] != '.'
    {
      if i >= |x| {
        assert e[i] == rest[i - |x|];
      } else {
        assert e[i] == x[i];
      }
    }
  }

  lemma {:induction false} EncodedFormFrom(s: string, start: bool)
    requires EncodeFrom(s, start).Some?
    ensures FormFrom(EncodeFrom(s, start).value, start)
    ensures '\0' in EncodeFrom(s, start).value <==> '\0' in s
    decreases |s|
  {
    if s != [] {
      EncodedFormFrom(s[1..], s[0] == '/');
      var rest := EncodeFrom(s[1..], s[0] == '/').value;
      FormOneMore(EncodeChar(s[0]), rest, s[0] == '/', start);
      assert s == [s[0]] + s[1..];
    }
  }

  lemma EncodedNamesHaveForm(s: string)
    requires ValidName(s)
    ensures EncodeFrom(s, true).Some? && EncodedForm(EncodeFrom(s, true).value)
    ensures '\0' in EncodeFrom(s, true).value <==> '\0' in s
  {
    EncodesIffValid(s);
    EncodedFormFrom(s, true);
  }

  lemma AppendToNothing(c: char, more: string)
    requires c != '/' && (more == [c] || more == ['/', c])
    ensures EncodeFrom(more, false) == Some(if more == [c] then EncodeChar(c) + ['.', 'f'] else ['/'] + EncodeChar(c) + ['.', 'f'])
    ensures EncodeFrom([c], true) == Some(EncodeChar(c) + ['.', 'f'])
  {
    assert [c][1..] == [] && EncodeFrom([], false) == Some(['.', 'f']);
    assert ['/', c][1..] == [c] && EncodeChar('/') == ['/'];
    hide EncodeChar;
    if more != [c] {
      assert ['/'] + (EncodeChar(c) + ['.', 'f']) == ['/'] + EncodeChar(c) + ['.', 'f'];
    }
  }

  lemma EncodedAfter(h: string, r: string, y: string)
    requires |r| >= 2
    ensures h + (r[..|r| - 2] + y) == (h + r)[..|h + r| - 2] + y
  {
  }

  /** What follows a name is encoded where the name's end was. */
  lemma {:induction false} AppendFrom(s: string, start: bool, c: char, more: string)
    requires EncodeFrom(s, start).Some? && c != '/' && (more == [c] || more == ['/', c])
    ensures var e, y := EncodeFrom(s, start).value, EncodeFrom(more, false);
      y.Some? && |e| >= 2 && EncodeFrom(s + more, start) == Some(e[..|e| - 2] + y.value)
    decreases |s|
  {
    AppendToNothing(c, more);
    var y := EncodeFrom(more, false).value;
    if s == [] {
      assert [] + more == more && [] + y == y;
    } else {
      AppendFrom(s[1..], s[0] == '/', c, more);
      var h, r := EncodeChar(s[0]), EncodeFrom(s[1..], s[0] == '/').value;
      assert (s + more)[1..] == s[1..] + more && (s + more)[0] == s[0];
      EncodedAfter(h, r, y);
      hide EncodeChar;
    }
  }

  /**
   How names are written: character by character, a dot as a backslash and an
   underscore, a backslash twice, with the final letter after the only dot.
   */
  lemma EncodingIs(s: string, c: char)
    requires c != '/'
    ensures var x := if c == '.' then ['\\', '_'] else if c == '\\' then ['\\', '\\'] else [c];
      && EncodeFrom([c], true) == Some(x + ['.', 'f'])
      && (ValidName(s) ==>
          && EncodeFrom(s, true).Some? && |EncodeFrom(s, true).value| >= 2
          && var e := EncodeFrom(s, true).value;
             EncodeFrom(s + [c], true) == Some(e[..|e| - 2] + (x + ['.', 'f']))
             && EncodeFrom(s + ['/', c], true) == Some(e[..|e| - 2] + (['/'] + x + ['.', 'f'])))
  {
    AppendToNothing(c, [c]);
    AppendToNothing(c, ['/', c]);
    EncodesIffValid(s);
    if ValidName(s) {
      AppendFrom(s, true, c, [c]);
      AppendFrom(s, true, c, ['/', c]);
    }
    hide EncodeFrom, ValidName;
  }

  // ------------------------------------------------------------ the loops

  /** p is what was written so far; None is the exception for an invalid name. */
  method EncodeObjectName(s: string) returns (r: Option<string>)
    ensures r == EncodeFrom(s, true)
  {
    var p: string := [];
    var b := 0;
    assert s[0..] == s;
    assert EncodeFrom(s, true).Some? ==> p + EncodeFrom(s, true).value == EncodeFrom(s, true).value;
    while true
      invariant 0 <= b <= |s|
      invariant EncodeFrom(s, true) == Prepended(p, EncodeFrom(s[b..], true))
      decreases |s| - b
    {
      if b == |s| || s[b] == '/' {
        return None;
      }
      while true
        invariant 0 <= b < |s|
        invariant EncodeFrom(s, true) == Prepended(p, EncodeFrom(s[b..], false))
        decreases |s| - b
      {
        var c := s[b];
        assert s[b..][1..] == s[b + 1..];
        PrependMore(p, EncodeChar(c), EncodeFrom(s[b + 1..], c == '/'));
        p := p + (if c == '.' then ['\\', '_'] else if c == '\\' then ['\\', '\\'] else [c]);
        b := b + 1;
        if c == '/' {
          break;
        }
        if b == |s| {
          assert s[b..] == [];
          p := p + ['.', 'f'];
          return Some(p);
        }
      }
    }
  }

  function Prepended(p: string, r: Option<string>): Option<string> {
    if r.None? then None else Some(p + r.value)
  }

  lemma PrependMore(p: string, x: string, r: Option<string>)
    ensures Prepended(p, Prepended(x, r)) == Prepended(p + x, r)
  {
    if r.Some? {
      assert p + (x + r.value) == p + x + r.value;
    }
  }

  /** What one round of the decoder adds, and where it goes on; nothing left when it stops. */
  function Round(e: string, b: nat): (string, nat)
    requires b < |e|
  {
    if e[b] == '.' then ([], |e|)
    else if e[b] != '\\' then ([e[b]], b + 1)
    else if b + 1 == |e| then ([], |e|)
    else ([if e[b + 1] == '_' then '.' else e[b + 1]], b + 2)
  }

  lemma RoundDecodes(e: string, b: nat, n: string)
    requires b < |e|
    ensures b < Round(e, b).1 <= |e|
    ensures n + Decode(e[b..]) == n + Round(e, b).0 + Decode(e[Round(e, b).1..])
  {
    assert e[b + 1..] == e[b..][1..];
    assert b + 2 <= |e| ==> e[b + 2..] == e[b..][2..];
    assert e[|e|..] == [];
  }

  method FullpathToObjname(e: string) returns (n: string)
    ensures n == Decode(e)
  {
    n := [];
    var b := 0;
    assert e[0..] == e && n + Decode(e) == Decode(e);
    while b != |e|
      invariant 0 <= b <= |e| && Decode(e) == n + Decode(e[b..])
      decreases |e| - b
    {
      RoundDecodes(e, b, n);
      if e[b] == '\\' {
        b := b + 1;
        if b != |e| {
          n := n + [if e[b] == '_' then '.' else e[b]];
          b := b + 1;
        }
      } else {
        if e[b] == '.' {
          break;
        }
        n := n + [e[b]];
        b := b + 1;
      }
    }
    assert e[|e|..] == [];
  }
}
