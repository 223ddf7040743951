// SQLite connection strings (sqlchain/storage/dsn.go): parsing and formatting.

module Dsn {
  import opened Common

  datatype DSN = DSN(filename: string, params: map<string, string>)

  // ----- strings -----

  function IndexOf(s: string, c: char): (i: nat)
    ensures i <= |s| && c !in s[..i] && (i < |s| ==> s[i] == c)
  {
    if s == [] || s[0] == c then 0 else
    var i := IndexOf(s[1..], c);
    assert s[..i + 1] == [s[0]] + s[1..][..i];
    i + 1
  }

  // SplitN into at most two parts.
  function SplitOnce(s: string, c: char): seq<string> {
    var i := IndexOf(s, c);
    if i == |s| then [s] else [s[..i], s[i + 1..]]
  }

  function Split(s: string, c: char): (parts: seq<string>)
    ensures parts != [] && forall p :: p in parts ==> c !in p
    decreases |s|
  {
    var i := IndexOf(s, c);
    if i == |s| then
      assert s[..i] == s;
      [s]
    else [s[..i]] + Split(s[i + 1..], c)
  }

  function Join(parts: seq<string>, c: char): string
    requires parts != []
  {
    if |parts| == 1 then parts[0] else parts[0] + [c] + Join(parts[1..], c)
  }

  lemma {:induction false} IndexOfFirst(p: string, c: char, rest: string)
    requires c !in p
    ensures IndexOf(p + [c] + rest, c) == |p| && IndexOf(p, c) == |p|
    decreases |p|
  {
    var s := p + [c] + rest;
    if p != [] {
      assert s[1..] == p[1..] + [c] + rest;
      IndexOfFirst(p[1..], c, rest);
    }
  }

  lemma {:induction false} SplitJoin(parts: seq<string>, c: char)
    requires parts != [] && forall p :: p in parts ==> c !in p
    ensures Split(Join(parts, c), c) == parts
    decreases |parts|
  {
    var p := parts[0];
    if |parts| == 1 {
      IndexOfFirst(p, c, []);
    } else {
      var rest := Join(parts[1..], c);
      var s := p + [c] + rest;
      IndexOfFirst(p, c, rest);
      assert s[..|p|] == p && s[|p| + 1..] == rest;
      SplitJoin(parts[1..], c);
    }
  }

  lemma SplitOnceAt(p: string, c: char, rest: string)
    requires c !in p
    ensures SplitOnce(p + [c] + rest, c) == [p, rest] && SplitOnce(p, c) == [p]
  {
    IndexOfFirst(p, c, rest);
    assert (p + [c] + rest)[..|p|] == p && (p + [c] + rest)[|p| + 1..] == rest;
  }

  // ----- parsing -----

  const PREFIX := "file:"

  function TrimPrefix(s: string): string {
    if PREFIX <= s then s[|PREFIX|..] else s
  }

  // Later parameters overwrite earlier ones; a part without '=' is an error.
  function ParseParams(parts: seq<string>): Option<map<string, string>>
    decreases |parts|
  {
    if parts == [] then Some(map[]) else
    var n := |parts| - 1;
    var before, kv := ParseParams(parts[..n]), SplitOnce(parts[n], '=');
    if before.None? || |kv| != 2 then None else Some(before.value[kv[0] := kv[1]])
  }

  function Parse(s: string): Option<DSN> {
    var parts := SplitOnce(s, '?');
    var filename := TrimPrefix(parts[0]);
    if |parts| < 2 then Some(DSN(filename, map[])) else
    var params := ParseParams(Split(parts[1], '&'));
    if params.None? then None else Some(DSN(filename, params.value))
  }

  method NewDSN(s: string) returns (dsn: Option<DSN>)
    ensures dsn == Parse(s)
    ensures dsn.Some? ==> '?' !in dsn.value.filename
  {
    var parts := SplitOnce(s, '?');
    var filename := TrimPrefix(parts[0]);
    if |parts| < 2 {
      assert s[..|s|] == s;
      return Some(DSN(filename, map[]));
    }
    var list, params, i := Split(parts[1], '&'), map[], 0;
    while i < |list|
      invariant i <= |list| && ParseParams(list[..i]) == Some(params)
    {
      assert list[..i + 1][..i] == list[..i];
      var param := SplitOnce(list[i], '=');
      if |param| != 2 {
        StaysWrong(list, i + 1);
        return None;
      }
      params := params[param[0] := param[1]];
      i := i + 1;
    }
    assert list[..i] == list;
    return Some(DSN(filename, params));
  }

  lemma {:induction false} StaysWrong(parts: seq<string>, i: nat)
    requires i <= |parts| && ParseParams(parts[..i]).None?
    ensures ParseParams(parts).None?
    decreases |parts| - i
  {
    if i < |parts| {
      assert parts[..i + 1][..i] == parts[..i];
      StaysWrong(parts, i + 1);
    } else {
      assert parts[..i] == parts;
    }
  }

  function Key(part: string): string {
    part[..IndexOf(part, '=')]
  }

  function Value(part: string): string
    requires '=' in part
  {
    part[IndexOf(part, '=') + 1..]
  }

  // Where a key is given for the last time.
  ghost predicate LastWith(parts: seq<string>, k: string, i: nat) {
    i < |parts| && Key(parts[i]) == k && forall j :: i < j < |parts| ==> Key(parts[j]) != k
  }

  // Parameters are read exactly when every part has a '='.
  lemma {:induction false} ParamsReadIff(parts: seq<string>)
    ensures ParseParams(parts).Some? <==> forall i :: 0 <= i < |parts| ==> '=' in parts[i]
    decreases |parts|
  {
    hide Key, Value, SplitOnce;
    if parts != [] {
      var n := |parts| - 1;
      ParamsReadIff(parts[..n]);
      PartSplit(parts[n]);
      assert forall i :: 0 <= i < n ==> parts[..n][i] == parts[i];
    }
  }

  // A key is then there exactly when it was given, and stands for what was given last.
  lemma {:induction false} LastParamWins(parts: seq<string>, k: string)
    requires ParseParams(parts).Some?
    ensures var m := ParseParams(parts).value;
            && (k !in m <==> forall i :: 0 <= i < |parts| ==> Key(parts[i]) != k)
            && (k in m ==> exists i: nat :: LastWith(parts, k, i) && '=' in parts[i] && m[k] == Value(parts[i]))
    decreases |parts|
  {
    hide Key, Value, SplitOnce;
    if parts != [] {
      var n := |parts| - 1;
      var m := ParseParams(parts).value;
      LastParamWins(parts[..n], k);
      PartSplit(parts[n]);
      if k == Key(parts[n]) {
        assert LastWith(parts, k, n);
      } else if k in m {
        var i: nat :| LastWith(parts[..n], k, i) && '=' in parts[..n][i] && m[k] == Value(parts[..n][i]);
        assert LastWith(parts, k, i);
      } else {
        forall i | 0 <= i < n ensures Key(parts[i]) != k { assert parts[..n][i] == parts[i]; }
      }
    }
  }

  lemma PartSplit(part: string)
    ensures |SplitOnce(part, '=')| == 2 <==> '=' in part
    ensures '=' in part ==> SplitOnce(part, '=') == [Key(part), Value(part)]
  {
    assert part[..|part|] == part;
  }

  // The prefix may be left away.
  lemma PrefixOptional(s: string)
    requires !(PREFIX <= s)
    ensures Parse(PREFIX + s) == Parse(s)
  {
    hide SplitOnce, TrimPrefix, Split, ParseParams;
    SplitBehind(PREFIX, s, '?');
    TrimBoth(s, SplitOnce(s, '?')[0]);
  }

  lemma SplitBehind(p: string, s: string, c: char)
    requires c !in p
    ensures var parts := SplitOnce(s, c);
            1 <= |parts| <= 2 && parts[0] <= s && SplitOnce(p + s, c) == [p + parts[0]] + parts[1..]
  {
    var t, i := p + s, IndexOf(s, c);
    SkipTo(p, s, c);
    assert t[..|p| + i] == p + s[..i];
    if i < |s| {
      assert t[|p| + i + 1..] == s[i + 1..];
    } else {
      assert t == p + s[..i];
    }
  }

  lemma TrimBoth(s: string, x: string)
    requires x <= s && !(PREFIX <= s)
    ensures TrimPrefix(PREFIX + x) == x == TrimPrefix(x)
  {
    assert (PREFIX + x)[|PREFIX|..] == x;
    if PREFIX <= x { PrefixTrans(PREFIX, x, s); }
  }

  lemma PrefixTrans(p: string, x: string, s: string)
    requires p <= x && x <= s
    ensures p <= s
  {
  }

  lemma {:induction false} SkipTo(p: string, s: string, c: char)
    requires c !in p
    ensures IndexOf(p + s, c) == |p| + IndexOf(s, c)
    decreases |p|
  {
    if p == [] {
      assert p + s == s;
    } else {
      assert (p + s)[1..] == p[1..] + s;
      SkipTo(p[1..], s, c);
    }
  }

  // ----- formatting -----

  type Params = seq<(string, string)>

  // The parameters, each once, in any order.
  ghost predicate Enumerates(order: Params, params: map<string, string>) {
    && (forall i, j :: 0 <= i < j < |order| ==> order[i].0 != order[j].0)
    && (forall i :: 0 <= i < |order| ==> order[i].0 in params && params[order[i].0] == order[i].1)
    && (forall k :: k in params ==> exists i :: 0 <= i < |order| && order[i].0 == k)
  }

  function Pairs(order: Params): (ps: seq<string>)
    ensures |ps| == |order|
  {
    seq(|order|, i requires 0 <= i < |order| => order[i].0 + "=" + order[i].1)
  }

  function FormatIn(filename: string, order: Params): string {
    if order == [] then PREFIX + filename else PREFIX + filename + "?" + Join(Pairs(order), '&')
  }

  method Format(dsn: DSN) returns (s: string, ghost order: Params)
    ensures Enumerates(order, dsn.params) && s == FormatIn(dsn.filename, order)
    ensures Parse(s) == Some(dsn) <==> Clean(dsn)
  {
    order := [];
    if |dsn.params| <= 0 {
      RoundTripIff(dsn, order);
      return PREFIX + dsn.filename, order;
    }
    var params: seq<string>, rest := [], dsn.params.Keys;
    while rest != {}
      invariant rest <= dsn.params.Keys && params == Pairs(order)
      invariant Enumerates(order, dsn.params - rest)
      decreases rest
    {
      var k :| k in rest;
      EnumeratesMore(order, dsn.params - rest, k, dsn.params[k]);
      assert (dsn.params - rest)[k := dsn.params[k]] == dsn.params - (rest - {k});
      params := params + [k + "=" + dsn.params[k]];
      order := order + [(k, dsn.params[k])];
      rest := rest - {k};
    }
    assert dsn.params - rest == dsn.params;
    assert params != [] by { var k :| k in dsn.params; }
    s := PREFIX + dsn.filename + "?" + Join(params, '&');
    RoundTripIff(dsn, order);
  }

  lemma EnumeratesMore(order: Params, params: map<string, string>, k: string, v: string)
    requires Enumerates(order, params) && k !in params
    ensures Enumerates(order + [(k, v)], params[k := v])
    ensures Pairs(order + [(k, v)]) == Pairs(order) + [k + "=" + v]
  {
    var o, m := order + [(k, v)], params[k := v];
    forall x | x in m ensures exists i :: 0 <= i < |o| && o[i].0 == x {
      if x == k {
        assert o[|order|].0 == x;
      } else {
        var i :| 0 <= i < |order| && order[i].0 == x;
        assert o[i].0 == x;
      }
    }
  }

  // ----- round trip -----

  predicate Clean(dsn: DSN) {
    && '?' !in dsn.filename
    && forall k :: k in dsn.params ==> '=' !in k && '&' !in k && '&' !in dsn.params[k]
  }

  // What comes out of a parse is clean.
  lemma {:induction false} ParsedClean(parts: seq<string>)
    requires ParseParams(parts).Some? && forall p :: p in parts ==> '&' !in p
    ensures var m := ParseParams(parts).value; forall k :: k in m ==> '=' !in k && '&' !in k && '&' !in m[k]
    decreases |parts|
  {
    if parts != [] {
      var n := |parts| - 1;
      ParsedClean(parts[..n]);
      var i := IndexOf(parts[n], '=');
      assert parts[n] in parts;
      assert forall c :: c in parts[n][..i] || c in parts[n][i + 1..] ==> c in parts[n];
    }
  }

  lemma {:induction false} ParsePairs(order: Params, params: map<string, string>, n: nat)
    requires Enumerates(order, params) && n <= |order| && forall k :: k in params ==> '=' !in k
    ensures ParseParams(Pairs(order)[..n]).Some?
    ensures var m := ParseParams(Pairs(order)[..n]).value;
            && (forall i :: 0 <= i < n ==> order[i].0 in m && m[order[i].0] == order[i].1)
            && (forall k :: k in m ==> k in params)
    decreases n
  {
    hide SplitOnce;
    if n > 0 {
      ParsePairs(order, params, n - 1);
      var ps := Pairs(order)[..n];
      assert ps[..n - 1] == Pairs(order)[..n - 1];
      var k, v := order[n - 1].0, order[n - 1].1;
      SplitOnceAt(k, '=', v);
      assert SplitOnce(ps[n - 1], '=') == [k, v];
      var m := ParseParams(Pairs(order)[..n - 1]).value;
      assert ParseParams(ps) == Some(m[k := v]);
      forall i | 0 <= i < n - 1 ensures order[i].0 != k { }
    }
  }

  lemma ParsePairsAll(order: Params, params: map<string, string>)
    requires Enumerates(order, params) && forall k :: k in params ==> '=' !in k
    ensures ParseParams(Pairs(order)) == Some(params)
  {
    ParsePairs(order, params, |order|);
    assert Pairs(order)[..|order|] == Pairs(order);
    var m := ParseParams(Pairs(order)).value;
    forall k | k in params ensures k in m && m[k] == params[k] {
      var i :| 0 <= i < |order| && order[i].0 == k;
    }
    assert m == params;
  }

  lemma PairsClean(order: Params, params: map<string, string>)
    requires Enumerates(order, params) && forall k :: k in params ==> '&' !in k && '&' !in params[k]
    ensures forall p :: p in Pairs(order) ==> '&' !in p
  {
    forall p | p in Pairs(order) ensures '&' !in p {
      var i :| 0 <= i < |order| && Pairs(order)[i] == p;
      assert p == order[i].0 + "=" + order[i].1;
    }
  }

  // A clean DSN survives formatting in any order and parsing.
  lemma CleanRoundTrip(dsn: DSN, order: Params)
    requires Enumerates(order, dsn.params) && Clean(dsn)
    ensures Parse(FormatIn(dsn.filename, order)) == Some(dsn)
  {
    hide Enumerates;
    var head := PREFIX + dsn.filename;
    assert '?' !in head;
    if order == [] {
      SplitOnceAt(head, '?', []);
      NoParams(dsn.params);
    } else {
      var tail := Join(Pairs(order), '&');
      SplitOnceAt(head, '?', tail);
      assert FormatIn(dsn.filename, order) == head + ['?'] + tail;
      PairsClean(order, dsn.params);
      SplitJoin(Pairs(order), '&');
      ParsePairsAll(order, dsn.params);
    }
  }

  lemma NoParams(params: map<string, string>)
    requires Enumerates([], params)
    ensures params == map[]
  {
    forall k ensures k !in params { }
  }

  // And no other one does.
  lemma RoundTripIff(dsn: DSN, order: Params)
    requires Enumerates(order, dsn.params)
    ensures Parse(FormatIn(dsn.filename, order)) == Some(dsn) <==> Clean(dsn)
  {
    hide Enumerates;
    if Clean(dsn) {
      CleanRoundTrip(dsn, order);
    } else if Parse(FormatIn(dsn.filename, order)) == Some(dsn) {
      ParseIsClean(FormatIn(dsn.filename, order));
    }
  }

  lemma ParseIsClean(s: string)
    requires Parse(s).Some?
    ensures Clean(Parse(s).value)
  {
    var parts := SplitOnce(s, '?');
    var i := IndexOf(s, '?');
    assert s[..i] == parts[0];
    assert forall c :: c in TrimPrefix(parts[0]) ==> c in parts[0];
    if |parts| == 2 {
      ParsedClean(Split(parts[1], '&'));
    }
  }
}
