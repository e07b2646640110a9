/** Strings as the operator uses them: ASCII case folding, the byte order of
    `sort.Strings`, and `sortKeys`, which turns an unordered Go map into one
    fixed sequence of keys. */
module Text {

  function UpperChar(c: char): char {
    if 'a' <= c <= 'z' then (c as int - 32) as char else c
  }

  function LowerChar(c: char): char {
    if 'A' <= c <= 'Z' then (c as int + 32) as char else c
  }

  function ToUpper(s: string): (u: string)
    ensures |u| == |s|
    ensures forall i :: 0 <= i < |s| ==> u[i] == UpperChar(s[i])
  {
    if s == "" then "" else [UpperChar(s[0])] + ToUpper(s[1..])
  }

  function ToLower(s: string): (l: string)
    ensures |l| == |s|
    ensures forall i :: 0 <= i < |s| ==> l[i] == LowerChar(s[i])
  {
    if s == "" then "" else [LowerChar(s[0])] + ToLower(s[1..])
  }

  /** `strings.EqualFold` on ASCII. */
  predicate EqualFold(a: string, b: string) {
    ToLower(a) == ToLower(b)
  }

  lemma FoldOfUpper(s: string)
    ensures ToLower(ToUpper(s)) == ToLower(s)
    ensures ToUpper(ToLower(s)) == ToUpper(s)
    ensures ToLower(ToLower(s)) == ToLower(s)
    ensures ToUpper(ToUpper(s)) == ToUpper(s)
  {
  }

  /** The order of Go's `<` on strings. */
  predicate Less(a: string, b: string) {
    if b == "" then false
    else if a == "" then true
    else a[0] < b[0] || (a[0] == b[0] && Less(a[1..], b[1..]))
  }

  lemma {:induction false} LessTotal(a: string, b: string)
    ensures Less(a, b) || a == b || Less(b, a)
  {
    if a != "" && b != "" && a[0] == b[0] {
      LessTotal(a[1..], b[1..]);
      if a[1..] == b[1..] {
        assert a == [a[0]] + a[1..] && b == [b[0]] + b[1..];
      }
    }
  }

  lemma {:induction false} LessTransitive(a: string, b: string, c: string)
    requires Less(a, b) && Less(b, c)
    ensures Less(a, c)
  {
    if a != "" && a[0] == b[0] == c[0] {
      LessTransitive(a[1..], b[1..], c[1..]);
    }
  }

  lemma {:induction false} LessIrreflexive(a: string)
    ensures !Less(a, a)
  {
    if a != "" {
      LessIrreflexive(a[1..]);
    }
  }

  /** Of all spellings of one word, the all-lower-case one comes last in byte
      order; the settings rendering and the operator's own lookup of
      `custom_pulp_settings` agree only because of this. */
  lemma {:induction false} LowerCaseIsGreatest(v: string)
    ensures v == ToLower(v) || Less(v, ToLower(v))
  {
    if v != "" {
      LowerCaseIsGreatest(v[1..]);
      assert ToLower(v)[1..] == ToLower(v[1..]);
      if v[0] == LowerChar(v[0]) && v[1..] == ToLower(v[1..]) {
        assert v == [v[0]] + v[1..];
        assert ToLower(v) == [LowerChar(v[0])] + ToLower(v[1..]);
      }
    }
  }

  ghost predicate Ascending(ks: seq<string>) {
    forall i, j :: 0 <= i < j < |ks| ==> Less(ks[i], ks[j])
  }

  ghost predicate Lists(ks: seq<string>, keys: set<string>) {
    forall k :: k in ks <==> k in keys
  }

  ghost predicate IsLeast(k: string, keys: set<string>) {
    k in keys && forall j :: j in keys && j != k ==> Less(k, j)
  }

  lemma {:induction false} LeastExists(keys: set<string>)
    requires keys != {}
    ensures exists k :: IsLeast(k, keys)
    decreases |keys|
  {
    var x :| x in keys;
    if keys == {x} {
      assert IsLeast(x, keys);
    } else {
      LeastExists(keys - {x});
      var k :| IsLeast(k, keys - {x});
      LessTotal(x, k);
      if Less(k, x) {
        assert IsLeast(k, keys);
      } else {
        forall j | j in keys && j != x
          ensures Less(x, j)
        {
          if j != k {
            LessTransitive(x, k, j);
          }
        }
        assert IsLeast(x, keys);
      }
    }
  }

  lemma LeastFirst(keys: set<string>, k: string, rest: seq<string>)
    requires IsLeast(k, keys) && Ascending(rest) && Lists(rest, keys - {k})
    ensures Ascending([k] + rest) && Lists([k] + rest, keys)
  {
    forall i | 0 <= i < |rest| ensures Less(k, rest[i]) {
      assert rest[i] in rest;
    }
    assert forall j :: j in [k] + rest <==> j == k || j in rest;
  }

  /** The keys in byte order: what `sortKeys` must return. */
  ghost function SortedKeys(keys: set<string>): (ks: seq<string>)
    ensures Ascending(ks) && Lists(ks, keys)
    decreases |keys|
  {
    if keys == {} then []
    else
      LeastExists(keys);
      var k :| IsLeast(k, keys);
      var rest := SortedKeys(keys - {k});
      LeastFirst(keys, k, rest);
      [k] + rest
  }

  lemma FirstIsLeast(ks: seq<string>, keys: set<string>)
    requires Ascending(ks) && Lists(ks, keys) && ks != []
    ensures IsLeast(ks[0], keys)
  {
    assert ks[0] in ks;
    forall j | j in keys && j != ks[0] ensures Less(ks[0], j) {
      var i :| 0 <= i < |ks| && ks[i] == j;
    }
  }

  lemma LeastIsUnique(a: string, b: string, keys: set<string>)
    requires IsLeast(a, keys) && IsLeast(b, keys)
    ensures a == b
  {
    if a != b {
      LessTransitive(a, b, a);
      LessIrreflexive(a);
    }
  }

  lemma RestLists(ks: seq<string>, keys: set<string>)
    requires Ascending(ks) && Lists(ks, keys) && ks != []
    ensures Ascending(ks[1..]) && Lists(ks[1..], keys - {ks[0]})
  {
    LessIrreflexive(ks[0]);
    forall k ensures k in ks[1..] <==> k in keys - {ks[0]} {
      if k in ks[1..] {
        var i :| 0 <= i < |ks[1..]| && ks[1..][i] == k;
        assert ks[i + 1] == k;
      }
    }
  }

  /** A key set has only one ascending listing, so the order in which a Go map
      is ranged over cannot show in the sorted keys. */
  lemma {:induction false} SortedKeysUnique(a: seq<string>, b: seq<string>, keys: set<string>)
    requires Ascending(a) && Lists(a, keys) && Ascending(b) && Lists(b, keys)
    ensures a == b
    decreases |a|
  {
    if a == [] {
      if b != [] {
        FirstIsLeast(b, keys);
        assert false;
      }
    } else {
      assert a[0] in a;
      assert b != [];
      FirstIsLeast(a, keys);
      FirstIsLeast(b, keys);
      LeastIsUnique(a[0], b[0], keys);
      RestLists(a, keys);
      RestLists(b, keys);
      SortedKeysUnique(a[1..], b[1..], keys - {a[0]});
      assert a == [a[0]] + a[1..] && b == [b[0]] + b[1..];
    }
  }

  /** One insertion of the sort behind `sort.Strings`. */
  method InsertKey(ks: seq<string>, k: string) returns (r: seq<string>)
    requires Ascending(ks) && k !in ks
    ensures Ascending(r)
    ensures forall j :: j in r <==> j in ks || j == k
  {
    var i := 0;
    while i < |ks| && StrictlyBefore(ks[i], k)
      invariant 0 <= i <= |ks|
      invariant forall j :: 0 <= j < i ==> Less(ks[j], k)
    {
      i := i + 1;
    }
    if i < |ks| {
      LessTotal(ks[i], k);
      forall j | i < j < |ks| ensures Less(k, ks[j]) {
        LessTransitive(k, ks[i], ks[j]);
      }
    }
    r := ks[..i] + [k] + ks[i..];
    forall j ensures j in r <==> j in ks || j == k {
      if j in ks {
        var n :| 0 <= n < |ks| && ks[n] == j;
        assert r[if n < i then n else n + 1] == j;
      }
      if j == k { assert r[i] == j; }
    }
  }

  predicate StrictlyBefore(a: string, b: string) { Less(a, b) }

  /** `sortKeys`: the map is ranged over in an arbitrary order, the result is
      fixed by the key set alone. */
  method SortKeys<V>(m: map<string, V>) returns (keys: seq<string>)
    ensures keys == SortedKeys(m.Keys)
  {
    keys := [];
    var rest := m.Keys;
    while rest != {}
      invariant rest <= m.Keys
      invariant Ascending(keys) && Lists(keys, m.Keys - rest)
      decreases |rest|
    {
      var k :| k in rest;
      keys := InsertKey(keys, k);
      rest := rest - {k};
    }
    SortedKeysUnique(keys, SortedKeys(m.Keys), m.Keys);
  }
}
