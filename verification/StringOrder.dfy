/** The byte order of Go strings (equal to scalar-value order for valid UTF-8), and the
    sorted listing of a finite set of strings that `slices.Sort`/`sort.Strings` produce. */
module StringOrder {

  predicate Below(a: string, b: string) {
    b != "" && (a == "" || a[0] < b[0] || (a[0] == b[0] && Below(a[1..], b[1..])))
  }

  lemma {:induction false} BelowTotal(a: string, b: string)
    ensures a == b || Below(a, b) || Below(b, a)
  {
    if a != "" && b != "" && a[0] == b[0] {
      BelowTotal(a[1..], b[1..]);
      assert a == [a[0]] + a[1..] && b == [b[0]] + b[1..];
    }
  }

  lemma {:induction false} BelowAsymmetric(a: string, b: string)
    requires Below(a, b)
    ensures a != b && !Below(b, a)
  {
    if a != "" && a[0] == b[0] {
      BelowAsymmetric(a[1..], b[1..]);
    }
  }

  lemma {:induction false} BelowTransitive(a: string, b: string, c: string)
    requires Below(a, b) && Below(b, c)
    ensures Below(a, c)
  {
    if a != "" && a[0] == b[0] && b[0] == c[0] {
      BelowTransitive(a[1..], b[1..], c[1..]);
    }
  }

  /** Strictly increasing, hence without duplicates. */
  ghost predicate Ascending(s: seq<string>) {
    forall i, j | 0 <= i < j < |s| :: Below(s[i], s[j])
  }

  ghost predicate Lists(s: seq<string>, keys: set<string>) {
    Ascending(s) && forall k :: k in s <==> k in keys
  }

  ghost predicate Least(m: string, keys: set<string>) {
    m in keys && forall k | k in keys :: k == m || Below(m, k)
  }

  lemma {:induction false} LeastExists(keys: set<string>)
    requires keys != {}
    ensures exists m :: Least(m, keys)
    decreases |keys|
  {
    var k :| k in keys;
    if keys == {k} {
      assert Least(k, keys);
    } else {
      var rest := keys - {k};
      assert keys == rest + {k};
      LeastExists(rest);
      var n :| Least(n, rest);
      BelowTotal(k, n);
      var m := if Below(k, n) then k else n;
      forall x | x in keys ensures x == m || Below(m, x) {
        if x != k && x != n && m == k { BelowTransitive(k, n, x); }
      }
      assert Least(m, keys);
    }
  }

  /** The keys in increasing order. */
  ghost function Sorted(keys: set<string>): (s: seq<string>)
    ensures |s| == |keys|
    decreases |keys|
  {
    if keys == {} then []
    else
      LeastExists(keys);
      var m :| Least(m, keys);
      [m] + Sorted(keys - {m})
  }

  lemma {:induction false} SortedLists(keys: set<string>)
    ensures Lists(Sorted(keys), keys)
    decreases |keys|
  {
    if keys != {} {
      LeastExists(keys);
      var m := Sorted(keys)[0];
      assert Least(m, keys) && Sorted(keys) == [m] + Sorted(keys - {m});
      SortedLists(keys - {m});
      var rest := Sorted(keys - {m});
      forall j | 0 <= j < |rest| ensures Below(m, rest[j]) {
        assert rest[j] in rest;
      }
    }
  }

  /** There is one ascending listing of a set. */
  lemma {:induction false} ListingUnique(s: seq<string>, t: seq<string>, keys: set<string>)
    requires Lists(s, keys) && Lists(t, keys)
    ensures s == t
    decreases |s|
  {
    assert t != [] ==> t[0] in t && t[0] in keys && t[0] in s;
    if s != [] {
      assert s[0] in keys;
      assert s[0] in t && t != [];
      HeadsAgree(s, t);
      BelowIrreflexive(s, t);
      ListingUnique(s[1..], t[1..], keys - {s[0]});
      assert s == [s[0]] + s[1..] && t == [t[0]] + t[1..];
    }
  }

  lemma HeadsAgree(s: seq<string>, t: seq<string>)
    requires Ascending(s) && Ascending(t) && s != [] && t != []
    requires s[0] in t && t[0] in s
    ensures s[0] == t[0]
  {
    if s[0] != t[0] {
      assert Below(s[0], t[0]) && Below(t[0], s[0]);
      BelowAsymmetric(s[0], t[0]);
    }
  }

  lemma BelowIrreflexive(s: seq<string>, t: seq<string>)
    requires Ascending(s) && Ascending(t)
    ensures s != [] ==> s[0] !in s[1..]
    ensures t != [] ==> t[0] !in t[1..]
  {
    forall u: seq<string> | Ascending(u) && u != [] && u[0] in u[1..] ensures false {
      var j :| 0 <= j < |u[1..]| && u[1..][j] == u[0];
      assert Below(u[0], u[j + 1]);
      BelowAsymmetric(u[0], u[j + 1]);
    }
  }

  /** Insertion into an ascending list, as one step of the sorts below. */
  function Insert(k: string, s: seq<string>): (r: seq<string>) {
    if s == [] then [k]
    else if Below(k, s[0]) then [k] + s
    else [s[0]] + Insert(k, s[1..])
  }

  lemma {:induction false} InsertLists(k: string, s: seq<string>, keys: set<string>)
    requires Lists(s, keys) && k !in keys
    ensures Lists(Insert(k, s), keys + {k})
  {
    if s != [] && !Below(k, s[0]) {
      assert s[0] in keys;
      BelowTotal(k, s[0]);
      BelowIrreflexive(s, s);
      assert s == [s[0]] + s[1..];
      InsertLists(k, s[1..], keys - {s[0]});
      var r := Insert(k, s[1..]);
      forall j | 0 <= j < |r| ensures Below(s[0], r[j]) {
        assert r[j] in r;
        if r[j] != k { assert r[j] in s[1..]; }
      }
    } else if s != [] {
      forall j | 0 <= j < |s| ensures Below(k, s[j]) {
        if j > 0 { BelowTransitive(k, s[0], s[j]); }
      }
    }
  }

  /** `slices.Sort` applied to the keys collected from a Go map. */
  method SortKeys(keys: set<string>) returns (s: seq<string>)
    ensures s == Sorted(keys)
    ensures Lists(s, keys)
  {
    s := [];
    var left := keys;
    while left != {}
      invariant left <= keys
      invariant Lists(s, keys - left)
      decreases |left|
    {
      var k :| k in left;
      InsertLists(k, s, keys - left);
      s := Insert(k, s);
      left := left - {k};
      assert keys - left == (keys - (left + {k})) + {k};
    }
    assert keys - left == keys;
    SortedLists(keys);
    ListingUnique(s, Sorted(keys), keys);
  }
}
