/**
 * net/url's Values: a map from each key to its list of values, the Set and
 * Add operations the core calls, and Encode, which writes the pairs as
 * "k=v&k=v..." with the keys in sorted order. Percent-escaping is a
 * parameter (`esc`); Decode reads an encoded query back into its pairs and
 * is the partner that the round-trip lemma EncodeDecode relates to Encode.
 */
module UrlValues {

  type Values = map<string, seq<string>>

  /** Values.Set: the key now holds exactly one value; other keys are untouched. */
  function Set(v: Values, key: string, value: string): Values
  {
    v[key := [value]]
  }

  /** Values.Add: the value is appended to the key's list; other keys are untouched. */
  function Add(v: Values, key: string, value: string): Values
  {
    v[key := (if key in v then v[key] else []) + [value]]
  }

  /** The keys of a list of pairs, in order. */
  function Firsts(ps: seq<(string, string)>): (r: seq<string>)
    ensures |r| == |ps| && forall i :: 0 <= i < |ps| ==> r[i] == ps[i].0
  {
    if ps == [] then [] else [ps[0].0] + Firsts(ps[1..])
  }

  predicate DistinctKeys(ps: seq<(string, string)>)
  {
    forall i, j :: 0 <= i < j < |ps| ==> ps[i].0 != ps[j].0
  }

  /** A run of `Set` calls, one per pair, in the order given. */
  function SetAll(v: Values, ps: seq<(string, string)>): Values
    decreases |ps|
  {
    if ps == [] then v else SetAll(Set(v, ps[0].0, ps[0].1), ps[1..])
  }

  /** One more Set call at the end of a run. */
  lemma {:induction false} SetAllSnoc(v: Values, ps: seq<(string, string)>, p: (string, string))
    ensures SetAll(v, ps + [p]) == Set(SetAll(v, ps), p.0, p.1)
    decreases |ps|
  {
    if ps == [] {
      assert [] + [p] == [p];
    } else {
      assert (ps + [p])[1..] == ps[1..] + [p];
      SetAllSnoc(Set(v, ps[0].0, ps[0].1), ps[1..], p);
    }
  }

  /** A run of `Add` calls, one per pair, in the order given. */
  function AddAll(v: Values, ps: seq<(string, string)>): Values
    decreases |ps|
  {
    if ps == [] then v else AddAll(Add(v, ps[0].0, ps[0].1), ps[1..])
  }

  /** After the Set calls, the keys are the old ones and the ones set. */
  lemma {:induction false} SetAllKeys(v: Values, ps: seq<(string, string)>)
    ensures forall k :: k in SetAll(v, ps) <==> k in v || k in Firsts(ps)
    decreases |ps|
  {
    if ps != [] {
      SetAllKeys(Set(v, ps[0].0, ps[0].1), ps[1..]);
      assert Firsts(ps) == [ps[0].0] + Firsts(ps[1..]);
    }
  }

  /** A key no call sets keeps its old values. */
  lemma {:induction false} SetAllOthers(v: Values, ps: seq<(string, string)>, k: string)
    requires k in v && k !in Firsts(ps)
    ensures k in SetAll(v, ps) && SetAll(v, ps)[k] == v[k]
    decreases |ps|
  {
    if ps != [] {
      assert Firsts(ps) == [ps[0].0] + Firsts(ps[1..]);
      SetAllOthers(Set(v, ps[0].0, ps[0].1), ps[1..], k);
    }
  }

  /** With distinct keys, each key set holds exactly the value it was set to. */
  lemma {:induction false} SetAllAt(v: Values, ps: seq<(string, string)>, i: nat)
    requires DistinctKeys(ps) && i < |ps|
    ensures ps[i].0 in SetAll(v, ps) && SetAll(v, ps)[ps[i].0] == [ps[i].1]
    decreases |ps|
  {
    var w := Set(v, ps[0].0, ps[0].1);
    assert DistinctKeys(ps[1..]) by {
      forall a, b | 0 <= a < b < |ps[1..]| ensures ps[1..][a].0 != ps[1..][b].0 {
        assert ps[1..][a] == ps[a + 1] && ps[1..][b] == ps[b + 1];
      }
    }
    if i == 0 {
      SetAllOthers(w, ps[1..], ps[0].0);
    } else {
      assert ps[1..][i - 1] == ps[i];
      SetAllAt(w, ps[1..], i - 1);
    }
  }

  /** Add on keys the values do not hold yet, each once, is the same as Set. */
  lemma {:induction false} AddAllFresh(v: Values, ps: seq<(string, string)>)
    requires DistinctKeys(ps)
    requires forall i :: 0 <= i < |ps| ==> ps[i].0 !in v
    ensures AddAll(v, ps) == SetAll(v, ps)
    decreases |ps|
  {
    if ps != [] {
      var w := Set(v, ps[0].0, ps[0].1);
      assert ps[0].0 !in v;
      assert [] + [ps[0].1] == [ps[0].1];
      forall i | 0 <= i < |ps[1..]| ensures ps[1..][i].0 !in w {
        assert ps[1..][i] == ps[i + 1];
      }
      assert DistinctKeys(ps[1..]) by {
        forall a, b | 0 <= a < b < |ps[1..]| ensures ps[1..][a].0 != ps[1..][b].0 {
          assert ps[1..][a] == ps[a + 1] && ps[1..][b] == ps[b + 1];
        }
      }
      AddAllFresh(w, ps[1..]);
    }
  }

  // ---------------------------------------------------------------------
  // The order sort.Strings puts keys in. Go compares strings byte by byte;
  // UTF-8 preserves the order of code points, so comparing the characters
  // of a Dafny string gives the same order.
  // ---------------------------------------------------------------------

  predicate Less(a: string, b: string)
  {
    if a == [] then b != []
    else b != [] && (a[0] < b[0] || (a[0] == b[0] && Less(a[1..], b[1..])))
  }

  lemma {:induction false} LessIrreflexive(a: string)
    ensures !Less(a, a)
  {
    if a != [] {
      LessIrreflexive(a[1..]);
    }
  }

  lemma {:induction false} LessTransitive(a: string, b: string, c: string)
    requires Less(a, b) && Less(b, c)
    ensures Less(a, c)
  {
    if a != [] && a[0] == b[0] && b[0] == c[0] {
      LessTransitive(a[1..], b[1..], c[1..]);
    }
  }

  lemma {:induction false} LessTotal(a: string, b: string)
    ensures a == b || Less(a, b) || Less(b, a)
  {
    if a != [] && b != [] && a[0] == b[0] {
      LessTotal(a[1..], b[1..]);
      if a[1..] == b[1..] {
        assert a == [a[0]] + a[1..] && b == [b[0]] + b[1..];
      }
    }
  }

  lemma LessAsymmetric(a: string, b: string)
    requires Less(a, b)
    ensures !Less(b, a)
  {
    if Less(b, a) {
      LessTransitive(a, b, a);
      LessIrreflexive(a);
    }
  }

  /** A common prefix does not change the order. */
  lemma {:induction false} LessAfterPrefix(p: string, a: string, b: string)
    requires Less(a, b)
    ensures Less(p + a, p + b)
  {
    if p != [] {
      LessAfterPrefix(p[1..], a, b);
      assert (p + a)[0] == p[0] == (p + b)[0];
      assert (p + a)[1..] == p[1..] + a && (p + b)[1..] == p[1..] + b;
    } else {
      assert p + a == a && p + b == b;
    }
  }

  /** Strings that agree up to position n and differ there are ordered by the character at n. */
  lemma {:induction false} LessAt(a: string, b: string, n: nat)
    requires n < |a| && n < |b| && a[..n] == b[..n] && a[n] < b[n]
    ensures Less(a, b)
  {
    if n > 0 {
      assert a[0] == a[..n][0] == b[..n][0] == b[0];
      assert a[1..][..n - 1] == a[..n][1..];
      assert b[1..][..n - 1] == b[..n][1..];
      LessAt(a[1..], b[1..], n - 1);
    }
  }

  /** A proper prefix comes first. */
  lemma {:induction false} LessPrefix(a: string, b: string)
    requires |a| < |b| && a == b[..|a|]
    ensures Less(a, b)
  {
    if a != [] {
      assert a[0] == b[0];
      assert a[1..] == b[1..][..|a| - 1];
      LessPrefix(a[1..], b[1..]);
    }
  }

  predicate StrictlySorted(s: seq<string>)
  {
    forall i, j :: 0 <= i < j < |s| ==> Less(s[i], s[j])
  }

  /** Comparing neighbours is enough. */
  lemma {:induction false} NeighboursSorted(s: seq<string>)
    requires forall i :: 0 <= i < |s| - 1 ==> Less(s[i], s[i + 1])
    ensures StrictlySorted(s)
  {
    forall i, j | 0 <= i < j < |s| ensures Less(s[i], s[j]) {
      NeighboursUpTo(s, i, j);
    }
  }

  lemma {:induction false} NeighboursUpTo(s: seq<string>, i: nat, j: nat)
    requires forall k :: 0 <= k < |s| - 1 ==> Less(s[k], s[k + 1])
    requires i < j < |s|
    ensures Less(s[i], s[j])
    decreases j - i
  {
    if i + 1 < j {
      NeighboursUpTo(s, i + 1, j);
      LessTransitive(s[i], s[i + 1], s[j]);
    }
  }

  /** Go's order on strings is a strict order. */
  lemma LessOrder()
    ensures forall a, b :: Less(a, b) ==> !Less(b, a)
  {
    forall a, b | Less(a, b) ensures !Less(b, a) {
      LessAsymmetric(a, b);
    }
  }

  /** A non-empty finite set of strings has a least element. */
  lemma {:induction false} Least(ks: set<string>) returns (m: string)
    requires ks != {}
    ensures m in ks && forall k :: k in ks && k != m ==> Less(m, k)
    decreases |ks|
  {
    var x :| x in ks;
    var rest := ks - {x};
    if rest == {} {
      assert forall k :: k in ks && k != x ==> k in rest;
      m := x;
    } else {
      var m' := Least(rest);
      LessTotal(m', x);
      if Less(m', x) {
        m := m';
      } else {
        m := x;
        forall k | k in ks && k != x
          ensures Less(x, k)
        {
          if k != m' {
            LessTransitive(x, m', k);
          }
        }
      }
    }
  }

  /** `m` is the least element of `ks`. */
  predicate IsLeast(m: string, ks: set<string>)
  {
    m in ks && forall k :: k in ks && k != m ==> Less(m, k)
  }

  lemma HasLeast(ks: set<string>)
    requires ks != {}
    ensures exists m :: IsLeast(m, ks)
  {
    var m := Least(ks);
    assert IsLeast(m, ks);
  }

  lemma LeastUnique(ks: set<string>)
    ensures forall a, b :: IsLeast(a, ks) && IsLeast(b, ks) ==> a == b
  {
    forall a, b | IsLeast(a, ks) && IsLeast(b, ks) ensures a == b {
      if a != b {
        LessAsymmetric(a, b);
      }
    }
  }

  /** The keys of a Values in the order Encode visits them. */
  function SortedKeys(ks: set<string>): (r: seq<string>)
    ensures StrictlySorted(r)
    ensures forall k :: k in r <==> k in ks
    ensures |r| == |ks|
    decreases |ks|
  {
    if ks == {} then []
    else
      HasLeast(ks);
      LeastUnique(ks);
      var m :| IsLeast(m, ks);
      var rest := SortedKeys(ks - {m});
      ConsSorted(m, rest);
      [m] + rest
  }

  lemma ConsSorted(m: string, rest: seq<string>)
    requires StrictlySorted(rest)
    requires forall k :: k in rest ==> Less(m, k)
    ensures StrictlySorted([m] + rest)
  {
    forall i, j | 0 <= i < j < |[m] + rest|
      ensures Less(([m] + rest)[i], ([m] + rest)[j])
    {
      if i == 0 {
        assert ([m] + rest)[j] == rest[j - 1];
        assert rest[j - 1] in rest;
      } else {
        assert ([m] + rest)[i] == rest[i - 1] && ([m] + rest)[j] == rest[j - 1];
      }
    }
  }

  /** The first element of a strictly sorted sequence is below all the others. */
  lemma HeadIsLeast(s: seq<string>)
    requires StrictlySorted(s) && s != []
    ensures forall k :: k in s && k != s[0] ==> Less(s[0], k)
  {
  }

  lemma SameMembersEmpty(a: seq<string>, b: seq<string>)
    requires forall k :: k in a <==> k in b
    ensures a == [] <==> b == []
  {
    if a != [] {
      assert a[0] in b;
    }
    if b != [] {
      assert b[0] in a;
    }
  }

  /** Strictly sorted sequences with the same elements are equal: the key order does not depend on how the keys were inserted. */
  lemma {:induction false} SortedUnique(a: seq<string>, b: seq<string>)
    requires StrictlySorted(a) && StrictlySorted(b)
    requires forall k :: k in a <==> k in b
    ensures a == b
    decreases |a|
  {
    SameMembersEmpty(a, b);
    if a != [] && b != [] {
      HeadIsLeast(a);
      HeadIsLeast(b);
      LessOrder();
      assert a[0] in b && b[0] in a;
      assert a[0] == b[0];
      LessIrreflexive(a[0]);
      assert forall k :: k in a[1..] <==> k in a && k != a[0];
      assert forall k :: k in b[1..] <==> k in b && k != b[0];
      SortedUnique(a[1..], b[1..]);
      assert a == [a[0]] + a[1..] && b == [b[0]] + b[1..];
    }
  }

  // ---------------------------------------------------------------------
  // Encode
  // ---------------------------------------------------------------------

  /** The pairs of `keys`' blocks, each key followed by its values in order. */
  function PairsOf(keys: seq<string>, v: Values): seq<(string, string)>
    requires forall k :: k in keys ==> k in v
  {
    if keys == [] then []
    else
      var vs := v[keys[0]];
      seq(|vs|, i requires 0 <= i < |vs| => (keys[0], vs[i])) + PairsOf(keys[1..], v)
  }

  /** The pairs in the order Encode writes them: keys sorted, each key's values in insertion order. */
  function Pairs(v: Values): seq<(string, string)>
  {
    PairsOf(SortedKeys(v.Keys), v)
  }

  function Field(p: (string, string), esc: string -> string): string
  {
    esc(p.0) + "=" + esc(p.1)
  }

  function Fields(ps: seq<(string, string)>, esc: string -> string): seq<string>
  {
    if ps == [] then [] else [Field(ps[0], esc)] + Fields(ps[1..], esc)
  }

  /** The fields joined by '&', as Encode writes a '&' before every field but the first. */
  function Join(ps: seq<(string, string)>, esc: string -> string): string
  {
    if ps == [] then ""
    else if |ps| == 1 then Field(ps[0], esc)
    else Field(ps[0], esc) + "&" + Join(ps[1..], esc)
  }

  /** Values.Encode. */
  function Encode(v: Values, esc: string -> string): string
  {
    Join(Pairs(v), esc)
  }

  lemma {:induction false} PairsOfMembership(keys: seq<string>, v: Values, k: string, x: string)
    requires forall key :: key in keys ==> key in v
    ensures (k, x) in PairsOf(keys, v) <==> k in keys && x in v[k]
  {
    if keys != [] {
      PairsOfMembership(keys[1..], v, k, x);
      var vs := v[keys[0]];
      var block := seq(|vs|, i requires 0 <= i < |vs| => (keys[0], vs[i]));
      assert PairsOf(keys, v) == block + PairsOf(keys[1..], v);
      if k == keys[0] && x in vs {
        var i :| 0 <= i < |vs| && vs[i] == x;
        assert block[i] == (k, x);
      }
      assert keys == [keys[0]] + keys[1..];
    }
  }

  /** Encoding loses and invents no pair: (k, x) is written exactly when x is one of k's values. */
  lemma PairsMembership(v: Values, k: string, x: string)
    ensures (k, x) in Pairs(v) <==> k in v && x in v[k]
  {
    PairsOfMembership(SortedKeys(v.Keys), v, k, x);
  }

  lemma {:induction false} PairsOfOrdered(keys: seq<string>, v: Values)
    requires forall k :: k in keys ==> k in v
    requires StrictlySorted(keys)
    ensures var ps := PairsOf(keys, v);
            forall i, j :: 0 <= i < j < |ps| ==> ps[i].0 == ps[j].0 || Less(ps[i].0, ps[j].0)
  {
    if keys != [] {
      var vs := v[keys[0]];
      var block := seq(|vs|, i requires 0 <= i < |vs| => (keys[0], vs[i]));
      var rest := PairsOf(keys[1..], v);
      assert StrictlySorted(keys[1..]);
      PairsOfOrdered(keys[1..], v);
      var ps := PairsOf(keys, v);
      assert ps == block + rest;
      forall i, j | 0 <= i < j < |ps|
        ensures ps[i].0 == ps[j].0 || Less(ps[i].0, ps[j].0)
      {
        if i < |block| && |block| <= j {
          PairsOfMembership(keys[1..], v, rest[j - |block|].0, rest[j - |block|].1);
          assert rest[j - |block|] in rest;
          var n :| 0 <= n < |keys[1..]| && keys[1..][n] == ps[j].0;
          assert Less(keys[0], keys[n + 1]);
        } else if |block| <= i {
          assert ps[i] == rest[i - |block|] && ps[j] == rest[j - |block|];
        }
      }
    }
  }

  /** Keys appear in sorted order in the encoded query. */
  lemma PairsOrdered(v: Values)
    ensures var ps := Pairs(v);
            forall i, j :: 0 <= i < j < |ps| ==> ps[i].0 == ps[j].0 || Less(ps[i].0, ps[j].0)
  {
    assert Pairs(v) == PairsOf(SortedKeys(v.Keys), v);
    PairsOfOrdered(SortedKeys(v.Keys), v);
  }

  lemma {:induction false} PairsOfSingle(keys: seq<string>, v: Values)
    requires forall k :: k in keys ==> k in v && |v[k]| == 1
    ensures PairsOf(keys, v) == seq(|keys|, i requires 0 <= i < |keys| => (keys[i], v[keys[i]][0]))
  {
    if keys != [] {
      PairsOfSingle(keys[1..], v);
    }
  }

  /**
   * When every key holds one value, the encoded pairs are exactly the given
   * keys in sorted order, each with its value.
   */
  lemma SingleValuedPairs(v: Values, keys: seq<string>)
    requires StrictlySorted(keys)
    requires forall k :: k in keys <==> k in v
    requires forall k :: k in v ==> |v[k]| == 1
    ensures Pairs(v) == seq(|keys|, i requires 0 <= i < |keys| => (keys[i], v[keys[i]][0]))
  {
    SortedUnique(keys, SortedKeys(v.Keys));
    PairsOfSingle(keys, v);
  }

  /**
   * Set calls on distinct keys, starting from empty Values, encode as the
   * same pairs listed in sorted key order.
   */
  lemma SetAllPairs(ps: seq<(string, string)>, sorted: seq<(string, string)>)
    requires DistinctKeys(ps)
    requires StrictlySorted(Firsts(sorted))
    requires forall p :: p in ps <==> p in sorted
    ensures Pairs(SetAll(map[], ps)) == sorted
  {
    var q := SetAll(map[], ps);
    var keys := Firsts(sorted);
    SamePairsSameKeys(ps, sorted);
    SetAllKeys(map[], ps);
    SetAllSingle(ps);
    SingleValuedPairs(q, keys);
    forall i | 0 <= i < |sorted| ensures (keys[i], q[keys[i]][0]) == sorted[i] {
      assert sorted[i] in ps;
      var j :| 0 <= j < |ps| && ps[j] == sorted[i];
      SetAllAt(map[], ps, j);
    }
  }

  lemma SamePairsSameKeys(ps: seq<(string, string)>, sorted: seq<(string, string)>)
    requires forall p :: p in ps <==> p in sorted
    ensures forall k :: k in Firsts(sorted) <==> k in Firsts(ps)
  {
    forall k ensures k in Firsts(sorted) <==> k in Firsts(ps) {
      if k in Firsts(sorted) {
        var i :| 0 <= i < |sorted| && Firsts(sorted)[i] == k;
        assert sorted[i] in ps;
      }
      if k in Firsts(ps) {
        var i :| 0 <= i < |ps| && Firsts(ps)[i] == k;
        assert ps[i] in sorted;
      }
    }
  }

  lemma SetAllSingle(ps: seq<(string, string)>)
    requires DistinctKeys(ps)
    ensures forall k :: k in SetAll(map[], ps) ==> |SetAll(map[], ps)[k]| == 1
  {
    SetAllKeys(map[], ps);
    forall k | k in SetAll(map[], ps) ensures |SetAll(map[], ps)[k]| == 1 {
      var i :| 0 <= i < |ps| && Firsts(ps)[i] == k;
      SetAllAt(map[], ps, i);
    }
  }

  // ---------------------------------------------------------------------
  // Reading a query back
  // ---------------------------------------------------------------------

  function IndexOf(s: string, c: char): (i: nat)
    requires c in s
    ensures i < |s| && s[i] == c && c !in s[..i]
  {
    if s[0] == c then 0
    else
      var j := IndexOf(s[1..], c);
      assert s[1..][..j] == s[1..j + 1];
      j + 1
  }

  /** strings.Split on a single character. */
  function Split(s: string, c: char): (r: seq<string>)
    ensures |r| > 0
    decreases |s|
  {
    if c !in s then [s]
    else
      var i := IndexOf(s, c);
      [s[..i]] + Split(s[i + 1..], c)
  }

  /** One "key=value" field, cut at its first '='. */
  function DecodeField(piece: string, unesc: string -> string): (string, string)
  {
    if '=' in piece then
      var i := IndexOf(piece, '=');
      (unesc(piece[..i]), unesc(piece[i + 1..]))
    else (unesc(piece), "")
  }

  function DecodeFields(pieces: seq<string>, unesc: string -> string): (r: seq<(string, string)>)
    ensures |r| == |pieces|
  {
    if pieces == [] then [] else [DecodeField(pieces[0], unesc)] + DecodeFields(pieces[1..], unesc)
  }

  /** The pairs of an encoded query, in the order they are written. */
  function Decode(query: string, unesc: string -> string): seq<(string, string)>
  {
    if query == "" then [] else DecodeFields(Split(query, '&'), unesc)
  }

  /** An escaping whose output never holds the two separators and that `unesc` undoes, as url.QueryEscape and url.QueryUnescape do. */
  ghost predicate Escapes(esc: string -> string, unesc: string -> string)
  {
    forall x :: '&' !in esc(x) && '=' !in esc(x) && unesc(esc(x)) == x
  }

  /** The first `c` of f + [c] + t is the one after f when f holds none. */
  lemma {:induction false} IndexAfter(f: string, c: char, t: string)
    requires c !in f
    ensures c in f + [c] + t && IndexOf(f + [c] + t, c) == |f|
  {
    var s := f + [c] + t;
    assert s[|f|] == c;
    if f != [] {
      IndexAfter(f[1..], c, t);
      assert s[1..] == f[1..] + [c] + t;
    }
  }

  lemma FieldRoundTrip(p: (string, string), esc: string -> string, unesc: string -> string)
    requires Escapes(esc, unesc)
    ensures '&' !in Field(p, esc) && '=' in Field(p, esc)
    ensures DecodeField(Field(p, esc), unesc) == p
  {
    var k, x := esc(p.0), esc(p.1);
    var f := Field(p, esc);
    assert f == k + ['='] + x;
    IndexAfter(k, '=', x);
    assert f[..|k|] == k && f[|k| + 1..] == x;
  }

  /** Splitting at a '&' that follows a field holding none. */
  lemma SplitAfter(f: string, t: string)
    requires '&' !in f
    ensures Split(f + "&" + t, '&') == [f] + Split(t, '&')
  {
    var s := f + "&" + t;
    assert s == f + ['&'] + t;
    IndexAfter(f, '&', t);
    assert s[..|f|] == f && s[|f| + 1..] == t;
  }

  lemma {:induction false} JoinSplit(ps: seq<(string, string)>, esc: string -> string, unesc: string -> string)
    requires Escapes(esc, unesc)
    requires ps != []
    ensures Split(Join(ps, esc), '&') == Fields(ps, esc)
  {
    FieldRoundTrip(ps[0], esc, unesc);
    var f := Field(ps[0], esc);
    if |ps| > 1 {
      JoinSplit(ps[1..], esc, unesc);
      SplitAfter(f, Join(ps[1..], esc));
    }
  }

  lemma {:induction false} DecodeFieldsOfFields(ps: seq<(string, string)>, esc: string -> string, unesc: string -> string)
    requires Escapes(esc, unesc)
    ensures DecodeFields(Fields(ps, esc), unesc) == ps
  {
    if ps != [] {
      FieldRoundTrip(ps[0], esc, unesc);
      DecodeFieldsOfFields(ps[1..], esc, unesc);
      assert ps == [ps[0]] + ps[1..];
    }
  }

  /** Reading back a joined query gives the pairs that were joined. */
  lemma JoinDecode(ps: seq<(string, string)>, esc: string -> string, unesc: string -> string)
    requires Escapes(esc, unesc)
    ensures Decode(Join(ps, esc), unesc) == ps
  {
    if ps != [] {
      FieldRoundTrip(ps[0], esc, unesc);
      assert Join(ps, esc) != "";
      JoinSplit(ps, esc, unesc);
      DecodeFieldsOfFields(ps, esc, unesc);
    }
  }

  /** Round trip: reading the encoded query gives back every (key, value) pair of v, keys in sorted order. */
  lemma EncodeDecode(v: Values, esc: string -> string, unesc: string -> string)
    requires Escapes(esc, unesc)
    ensures Decode(Encode(v, esc), unesc) == Pairs(v)
    ensures forall k, x :: (k, x) in Decode(Encode(v, esc), unesc) <==> k in v && x in v[k]
  {
    JoinDecode(Pairs(v), esc, unesc);
    forall k, x ensures (k, x) in Pairs(v) <==> k in v && x in v[k] {
      PairsMembership(v, k, x);
    }
  }
}
