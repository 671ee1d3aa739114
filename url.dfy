/** What the resolver uses of Node's `url.parse` and `querystring.stringify`.
    The parser itself is not modelled: it is a parameter of type `UrlParser`
    that gives, for a URL string, its protocol (with the colon, as "http:"),
    its host (with port), its hostname, and its query as the ordered pairs of
    the query object, in the object's key order. A JavaScript object has no
    two equal keys, hence `Query`. */
module Url {
  import opened Js

  type Pair = (string, string)

  predicate DistinctKeys(q: seq<Pair>) {
    forall i, j :: 0 <= i < j < |q| ==> q[i].0 != q[j].0
  }

  /** A query object: its entries in key order, keys pairwise distinct. */
  type Query = q: seq<Pair> | DistinctKeys(q) witness []

  /** Fields of `url.parse(s, true)`; an absent field is JavaScript `null`. */
  datatype ParsedUrl = ParsedUrl(
    protocol: Option<string>,
    host: Option<string>,
    hostname: Option<string>,
    query: Query)

  type UrlParser = string -> ParsedUrl

  predicate HasKey(q: seq<Pair>, k: string) {
    exists i :: 0 <= i < |q| && q[i].0 == k
  }

  /** `query[k]` for a key that is present: the value of its entry. */
  function Get(q: seq<Pair>, k: string): string
    requires HasKey(q, k)
  {
    if q[0].0 == k then q[0].1
    else
      assert HasKey(q[1..], k) by {
        var i :| 0 <= i < |q| && q[i].0 == k;
        assert q[1..][i - 1] == q[i];
      }
      Get(q[1..], k)
  }

  /** `k=v` */
  function Field(p: Pair): string {
    p.0 + "=" + p.1
  }

  /** `qs.stringify(query)`: the entries as `k=v`, joined by `&` in key
      order (percent-encoding is not modelled). It is empty exactly when the
      query has no entry. */
  function Stringify(q: seq<Pair>): (r: string)
    ensures |r| == 0 <==> q == []
  {
    if q == [] then ""
    else if |q| == 1 then Field(q[0])
    else Field(q[0]) + "&" + Stringify(q[1..])
  }

  /** `delete query[k]` */
  function Delete(q: seq<Pair>, k: string): (r: seq<Pair>)
    ensures forall e :: e in r <==> e in q && e.0 != k
  {
    if q == [] then []
    else if q[0].0 == k then Delete(q[1..], k)
    else [q[0]] + Delete(q[1..], k)
  }

  /** The query left once every entry whose key starts with `prefix` is
      deleted, in the original order. */
  function Unprefixed(q: seq<Pair>, prefix: string): seq<Pair> {
    if q == [] then []
    else
      var rest := Unprefixed(q[..|q| - 1], prefix);
      var last := q[|q| - 1];
      assert q == q[..|q| - 1] + [last];
      if StartsWith(last.0, prefix) then rest else rest + [last]
  }

  /** `${protocol}//${host}`, followed by `?${qs.stringify(query)}` when that
      string is not empty: the path of the URL is dropped. */
  function Rebuild(protocol: Option<string>, host: Option<string>, query: seq<Pair>): string {
    var rest := Stringify(query);
    ShowNull(protocol) + "//" + ShowNull(host) + (if |rest| > 0 then "?" + rest else "")
  }

  // ---------------------------------------------------------------------

  /** A key absent from a non-empty query is absent from its tail and is
      not its first key. */
  lemma HasKeyTail(q: seq<Pair>, k: string)
    requires q != [] && !HasKey(q, k)
    ensures q[0].0 != k && !HasKey(q[1..], k)
  {
    forall i | 0 <= i < |q[1..]| ensures q[1..][i].0 != k {
      assert q[1..][i] == q[i + 1];
    }
  }

  /** Deleting a key that occurs once, and only at the position of `(k, v)`
      between `a` and `b`, removes exactly that entry. */
  lemma {:induction false} DeleteOnly(a: seq<Pair>, k: string, v: string, b: seq<Pair>)
    requires !HasKey(a, k) && !HasKey(b, k)
    ensures Delete(a + [(k, v)] + b, k) == a + b
    decreases |a|
  {
    var s := a + [(k, v)] + b;
    if a == [] {
      assert s == [(k, v)] + b;
      DeleteAbsent(b, k);
    } else {
      HasKeyTail(a, k);
      assert s[0] == a[0];
      assert s[1..] == a[1..] + [(k, v)] + b;
      DeleteOnly(a[1..], k, v, b);
      assert [a[0]] + (a[1..] + b) == a + b;
    }
  }

  /** Deleting a key that is not there changes nothing. */
  lemma {:induction false} DeleteAbsent(q: seq<Pair>, k: string)
    requires !HasKey(q, k)
    ensures Delete(q, k) == q
    decreases |q|
  {
    if q != [] {
      HasKeyTail(q, k);
      DeleteAbsent(q[1..], k);
      assert [q[0]] + q[1..] == q;
    }
  }

  /** The entries left are exactly the entries whose key does not start
      with `prefix`. */
  lemma {:induction false} UnprefixedMembers(q: seq<Pair>, prefix: string)
    ensures forall e :: e in Unprefixed(q, prefix) <==> e in q && !StartsWith(e.0, prefix)
    decreases |q|
  {
    if q != [] {
      UnprefixedMembers(q[..|q| - 1], prefix);
      assert q == q[..|q| - 1] + [q[|q| - 1]];
    }
  }

  /** `query[k]` is the value of the first entry with key `k`. */
  lemma {:induction false} GetFirst(a: seq<Pair>, k: string, v: string, b: seq<Pair>)
    requires !HasKey(a, k)
    ensures HasKey(a + [(k, v)] + b, k) && Get(a + [(k, v)] + b, k) == v
    decreases |a|
  {
    var q := a + [(k, v)] + b;
    assert q[|a|] == (k, v);
    if a != [] {
      HasKeyTail(a, k);
      assert q[0] == a[0];
      assert q[1..] == a[1..] + [(k, v)] + b;
      GetFirst(a[1..], k, v, b);
    }
  }

  /** In a query object, the key at position `i` occurs nowhere else. */
  lemma KeyUnique(q: Query, i: nat)
    requires i < |q|
    ensures !HasKey(q[..i], q[i].0) && !HasKey(q[i + 1..], q[i].0)
  {
    forall j | 0 <= j < i ensures q[..i][j].0 != q[i].0 {
      assert q[..i][j] == q[j];
    }
    var after := q[i + 1..];
    forall j | 0 <= j < |after| ensures after[j].0 != q[i].0 {
      assert after[j] == q[i + 1 + j];
    }
  }

  /** Every key left after deleting the prefixed ones was a key before. */
  lemma UnprefixedKeys(q: seq<Pair>, prefix: string, k: string)
    requires HasKey(Unprefixed(q, prefix), k)
    ensures HasKey(q, k) && !StartsWith(k, prefix)
  {
    var r := Unprefixed(q, prefix);
    UnprefixedMembers(q, prefix);
    var i :| 0 <= i < |r| && r[i].0 == k;
    assert r[i] in r;
    var j :| 0 <= j < |q| && q[j] == r[i];
  }

  /** One turn of a loop that walks the keys of a query object and deletes
      those that start with `prefix`, at key `keys[i]`: on such a key,
      `query[k]` is its value and `delete query[k]` removes just that entry;
      on any other key the query already has the form the next turn expects. */
  lemma UnprefixedStep(keys: Query, i: nat, prefix: string)
    requires i < |keys|
    ensures var k, query := keys[i].0, Unprefixed(keys[..i], prefix) + keys[i..];
            if StartsWith(k, prefix) then
              && HasKey(query, k) && Get(query, k) == keys[i].1
              && Delete(query, k) == Unprefixed(keys[..i + 1], prefix) + keys[i + 1..]
            else
              query == Unprefixed(keys[..i + 1], prefix) + keys[i + 1..]
  {
    var k := keys[i].0;
    var kept := Unprefixed(keys[..i], prefix);
    assert keys[..i + 1][..i] == keys[..i];
    assert keys[..i + 1][i] == keys[i];
    assert keys[i..] == [keys[i]] + keys[i + 1..];
    if StartsWith(k, prefix) {
      KeyUnique(keys, i);
      UnprefixedMembers(keys[..i], prefix);
      assert !HasKey(kept, k) by {
        forall j | 0 <= j < |kept| ensures kept[j].0 != k {
          assert kept[j] in kept;
        }
      }
      assert kept + keys[i..] == kept + [keys[i]] + keys[i + 1..];
      GetFirst(kept, k, keys[i].1, keys[i + 1..]);
      DeleteOnly(kept, k, keys[i].1, keys[i + 1..]);
    } else {
      assert Unprefixed(keys[..i + 1], prefix) == kept + [keys[i]];
    }
  }
}
