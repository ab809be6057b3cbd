/** The two query strings derived from the configured source query
    (migration.py:37 and migration.py:81). */
module Queries {

  const CountStar: string := "COUNT(*)"

  /** The text that replaces one character of the query. */
  function Expand(c: char): string {
    if c == '*' then CountStar else [c]
  }

  /** `query.replace("*", "COUNT(*)")`: every `*` becomes `COUNT(*)`, every
      other character stays where it is. */
  function CountQuery(q: string): string {
    if q == [] then [] else Expand(q[0]) + CountQuery(q[1..])
  }

  /** Number of `*` in a string. */
  function Stars(q: string): nat {
    if q == [] then 0 else (if q[0] == '*' then 1 else 0) + Stars(q[1..])
  }

  /** The count query grows by seven characters per `*`, and is the query
      itself when there is none. */
  lemma {:induction false} CountQueryLength(q: string)
    ensures |CountQuery(q)| == |q| + 7 * Stars(q)
    ensures Stars(q) == 0 ==> CountQuery(q) == q
  {
    if q != [] {
      CountQueryLength(q[1..]);
    }
  }

  /** The rewrite distributes over concatenation. */
  lemma {:induction false} CountQueryConcat(a: string, b: string)
    ensures CountQuery(a + b) == CountQuery(a) + CountQuery(b)
  {
    if a == [] {
      assert a + b == b;
    } else {
      assert (a + b)[0] == a[0];
      assert (a + b)[1..] == a[1..] + b;
      CountQueryConcat(a[1..], b);
    }
  }

  /** Reads a count query back: each `COUNT(*)` becomes `*` again. */
  function Uncount(r: string): string
    decreases |r|
  {
    if r == [] then []
    else if |r| >= |CountStar| && r[..|CountStar|] == CountStar then "*" + Uncount(r[|CountStar|..])
    else [r[0]] + Uncount(r[1..])
  }

  /** Every `*` of a count query stands at least six characters in, at the
      end of the `COUNT(` that the rewrite put before it. */
  lemma {:induction false} StarsAreWrapped(q: string, j: nat)
    requires j < |CountQuery(q)| && CountQuery(q)[j] == '*'
    ensures j >= 6
  {
    if q != [] {
      var e := Expand(q[0]);
      if j >= |e| {
        assert CountQuery(q)[j] == CountQuery(q[1..])[j - |e|];
        StarsAreWrapped(q[1..], j - |e|);
      }
    }
  }

  /** The rewrite loses nothing: the original query can be read back from
      the count query, whatever the query contains (a `COUNT(*)` already
      in it included). */
  lemma {:induction false} UncountCountQuery(q: string)
    ensures Uncount(CountQuery(q)) == q
  {
    if q != [] {
      var r := CountQuery(q);
      var rest := CountQuery(q[1..]);
      UncountCountQuery(q[1..]);
      if q[0] == '*' {
        assert r == CountStar + rest;
        assert r[..|CountStar|] == CountStar;
        assert r[|CountStar|..] == rest;
      } else {
        assert r == [q[0]] + rest;
        assert r[1..] == rest;
        if |r| >= |CountStar| && r[..|CountStar|] == CountStar {
          assert rest[5] == r[6] == '*';
          StarsAreWrapped(q[1..], 5);
        }
      }
    }
  }

  /** The paginated data query run for every attempt; its two placeholders
      take `(limit, offset)` in that order. */
  function DataQuery(q: string): (r: string)
    ensures |r| == |q| + |" LIMIT %s OFFSET %s;"|
    ensures r[..|q|] == q
    ensures r[|q|..] == " LIMIT %s OFFSET %s;"
  {
    q + " LIMIT %s OFFSET %s;"
  }

  /** Different configured queries give different data queries: the
      configured query can be read back from the data query. */
  lemma DataQueryInjective(a: string, b: string)
    requires DataQuery(a) == DataQuery(b)
    ensures a == b
  {
    assert |a| == |b|;
    assert a == DataQuery(a)[..|a|] == DataQuery(b)[..|b|] == b;
  }
}
