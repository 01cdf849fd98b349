/**
 * tantivy's `TopDocs` collector, as the core uses it: of the documents a query
 * matches, the `limit` ones with the largest sort key, largest first. A key is a
 * pair compared lexicographically, the shape of `(cb(id), score)`.
 */
module TopDocs {
  import opened Tantivy

  datatype Key = Key(primary: int, secondary: int)

  /** Lexicographic order on keys. */
  predicate KeyLe(a: Key, b: Key) {
    a.primary < b.primary || (a.primary == b.primary && a.secondary <= b.secondary)
  }

  /** A matched document with the key the collector ranks it by. */
  datatype Scored = Scored(key: Key, addr: DocAddress)

  /** Largest key first. */
  predicate SortedDesc(s: seq<Scored>) {
    forall i, j :: 0 <= i < j < |s| ==> KeyLe(s[j].key, s[i].key)
  }

  /** Places `x` after every element whose key is at least its own. */
  function Insert(x: Scored, s: seq<Scored>): (r: seq<Scored>)
    requires SortedDesc(s)
    ensures SortedDesc(r)
    ensures multiset(r) == multiset(s) + multiset{x}
    ensures |r| == |s| + 1
  {
    if s == [] then [x]
    else if KeyLe(x.key, s[0].key) then
      var t := Insert(x, s[1..]);
      assert s == [s[0]] + s[1..];
      BelowHead(x, s, t);
      [s[0]] + t
    else
      [x] + s
  }

  /** What is inserted behind the head of a sorted sequence ranks no higher than the head. */
  lemma BelowHead(x: Scored, s: seq<Scored>, t: seq<Scored>)
    requires SortedDesc(s) && s != [] && KeyLe(x.key, s[0].key)
    requires multiset(t) == multiset(s[1..]) + multiset{x}
    ensures forall k :: 0 <= k < |t| ==> KeyLe(t[k].key, s[0].key)
  {
    forall k | 0 <= k < |t|
      ensures KeyLe(t[k].key, s[0].key)
    {
      assert t[k] in multiset(t);
      if t[k] != x {
        assert t[k] in multiset(s[1..]);
        var j :| 0 <= j < |s[1..]| && s[1..][j] == t[k];
        assert s[j + 1] == t[k];
      }
    }
  }

  /** All matches, largest key first; equal keys keep no particular order. */
  function Rank(s: seq<Scored>): (r: seq<Scored>)
    ensures SortedDesc(r)
    ensures multiset(r) == multiset(s)
    ensures |r| == |s|
  {
    if s == [] then [] else
      assert s == [s[0]] + s[1..];
      Insert(s[0], Rank(s[1..]))
  }

  /** `TopDocs::with_limit(limit)` run over the matches `s`. */
  function Top(s: seq<Scored>, limit: nat): (r: seq<Scored>)
    ensures |r| == if |s| < limit then |s| else limit
    ensures SortedDesc(r)
    ensures multiset(r) <= multiset(s)
  {
    var ranked := Rank(s);
    var n := if |s| < limit then |s| else limit;
    assert ranked == ranked[..n] + ranked[n..];
    ranked[..n]
  }

  /** Every match left out of the top `limit` ranks no higher than every match kept. */
  lemma {:induction false} TopKeepsLargest(s: seq<Scored>, limit: nat)
    ensures var r := Top(s, limit); var dropped := Rank(s)[|r|..];
      multiset(s) == multiset(r) + multiset(dropped) &&
      forall x, y :: x in r && y in dropped ==> KeyLe(y.key, x.key)
  {
    var ranked := Rank(s);
    var n := if |s| < limit then |s| else limit;
    assert Top(s, limit) == ranked[..n];
    assert ranked == ranked[..n] + ranked[n..];
    assert multiset(s) == multiset(ranked[..n]) + multiset(ranked[n..]);
    SplitRanks(ranked, n);
  }

  /** Cutting a sorted sequence leaves every element of the front at or above every element of the back. */
  lemma SplitRanks(ranked: seq<Scored>, n: nat)
    requires SortedDesc(ranked) && n <= |ranked|
    ensures forall x, y :: x in ranked[..n] && y in ranked[n..] ==> KeyLe(y.key, x.key)
  {
    forall x, y | x in ranked[..n] && y in ranked[n..]
      ensures KeyLe(y.key, x.key)
    {
      var i :| 0 <= i < n && ranked[..n][i] == x;
      var j :| 0 <= j < |ranked| - n && ranked[n..][j] == y;
      assert ranked[i] == x && ranked[n + j] == y;
    }
  }

  /** The collector keeps only matches it was given. */
  lemma TopMembers(s: seq<Scored>, limit: nat)
    ensures forall x :: x in Top(s, limit) ==> x in s
  {
    var r := Top(s, limit);
    forall x | x in r
      ensures x in s
    {
      assert x in multiset(r);
    }
  }

  /** The addresses the collector hands back, in rank order. */
  function Addresses(s: seq<Scored>): (r: seq<DocAddress>)
    ensures |r| == |s|
    ensures forall k :: 0 <= k < |s| ==> r[k] == s[k].addr
  {
    if s == [] then [] else [s[0].addr] + Addresses(s[1..])
  }
}
