/**
 * A histogram registry reduced to what the analysis tasks observably do with it:
 * every fill appends one entry (the filled coordinates) to the named histogram.
 * Binning, axis ranges and labels are presentation and are not modelled; the
 * number of entries in a histogram, or the number filled at one coordinate
 * (a bin of a counter histogram), is what the lemmas speak about.
 */
module Histograms {

  /**
   * The coordinates of one fill: one for a 1-D histogram, two for a 2-D one,
   * or one coordinate and a weight for a weighted 1-D fill.
   */
  datatype Entry = Entry1(x: real) | Entry2(x: real, y: real) | Weighted(x: real, w: real)

  /** Each histogram's fills, in fill order; a histogram never filled is absent. */
  type Registry<K(==, !new)> = map<K, seq<Entry>>

  function Entries<K(==, !new)>(h: Registry<K>, k: K): seq<Entry>
  {
    if k in h then h[k] else []
  }

  /** Number of entries of histogram `k`. */
  function Count<K(==, !new)>(h: Registry<K>, k: K): nat
  {
    |Entries(h, k)|
  }

  /** One fill: histogram `k` gains entry `e` at its end and no other histogram changes. */
  function Fill<K(==, !new)>(h: Registry<K>, k: K, e: Entry): (r: Registry<K>)
    ensures Entries(r, k) == Entries(h, k) + [e]
  {
    h[k := Entries(h, k) + [e]]
  }

  /** A fill guarded by `c`: histogram `k` gains `e` when `c` holds, and nothing else changes. */
  function FillIf<K(==, !new)>(h: Registry<K>, c: bool, k: K, e: Entry): (r: Registry<K>)
    ensures Entries(r, k) == Entries(h, k) + (if c then [e] else [])
  {
    if c then Fill(h, k, e) else h
  }

  /** Fills `es` into histogram `k`, in order: `k` gains exactly `es` and no other histogram changes. */
  function FillAll<K(==, !new)>(h: Registry<K>, k: K, es: seq<Entry>): (r: Registry<K>)
    ensures Entries(r, k) == Entries(h, k) + es
  {
    if es == [] then h else h[k := Entries(h, k) + es]
  }

  /** Filling a sequence and then one more entry is filling the longer sequence: FillAll is repeated Fill. */
  lemma FillAllSnoc<K(!new)>(h: Registry<K>, k: K, es: seq<Entry>, e: Entry)
    ensures Fill(FillAll(h, k, es), k, e) == FillAll(h, k, es + [e])
  {
    assert Entries(h, k) + es + [e] == Entries(h, k) + (es + [e]);
  }

  /** Filling nothing changes nothing. */
  lemma FillAllEmpty<K(!new)>(h: Registry<K>, k: K)
    ensures FillAll(h, k, []) == h
  {
  }

  /** One fill seen from any histogram `j`: only histogram `k` gains the entry. */
  lemma FillEffect<K(!new)>(h: Registry<K>, k: K, e: Entry, j: K)
    ensures Entries(Fill(h, k, e), j) == Entries(h, j) + (if j == k then [e] else [])
  {
  }

  /** Three stages of fills, each adding to histogram `k`, add their concatenation. */
  lemma FillsCompose<K(!new)>(h: Registry<K>, h1: Registry<K>, h2: Registry<K>, h3: Registry<K>, k: K, a: seq<Entry>, b: seq<Entry>, c: seq<Entry>)
    requires Entries(h1, k) == Entries(h, k) + a
    requires Entries(h2, k) == Entries(h1, k) + b
    requires Entries(h3, k) == Entries(h2, k) + c
    ensures Entries(h3, k) == Entries(h, k) + (a + b + c)
  {
    assert Entries(h, k) + a + b + c == Entries(h, k) + (a + b + c);
  }

  /** Two stages of fills, each adding to histogram `k`, add their concatenation. */
  lemma FillsCompose2<K(!new)>(h: Registry<K>, h1: Registry<K>, h2: Registry<K>, k: K, a: seq<Entry>, b: seq<Entry>)
    requires Entries(h1, k) == Entries(h, k) + a
    requires Entries(h2, k) == Entries(h1, k) + b
    ensures Entries(h2, k) == Entries(h, k) + (a + b)
  {
    assert Entries(h, k) + a + b == Entries(h, k) + (a + b);
  }

  /** Number of entries filled at first coordinate `x`: the content of the bin holding `x`. */
  function CountAt(s: seq<Entry>, x: real): (n: nat)
    ensures n <= |s|
  {
    if s == [] then 0 else CountAt(s[..|s| - 1], x) + (if s[|s| - 1].x == x then 1 else 0)
  }

  lemma {:induction false} CountAtAppend(s: seq<Entry>, t: seq<Entry>, x: real)
    ensures CountAt(s + t, x) == CountAt(s, x) + CountAt(t, x)
  {
    if t == [] {
      assert s + t == s;
    } else {
      var u := t[..|t| - 1];
      assert (s + t)[..|s + t| - 1] == s + u;
      CountAtAppend(s, u, x);
    }
  }
}
