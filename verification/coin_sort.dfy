/** Sorting the feed by one numeric column with the comparator
    `desc ? b[f] - a[f] : a[f] - b[f]` (components/MarketsPage.tsx and
    components/MarketOverview.tsx), and the column-header toggle. */
module CoinSort {
  import opened Common
  import opened Market

  datatype SortField = MarketCap | PriceChangePercentage24h | CurrentPrice | TotalVolume

  datatype SortOrder = Asc | Desc

  datatype SortState = SortState(field: SortField, order: SortOrder)

  function Key(c: Coin, f: SortField): real {
    match f
    case MarketCap => c.marketCap
    case PriceChangePercentage24h => c.priceChangePercentage24h
    case CurrentPrice => c.currentPrice
    case TotalVolume => c.totalVolume
  }

  /** `a` may precede `b` in the chosen direction (the comparator is <= 0). */
  predicate Before(a: Coin, b: Coin, f: SortField, o: SortOrder) {
    if o == Desc then Key(a, f) >= Key(b, f) else Key(a, f) <= Key(b, f)
  }

  /** Non-increasing in the field for `desc`, non-decreasing for `asc`. */
  predicate Sorted(s: seq<Coin>, f: SortField, o: SortOrder) {
    forall i, j :: 0 <= i < j < |s| ==> Before(s[i], s[j], f, o)
  }

  /** Prepending an element that may precede everything keeps a sequence sorted. */
  lemma SortedCons(x: Coin, t: seq<Coin>, f: SortField, o: SortOrder)
    requires Sorted(t, f, o)
    requires forall k :: 0 <= k < |t| ==> Before(x, t[k], f, o)
    ensures Sorted([x] + t, f, o)
  {
    var r := [x] + t;
    forall i, j | 0 <= i < j < |r| ensures Before(r[i], r[j], f, o) {
      if i > 0 {
        assert r[i] == t[i - 1] && r[j] == t[j - 1];
      } else {
        assert r[j] == t[j - 1];
      }
    }
  }

  function Insert(c: Coin, s: seq<Coin>, f: SortField, o: SortOrder): (r: seq<Coin>)
    requires Sorted(s, f, o)
    ensures Sorted(r, f, o)
    ensures multiset(r) == multiset(s) + multiset{c}
    decreases |s|
  {
    if |s| == 0 || Before(c, s[0], f, o) then
      SortedCons(c, s, f, o);
      [c] + s
    else
      assert Sorted(s[1..], f, o);
      var t := Insert(c, s[1..], f, o);
      assert s == [s[0]] + s[1..];
      assert forall k :: 0 <= k < |t| ==> Before(s[0], t[k], f, o) by {
        forall k | 0 <= k < |t| ensures Before(s[0], t[k], f, o) {
          assert t[k] in multiset(t);
          if t[k] != c {
            assert t[k] in multiset(s[1..]);
            var m :| 0 <= m < |s[1..]| && s[1..][m] == t[k];
            assert s[m + 1] == t[k];
          }
        }
      }
      SortedCons(s[0], t, f, o);
      [s[0]] + t
  }

  /** A stable insertion sort: the result is a sorted permutation of `s`. */
  function Sort(s: seq<Coin>, f: SortField, o: SortOrder): (r: seq<Coin>)
    ensures Sorted(r, f, o)
    ensures multiset(r) == multiset(s)
    ensures |r| == |s|
    decreases |s|
  {
    if |s| == 0 then []
    else
      assert s == [s[0]] + s[1..];
      var r := Insert(s[0], Sort(s[1..], f, o), f, o);
      assert |r| == |multiset(r)|;
      r
  }

  /** The coins whose `f` column equals `v`. */
  function HasKey(f: SortField, v: real): Coin -> bool {
    (c: Coin) => Key(c, f) == v
  }

  /** Filtering a sequence with one element in front. */
  lemma FilterCons(x: Coin, t: seq<Coin>, p: Coin -> bool)
    ensures p(x) ==> Filter([x] + t, p) == [x] + Filter(t, p)
    ensures !p(x) ==> Filter([x] + t, p) == Filter(t, p)
  {
    assert ([x] + t)[0] == x;
    assert ([x] + t)[1..] == t;
  }

  /** Filtering a non-empty sequence, split at its head. */
  lemma FilterHead(s: seq<Coin>, p: Coin -> bool)
    requires |s| > 0
    ensures p(s[0]) ==> Filter(s, p) == [s[0]] + Filter(s[1..], p)
    ensures !p(s[0]) ==> Filter(s, p) == Filter(s[1..], p)
  {
    assert s == [s[0]] + s[1..];
    FilterCons(s[0], s[1..], p);
  }

  /** `[c]` when `c` has key `v` in column `f`, otherwise empty. */
  function Group(c: Coin, f: SortField, v: real): seq<Coin> {
    if Key(c, f) == v then [c] else []
  }

  /** The step case of `InsertStable`: `u` is `s` with `c` inserted past
      the head, whose key differs from `c`'s and so commutes with the group
      `c` joins. */
  lemma InsertStableStep(c: Coin, s: seq<Coin>, u: seq<Coin>, f: SortField, v: real)
    requires |s| > 0 && |u| > 0 && u[0] == s[0] && Key(s[0], f) != Key(c, f)
    requires Filter(u[1..], HasKey(f, v)) == Group(c, f, v) + Filter(s[1..], HasKey(f, v))
    ensures Filter(u, HasKey(f, v)) == Group(c, f, v) + Filter(s, HasKey(f, v))
  {
    var p := HasKey(f, v);
    FilterHead(u, p);
    FilterHead(s, p);
    if Key(c, f) == v {
      assert !p(s[0]);
    } else {
      var b := Filter(s[1..], p);
      assert Group(c, f, v) + b == b;
      assert Group(c, f, v) + Filter(s, p) == Filter(s, p);
    }
  }

  /** How `Insert` unfolds when `c` goes deeper than the head. */
  lemma InsertUnfold(c: Coin, s: seq<Coin>, f: SortField, o: SortOrder)
    requires Sorted(s, f, o)
    requires |s| > 0 && !Before(c, s[0], f, o)
    ensures Sorted(s[1..], f, o)
    ensures |Insert(c, s, f, o)| > 0 && Insert(c, s, f, o)[0] == s[0]
    ensures Insert(c, s, f, o)[1..] == Insert(c, s[1..], f, o)
    ensures Key(s[0], f) != Key(c, f)
  {
    assert Sorted(s[1..], f, o);
  }

  /** An inserted coin lands ahead of every coin with the same key, so each
      group of equal keys gains it at the front. */
  lemma {:induction false} InsertStable(c: Coin, s: seq<Coin>, f: SortField, o: SortOrder, v: real)
    requires Sorted(s, f, o)
    ensures Filter(Insert(c, s, f, o), HasKey(f, v)) == Group(c, f, v) + Filter(s, HasKey(f, v))
    decreases |s|
  {
    if |s| == 0 || Before(c, s[0], f, o) {
      assert Insert(c, s, f, o) == [c] + s;
      FilterCons(c, s, HasKey(f, v));
      if Key(c, f) != v {
        assert Group(c, f, v) + Filter(s, HasKey(f, v)) == Filter(s, HasKey(f, v));
      }
    } else {
      InsertUnfold(c, s, f, o);
      InsertStable(c, s[1..], f, o, v);
      InsertStableStep(c, s, Insert(c, s, f, o), f, v);
    }
  }

  /** `Sort` is stable: the coins sharing any one key value appear in the
      result in the same order as in the input. */
  lemma {:induction false} SortStable(s: seq<Coin>, f: SortField, o: SortOrder, v: real)
    ensures Filter(Sort(s, f, o), HasKey(f, v)) == Filter(s, HasKey(f, v))
    decreases |s|
  {
    if |s| > 0 {
      assert s == [s[0]] + s[1..];
      SortStable(s[1..], f, o, v);
      InsertStable(s[0], Sort(s[1..], f, o), f, o, v);
      FilterHead(s, HasKey(f, v));
      if Key(s[0], f) != v {
        assert Group(s[0], f, v) + Filter(s[1..], HasKey(f, v)) == Filter(s[1..], HasKey(f, v));
      }
    }
  }

  /** Every element of the sorted sequence comes from the input. */
  lemma SortedFrom(s: seq<Coin>, f: SortField, o: SortOrder)
    ensures forall x :: x in Sort(s, f, o) ==> x in s
  {
    forall x | x in Sort(s, f, o) ensures x in s {
      assert x in multiset(Sort(s, f, o));
    }
  }

  /** `handleSort`: the current column flips the order, a new column starts at `desc`. */
  function HandleSort(st: SortState, field: SortField): (r: SortState)
    ensures r.field == field
    ensures st.field == field ==> r.order != st.order
    ensures st.field != field ==> r.order == Desc
  {
    if st.field == field then
      SortState(field, if st.order == Desc then Asc else Desc)
    else
      SortState(field, Desc)
  }

  /** Clicking the same column twice restores the original state. */
  lemma HandleSortTwice(st: SortState)
    ensures HandleSort(HandleSort(st, st.field), st.field) == st
  {
  }
}
