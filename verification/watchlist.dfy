/** The watchlist of contexts/CryptoContext.tsx: a list of coin ids used as a set. */
module Watchlist {
  import opened Common

  predicate NoDuplicates(ids: seq<string>) {
    forall i, j :: 0 <= i < j < |ids| ==> ids[i] != ids[j]
  }

  /** `addToWatchlist`: nothing happens for an id already present, otherwise
      the id is appended at the end. */
  function Add(ids: seq<string>, id: string): (r: seq<string>)
    ensures id in r
    ensures id in ids ==> r == ids
    ensures id !in ids ==> |r| == |ids| + 1 && r[..|ids|] == ids && r[|ids|] == id
    ensures forall x :: x in r <==> x in ids || x == id
  {
    if id in ids then ids else ids + [id]
  }

  lemma AddIdempotent(ids: seq<string>, id: string)
    ensures Add(Add(ids, id), id) == Add(ids, id)
  {
  }

  /** A duplicate-free watchlist stays duplicate-free under `Add`. */
  lemma AddKeepsNoDuplicates(ids: seq<string>, id: string)
    requires NoDuplicates(ids)
    ensures NoDuplicates(Add(ids, id))
  {
  }

  /** The predicate of `watchlist.filter(item => item !== id)`. */
  function Differs(id: string): string -> bool {
    x => x != id
  }

  /** `removeFromWatchlist`: every occurrence of `id` is dropped and the other
      ids keep their order. */
  function Remove(ids: seq<string>, id: string): (r: seq<string>)
    ensures id !in r
    ensures forall x :: x != id ==> (x in r <==> x in ids)
    ensures IsSubsequence(r, ids)
    ensures id !in ids ==> r == ids
    // every other id keeps all its copies
    ensures forall x :: x != id ==> multiset(r)[x] == multiset(ids)[x]
  {
    var r := Filter(ids, Differs(id));
    forall x | x != id ensures multiset(r)[x] == multiset(ids)[x] {
      if x in ids {
        var i :| 0 <= i < |ids| && ids[i] == x;
      }
    }
    if id in ids then r
    else
      FilterKeepsAll(ids, Differs(id));
      r
  }

  /** Removing an id that was just added (and was absent before) gives back
      the original list. */
  lemma RemoveUndoesAdd(ids: seq<string>, id: string)
    requires id !in ids
    ensures Remove(Add(ids, id), id) == ids
  {
    FilterAppendRejected(ids, id);
  }

  lemma {:induction false} FilterAppendRejected(ids: seq<string>, id: string)
    requires id !in ids
    ensures Filter(ids + [id], Differs(id)) == ids
    decreases |ids|
  {
    if |ids| == 0 {
      assert ids + [id] == [id];
    } else {
      assert (ids + [id])[1..] == ids[1..] + [id];
      FilterAppendRejected(ids[1..], id);
    }
  }

  /** Removing keeps a duplicate-free list duplicate-free. */
  lemma {:induction false} RemoveKeepsNoDuplicates(ids: seq<string>, id: string)
    requires NoDuplicates(ids)
    ensures NoDuplicates(Remove(ids, id))
    decreases |ids|
  {
    if |ids| > 0 {
      assert NoDuplicates(ids[1..]);
      RemoveKeepsNoDuplicates(ids[1..], id);
      assert ids[0] !in ids[1..];
    }
  }
}
