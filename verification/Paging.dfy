/** Listing resources in pages with a filter that is computed after the database page
    (`list_resources` in app/main.py), on a fixed set of rows. */
module Paging {
  import opened LedgerModel

  /** What a resource's `upgrade_available` shows; unknown matches nothing. */
  type Upgrades = ResId -> Option<bool>

  const SCAN: nat := 500
  const CHUNK: nat := 100

  predicate Sorted(ids: seq<ResId>) { forall i, j :: 0 <= i < j < |ids| ==> ids[i] < ids[j] }

  /** `id > after ORDER BY id`. */
  function Rest(ids: seq<ResId>, after: Option<ResId>): seq<ResId> {
    if ids == [] || after.None? || after.value < ids[0] then ids else Rest(ids[1..], after)
  }

  /** `ledger.list_resources`: the next rows, at most `n`. */
  function Query(ids: seq<ResId>, after: Option<ResId>, n: nat): seq<ResId> {
    var rest := Rest(ids, after);
    if |rest| <= n then rest else rest[..n]
  }

  function Matching(ids: seq<ResId>, upgrades: Upgrades, wanted: bool): seq<ResId> {
    if ids == [] then []
    else
      var last := ids[|ids| - 1];
      Matching(ids[..|ids| - 1], upgrades, wanted) + if upgrades(last) == Some(wanted) then [last] else []
  }

  lemma {:induction false} MatchingConcat(a: seq<ResId>, b: seq<ResId>, upgrades: Upgrades, wanted: bool)
    ensures Matching(a + b, upgrades, wanted) == Matching(a, upgrades, wanted) + Matching(b, upgrades, wanted)
  {
    if b == [] {
      assert a + b == a;
    } else {
      MatchingConcat(a, b[..|b| - 1], upgrades, wanted);
      assert (a + b)[..|a + b| - 1] == a + b[..|b| - 1];
    }
  }

  lemma {:induction false} MatchingNext(rest: seq<ResId>, k: nat, upgrades: Upgrades, wanted: bool)
    requires k < |rest|
    ensures Matching(rest[..k + 1], upgrades, wanted)
            == Matching(rest[..k], upgrades, wanted) + if upgrades(rest[k]) == Some(wanted) then [rest[k]] else []
  {
    assert rest[..k + 1][..k] == rest[..k];
  }

  lemma {:induction false} NothingMatched(upgrades: Upgrades, wanted: bool)
    ensures Matching([], upgrades, wanted) == [] && Joined([]) == []
  {
  }

  lemma {:induction false} RestAfter(ids: seq<ResId>, j: nat)
    requires Sorted(ids) && j < |ids|
    ensures Rest(ids, Some(ids[j])) == ids[j + 1..]
  {
    if j > 0 {
      RestAfter(ids[1..], j - 1);
      assert ids[1..][j..] == ids[j + 1..];
    } else if |ids| > 1 {
      assert ids[1..][0] > ids[0];
    }
  }

  lemma {:induction false} RestIsSuffix(ids: seq<ResId>, after: Option<ResId>)
    requires Sorted(ids)
    ensures var rest := Rest(ids, after);
            |rest| <= |ids| && rest == ids[|ids| - |rest|..] && Sorted(rest)
            && (after.Some? ==> forall id :: id in rest ==> id > after.value)
  {
    if ids != [] && after.Some? && after.value >= ids[0] { RestIsSuffix(ids[1..], after); }
  }

  /** A page covers the first `k` remaining rows and shows exactly their matches; its cursor is the
      last row covered, and there is one exactly when rows remain. */
  ghost predicate PageCovers(rest: seq<ResId>, upgrades: Upgrades, wanted: bool, limit: nat,
                             items: seq<ResId>, next: Option<ResId>, k: nat) {
    && k <= |rest| && items == Matching(rest[..k], upgrades, wanted) && |items| <= limit
    && (next.Some? <==> k < |rest|)
    && (next.Some? ==> 0 < k && next.value == rest[k - 1])
  }

  /** The filtered branch of `list_resources`. It examines at most SCAN rows. */
  method ListFiltered(ids: seq<ResId>, after: Option<ResId>, limit: nat, upgrades: Upgrades, wanted: bool)
    returns (items: seq<ResId>, next: Option<ResId>)
    requires Sorted(ids) && limit >= 1
    ensures exists covered: nat :: covered <= SCAN
              && PageCovers(Rest(ids, after), upgrades, wanted, limit, items, next, covered)
              && (next.Some? && |items| < limit ==> covered == SCAN)
  {
    hide Matching, Rest, Sorted, Query;
    ghost var rest := Rest(ids, after);
    var matched: seq<ResId>, scanned: nat, cursor, exhausted := [], 0, after, false;
    ghost var covered: nat := 0;
    ghost var chunks: nat := 0;
    NothingMatched(upgrades, wanted);
    assert rest[..0] == [] && rest[0..] == rest;
    while |matched| <= limit && scanned < SCAN
      invariant scanned == CHUNK * chunks <= SCAN && scanned <= |rest| && !exhausted
      invariant matched == Matching(rest[..scanned], upgrades, wanted) && |matched| <= limit
      invariant Rest(ids, cursor) == rest[scanned..]
      invariant scanned > 0 ==> scanned < |rest| && cursor == Some(rest[scanned - 1])
      decreases SCAN - scanned
    {
      var chunk := Query(ids, cursor, CHUNK + 1);
      var page := if |chunk| <= CHUNK then chunk else chunk[..CHUNK];
      PageIs(ids, cursor, rest, scanned);
      var full;
      ghost var at := scanned;
      matched, full, covered := Filter(page, matched, limit, upgrades, wanted, rest, at);
      if full { break; }
      scanned, chunks := scanned + |page|, chunks + 1;
      if |chunk| <= CHUNK {
        exhausted := true;
        break;
      }
      cursor := Some(page[|page| - 1]);
      RestMoves(ids, after, rest, at + |page|);
    }
    if |matched| > limit {
      items := matched[..limit];
      next := Some(items[|items| - 1]);
    } else {
      covered := scanned;
      items := matched;
      next := if exhausted then None else cursor;
    }
    assert PageCovers(rest, upgrades, wanted, limit, items, next, covered);
  }

  lemma {:induction false} PageIs(ids: seq<ResId>, cursor: Option<ResId>, rest: seq<ResId>, at: nat)
    requires at <= |rest| && Rest(ids, cursor) == rest[at..]
    ensures var chunk := Query(ids, cursor, CHUNK + 1);
            var page := if |chunk| <= CHUNK then chunk else chunk[..CHUNK];
            && at + |page| <= |rest| && page == rest[at..at + |page|]
            && (|chunk| <= CHUNK <==> at + |page| == |rest|)
            && (|chunk| > CHUNK ==> |page| == CHUNK)
  {
  }

  lemma {:induction false} RestMoves(ids: seq<ResId>, after: Option<ResId>, rest: seq<ResId>, k: nat)
    requires Sorted(ids) && rest == Rest(ids, after) && 0 < k <= |rest|
    ensures Rest(ids, Some(rest[k - 1])) == rest[k..]
  {
    RestIsSuffix(ids, after);
    var j := |ids| - |rest| + k - 1;
    RestAfter(ids, j);
    assert rest[k..] == ids[j + 1..];
  }

  /** The loop over one database page; it stops at the first match too many. `covered` is how many
      rows the page that is then shown covers: up to its last item. */
  method Filter(page: seq<ResId>, found: seq<ResId>, limit: nat, upgrades: Upgrades, wanted: bool,
                ghost rest: seq<ResId>, ghost at: nat)
    returns (matched: seq<ResId>, full: bool, ghost covered: nat)
    requires limit >= 1 && at + |page| <= |rest| && page == rest[at..at + |page|]
    requires found == Matching(rest[..at], upgrades, wanted) && |found| <= limit
    ensures full <==> |matched| > limit
    ensures !full ==> matched == Matching(rest[..at + |page|], upgrades, wanted)
    ensures full ==> |matched| == limit + 1 && 0 < covered < |rest| && covered <= at + |page|
                     && matched[..limit] == Matching(rest[..covered], upgrades, wanted)
                     && matched[limit - 1] == rest[covered - 1]
  {
    hide Matching;
    matched, full := found, false;
    covered := LastMatch(rest, at, upgrades, wanted);
    for i := 0 to |page|
      invariant matched == Matching(rest[..at + i], upgrades, wanted) && |matched| <= limit && !full
      invariant covered <= at + i && Matching(rest[..covered], upgrades, wanted) == matched
      invariant matched != [] ==> 0 < covered && matched[|matched| - 1] == rest[covered - 1]
    {
      MatchingNext(rest, at + i, upgrades, wanted);
      assert page[i] == rest[at + i];
      if upgrades(page[i]) == Some(wanted) {
        matched := matched + [page[i]];
        if |matched| > limit { return matched, true, covered; }
        covered := at + i + 1;
      }
    }
  }

  /** How far the matches among the first `n` rows reach. */
  lemma {:induction false} LastMatch(rest: seq<ResId>, n: nat, upgrades: Upgrades, wanted: bool) returns (k: nat)
    requires n <= |rest|
    ensures k <= n && Matching(rest[..k], upgrades, wanted) == Matching(rest[..n], upgrades, wanted)
    ensures var found := Matching(rest[..k], upgrades, wanted);
            found != [] ==> 0 < k && found[|found| - 1] == rest[k - 1]
  {
    k := n;
    if n > 0 {
      MatchingNext(rest, n - 1, upgrades, wanted);
      if upgrades(rest[n - 1]) != Some(wanted) { k := LastMatch(rest, n - 1, upgrades, wanted); }
    }
  }

  // ----- Following the cursor -----

  /** Following `next_after` from the start, on a fixed set of rows: the pages together are every
      matching resource, once, in order; the cursor strictly rises; it ends. */
  method FollowPages(ids: seq<ResId>, limit: nat, upgrades: Upgrades, wanted: bool)
    returns (all: seq<ResId>, pages: seq<seq<ResId>>, cursors: seq<ResId>)
    requires Sorted(ids) && limit >= 1
    ensures all == Matching(ids, upgrades, wanted) == Joined(pages)
    ensures Sorted(cursors)
    ensures forall p :: p in pages ==> |p| <= limit
    ensures |pages| == |cursors| + 1
  {
    hide Matching, Joined;
    NothingMatched(upgrades, wanted);
    all, pages, cursors := [], [], [];
    var after: Option<ResId> := None;
    ghost var done: nat := 0;
    assert ids[..0] == [] && ids[0..] == ids;
    while true
      invariant done <= |ids| && Rest(ids, after) == ids[done..]
      invariant all == Matching(ids[..done], upgrades, wanted) == Joined(pages)
      invariant |pages| == |cursors| && Sorted(cursors) && forall p :: p in pages ==> |p| <= limit
      invariant cursors != [] ==> 0 < done && cursors[|cursors| - 1] == ids[done - 1]
      decreases |ids| - done
    {
      var items, next := ListFiltered(ids, after, limit, upgrades, wanted);
      ghost var covered: nat :|
        covered <= SCAN && PageCovers(Rest(ids, after), upgrades, wanted, limit, items, next, covered);
      Step(ids, done, covered, upgrades, wanted);
      all := all + items;
      JoinedNext(pages, items);
      pages := pages + [items];
      if next.None? {
        assert ids[..done + covered] == ids;
        return;
      }
      done := done + covered;
      RestAfter(ids, done - 1);
      cursors := cursors + [next.value];
      after := next;
    }
  }

  lemma {:induction false} Step(ids: seq<ResId>, done: nat, k: nat, upgrades: Upgrades, wanted: bool)
    requires done + k <= |ids|
    ensures Matching(ids[..done + k], upgrades, wanted)
            == Matching(ids[..done], upgrades, wanted) + Matching(ids[done..][..k], upgrades, wanted)
  {
    assert ids[..done] + ids[done..][..k] == ids[..done + k];
    MatchingConcat(ids[..done], ids[done..][..k], upgrades, wanted);
  }

  function Joined(pages: seq<seq<ResId>>): seq<ResId> {
    if pages == [] then [] else Joined(pages[..|pages| - 1]) + pages[|pages| - 1]
  }

  lemma {:induction false} JoinedNext(pages: seq<seq<ResId>>, items: seq<ResId>)
    ensures Joined(pages + [items]) == Joined(pages) + items
  {
    assert (pages + [items])[..|pages|] == pages;
  }

  /** What the pages add up to is every resource that matches and nothing else, each once. */
  lemma {:induction false} MatchingIsExact(ids: seq<ResId>, upgrades: Upgrades, wanted: bool)
    requires Sorted(ids)
    ensures Sorted(Matching(ids, upgrades, wanted))
    ensures forall id :: id in Matching(ids, upgrades, wanted) <==> id in ids && upgrades(id) == Some(wanted)
  {
    if ids != [] {
      var earlier, last := ids[..|ids| - 1], ids[|ids| - 1];
      MatchingIsExact(earlier, upgrades, wanted);
      assert forall id :: id in ids <==> id in earlier || id == last;
      var found := Matching(earlier, upgrades, wanted);
      forall i | 0 <= i < |found| ensures found[i] < last {
        assert found[i] in earlier;
        var j :| 0 <= j < |earlier| && earlier[j] == found[i];
      }
    }
  }
}
