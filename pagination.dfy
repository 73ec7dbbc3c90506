/**
 * Keyset pagination as the registry runs it against its tables: rows ordered by ascending id,
 * `WHERE id > cursor`, `LIMIT n`. The row type and its id are parameters, so the same facts serve
 * tags and assets.
 */
module Pagination {
  /** Strictly ascending ids, the order `ORDER BY id ASC` gives over a primary key. */
  predicate Ascending<T(!new)>(rows: seq<T>, key: T -> nat)
  {
    forall i, j :: 0 <= i < j < |rows| ==> key(rows[i]) < key(rows[j])
  }

  /** `WHERE id > cursor`, order kept. */
  function After<T(!new)>(rows: seq<T>, key: T -> nat, cursor: nat): (r: seq<T>)
    ensures |r| <= |rows|
  {
    if rows == [] then []
    else (if key(rows[0]) > cursor then [rows[0]] else []) + After(rows[1..], key, cursor)
  }

  /** `LIMIT n`. */
  function Take<T(!new)>(rows: seq<T>, n: nat): (r: seq<T>)
    ensures |r| == if n < |rows| then n else |rows|
    ensures r == rows[..|r|]
  {
    if n < |rows| then rows[..n] else rows
  }

  /** Number of leading rows whose id is at most the cursor. */
  function CountUpTo<T(!new)>(rows: seq<T>, key: T -> nat, cursor: nat): (k: nat)
    ensures k <= |rows|
  {
    if rows == [] || key(rows[0]) > cursor then 0 else 1 + CountUpTo(rows[1..], key, cursor)
  }

  /** Over ascending rows, `id > cursor` keeps a suffix. */
  lemma {:induction false} AfterIsSuffix<T(!new)>(rows: seq<T>, key: T -> nat, cursor: nat)
    requires Ascending(rows, key)
    ensures After(rows, key, cursor) == rows[CountUpTo(rows, key, cursor)..]
    ensures forall i :: 0 <= i < CountUpTo(rows, key, cursor) ==> key(rows[i]) <= cursor
  {
    if rows != [] {
      if key(rows[0]) > cursor {
        AllAfter(rows[1..], key, cursor);
      } else {
        AfterIsSuffix(rows[1..], key, cursor);
      }
    }
  }

  /** When every id is above the cursor, nothing is filtered out. */
  lemma {:induction false} AllAfter<T(!new)>(rows: seq<T>, key: T -> nat, cursor: nat)
    requires forall i :: 0 <= i < |rows| ==> key(rows[i]) > cursor
    ensures After(rows, key, cursor) == rows
  {
    if rows != [] {
      AllAfter(rows[1..], key, cursor);
    }
  }

  /** `WHERE id > cursor` keeps exactly the rows above the cursor. */
  lemma {:induction false} AfterMembers<T(!new)>(rows: seq<T>, key: T -> nat, cursor: nat)
    ensures forall x :: x in After(rows, key, cursor) <==> x in rows && key(x) > cursor
  {
    if rows != [] {
      AfterMembers(rows[1..], key, cursor);
      assert rows == [rows[0]] + rows[1..];
    }
  }

  /** With no key above the cursor, nothing lies past it. */
  lemma {:induction false} AfterNoneAbove<T(!new)>(rows: seq<T>, key: T -> nat, cursor: nat)
    requires forall i :: 0 <= i < |rows| ==> key(rows[i]) <= cursor
    ensures After(rows, key, cursor) == []
  {
    if rows != [] {
      assert key(rows[0]) <= cursor;
      assert forall i :: 0 <= i < |rows[1..]| ==> rows[1..][i] == rows[i + 1];
      AfterNoneAbove(rows[1..], key, cursor);
    }
  }

  /**
   * A page cut from the rows past a cursor holds only stored rows above the cursor, in
   * ascending id order.
   */
  lemma PageRows<T(!new)>(rows: seq<T>, key: T -> nat, cursor: nat, limit: nat)
    requires Ascending(rows, key)
    ensures var items := Take(After(rows, key, cursor), limit);
      Ascending(items, key) && forall x :: x in items ==> x in rows && key(x) > cursor
  {
    AfterMembers(rows, key, cursor);
    AfterAscending(rows, key, cursor);
    TakeFacts(After(rows, key, cursor), key, limit);
  }

  lemma AfterAscending<T(!new)>(rows: seq<T>, key: T -> nat, cursor: nat)
    requires Ascending(rows, key)
    ensures Ascending(After(rows, key, cursor), key)
  {
    AfterIsSuffix(rows, key, cursor);
    var k := CountUpTo(rows, key, cursor);
    var m := After(rows, key, cursor);
    forall i, j | 0 <= i < j < |m|
      ensures key(m[i]) < key(m[j])
    {
      assert m[i] == rows[k + i] && m[j] == rows[k + j];
    }
  }

  /** A prefix of ascending rows is ascending and holds only rows of the original. */
  lemma TakeFacts<T(!new)>(m: seq<T>, key: T -> nat, limit: nat)
    requires Ascending(m, key)
    ensures Ascending(Take(m, limit), key)
    ensures forall x :: x in Take(m, limit) ==> x in m
  {
    var items := Take(m, limit);
    forall x | x in items
      ensures x in m
    {
      var j :| 0 <= j < |items| && items[j] == x;
      assert m[j] == x;
    }
  }

  /** With ids of at least 1, cursor 0 filters nothing, so "no cursor" and cursor 0 agree. */
  lemma ZeroCursorKeepsAll<T(!new)>(rows: seq<T>, key: T -> nat)
    requires forall i :: 0 <= i < |rows| ==> key(rows[i]) >= 1
    ensures After(rows, key, 0) == rows
  {
    AllAfter(rows, key, 0);
  }

  /** The count of rows up to the cursor, located by where the ids cross the cursor. */
  lemma {:induction false} CountUpToAt<T(!new)>(rows: seq<T>, key: T -> nat, cursor: nat, j: nat)
    requires j <= |rows|
    requires forall i :: 0 <= i < j ==> key(rows[i]) <= cursor
    requires j < |rows| ==> key(rows[j]) > cursor
    ensures CountUpTo(rows, key, cursor) == j
  {
    if j > 0 {
      CountUpToAt(rows[1..], key, cursor, j - 1);
    }
  }

  /** The cursor taken from row j-1 restarts exactly at row j. */
  lemma AfterRow<T(!new)>(rows: seq<T>, key: T -> nat, j: nat)
    requires Ascending(rows, key) && 0 < j <= |rows|
    ensures After(rows, key, key(rows[j - 1])) == rows[j..]
  {
    var c := key(rows[j - 1]);
    CountUpToAt(rows, key, c, j);
    AfterIsSuffix(rows, key, c);
  }

  /**
   * One page: a non-empty page followed by everything after its last id is exactly what the
   * page was taken from, so the next page starts right after it.
   */
  lemma PageSplit<T(!new)>(rows: seq<T>, key: T -> nat, cursor: nat, limit: nat)
    requires Ascending(rows, key)
    ensures var m := After(rows, key, cursor);
      var page := Take(m, limit);
      page != [] ==> m == page + After(rows, key, key(page[|page| - 1]))
  {
    var m := After(rows, key, cursor);
    var page := Take(m, limit);
    AfterIsSuffix(rows, key, cursor);
    var k := CountUpTo(rows, key, cursor);
    if page != [] {
      assert page[|page| - 1] == rows[k + |page| - 1];
      AfterRow(rows, key, k + |page|);
      assert m == rows[k..k + |page|] + rows[k + |page|..];
    }
  }

  /**
   * A client that follows `nextCursor` while `hasMore` holds: the pages it receives, one after
   * the other. The limit must be at least 1, as the callers' defaults make it.
   */
  function Walk<T(!new)>(rows: seq<T>, key: T -> nat, cursor: nat, limit: nat): seq<T>
    requires Ascending(rows, key) && limit >= 1
    decreases |After(rows, key, cursor)|
  {
    var m := After(rows, key, cursor);
    var page := Take(m, limit);
    if |m| > limit then
      PageSplit(rows, key, cursor, limit);
      page + Walk(rows, key, key(page[|page| - 1]), limit)
    else page
  }

  /**
   * Walking from a cursor yields every row after the cursor exactly once, in id order: no row is
   * returned twice and none is skipped.
   */
  lemma {:induction false} WalkCovers<T(!new)>(rows: seq<T>, key: T -> nat, cursor: nat, limit: nat)
    requires Ascending(rows, key) && limit >= 1
    ensures Walk(rows, key, cursor, limit) == After(rows, key, cursor)
    decreases |After(rows, key, cursor)|
  {
    var m := After(rows, key, cursor);
    var page := Take(m, limit);
    if |m| > limit {
      PageSplit(rows, key, cursor, limit);
      WalkCovers(rows, key, key(page[|page| - 1]), limit);
    }
  }

  /** Starting at cursor 0 over ids of at least 1, the walk returns the whole table. */
  lemma WalkFromStart<T(!new)>(rows: seq<T>, key: T -> nat, limit: nat)
    requires Ascending(rows, key) && limit >= 1
    requires forall i :: 0 <= i < |rows| ==> key(rows[i]) >= 1
    ensures Walk(rows, key, 0, limit) == rows
  {
    WalkCovers(rows, key, 0, limit);
    ZeroCursorKeepsAll(rows, key);
  }

  /** The result of one listing call. */
  datatype Page<T> = Page(items: seq<T>, nextCursor: nat, hasMore: bool)

  /**
   * The tail of `ListTags`/`ListAssets`: given what `LIMIT limit+1` fetched, report whether there
   * is more, cut to `limit`, and take the last id as the next cursor (0 for an empty page).
   */
  method CutPage<T(!new)>(fetched: seq<T>, key: T -> nat, limit: nat) returns (page: Page<T>)
    ensures page.hasMore <==> |fetched| > limit
    ensures page.items == Take(fetched, limit)
    ensures page.items == [] ==> page.nextCursor == 0
    ensures page.items != [] ==> page.nextCursor == key(page.items[|page.items| - 1])
  {
    var items := fetched;
    var hasMore := |items| > limit;
    if hasMore {
      items := items[..limit];
    }
    var nextCursor := 0;
    if |items| > 0 {
      nextCursor := key(items[|items| - 1]);
    }
    return Page(items, nextCursor, hasMore);
  }

  /**
   * The page a listing returns for the rows its query matches: the first `limit` of them, the
   * last returned id as the next cursor (0 for an empty page), and whether more rows matched.
   */
  function PageOf<T(!new)>(matching: seq<T>, key: T -> nat, limit: nat): Page<T>
  {
    var items := Take(matching, limit);
    Page(items, if items == [] then 0 else key(items[|items| - 1]), |matching| > limit)
  }

  /**
   * One listing call is one step of the walk: its items, followed by the walk from its next
   * cursor when it reports more, are the whole walk from its cursor.
   */
  lemma WalkStep<T(!new)>(rows: seq<T>, key: T -> nat, cursor: nat, limit: nat)
    requires Ascending(rows, key) && limit >= 1
    ensures var p := PageOf(After(rows, key, cursor), key, limit);
      Walk(rows, key, cursor, limit) == p.items + (if p.hasMore then Walk(rows, key, p.nextCursor, limit) else [])
  {
  }

  /** What `CutPage` makes of a `LIMIT limit+1` fetch is the page of everything that matched. */
  lemma CutFetchIsPage<T(!new)>(matching: seq<T>, key: T -> nat, limit: nat, page: Page<T>)
    requires page.hasMore <==> |Take(matching, limit + 1)| > limit
    requires page.items == Take(Take(matching, limit + 1), limit)
    requires page.items == [] ==> page.nextCursor == 0
    requires page.items != [] ==> page.nextCursor == key(page.items[|page.items| - 1])
    ensures page == PageOf(matching, key, limit)
  {
    FetchOneMore(matching, limit);
  }

  /**
   * Fetching one more row than the limit is enough to tell whether rows remain beyond the page:
   * `hasMore` computed on the fetch equals "more than limit rows match".
   */
  lemma FetchOneMore<T(!new)>(matching: seq<T>, limit: nat)
    ensures |Take(matching, limit + 1)| > limit <==> |matching| > limit
    ensures Take(Take(matching, limit + 1), limit) == Take(matching, limit)
  {
  }

  /** On the last page the next cursor leads to nothing more. */
  lemma LastPage<T(!new)>(rows: seq<T>, key: T -> nat, cursor: nat, limit: nat)
    requires Ascending(rows, key)
    requires |After(rows, key, cursor)| <= limit && After(rows, key, cursor) != []
    ensures var page := Take(After(rows, key, cursor), limit);
      After(rows, key, key(page[|page| - 1])) == []
  {
    PageSplit(rows, key, cursor, limit);
  }

  /** A `WHERE` clause: the rows satisfying p, order kept. */
  function Where<T>(rows: seq<T>, p: T -> bool): (r: seq<T>)
    ensures |r| <= |rows|
  {
    if rows == [] then []
    else (if p(rows[0]) then [rows[0]] else []) + Where(rows[1..], p)
  }

  lemma {:induction false} WhereMembers<T(!new)>(rows: seq<T>, p: T -> bool)
    ensures forall x :: x in Where(rows, p) <==> x in rows && p(x)
  {
    if rows != [] {
      WhereMembers(rows[1..], p);
      assert rows == [rows[0]] + rows[1..];
    }
  }

  /** Filtering keeps ascending rows ascending. */
  lemma {:induction false} WhereAscending<T(!new)>(rows: seq<T>, key: T -> nat, p: T -> bool)
    requires Ascending(rows, key)
    ensures Ascending(Where(rows, p), key)
  {
    if rows != [] {
      WhereAscending(rows[1..], key, p);
      WhereMembers(rows[1..], p);
      var w := Where(rows[1..], p);
      forall j | 0 <= j < |w|
        ensures key(rows[0]) < key(w[j])
      {
        assert w[j] in rows[1..];
      }
    }
  }

  /** The cursor condition and any other condition can be applied in either order. */
  lemma {:induction false} WhereAfter<T(!new)>(rows: seq<T>, key: T -> nat, cursor: nat, p: T -> bool)
    ensures After(Where(rows, p), key, cursor) == Where(After(rows, key, cursor), p)
  {
    if rows != [] {
      WhereAfter(rows[1..], key, cursor, p);
      AfterConcat((if p(rows[0]) then [rows[0]] else []), Where(rows[1..], p), key, cursor);
      WhereConcat((if key(rows[0]) > cursor then [rows[0]] else []), After(rows[1..], key, cursor), p);
    }
  }

  lemma {:induction false} AfterConcat<T(!new)>(a: seq<T>, b: seq<T>, key: T -> nat, cursor: nat)
    ensures After(a + b, key, cursor) == After(a, key, cursor) + After(b, key, cursor)
  {
    if a != [] {
      assert (a + b)[1..] == a[1..] + b;
      AfterConcat(a[1..], b, key, cursor);
    } else {
      assert a + b == b;
    }
  }

  lemma {:induction false} WhereConcat<T>(a: seq<T>, b: seq<T>, p: T -> bool)
    ensures Where(a + b, p) == Where(a, p) + Where(b, p)
  {
    if a != [] {
      assert (a + b)[1..] == a[1..] + b;
      WhereConcat(a[1..], b, p);
    } else {
      assert a + b == b;
    }
  }

  /** How many rows `OFFSET offset` skips: none unless offset is positive, at most all of them. */
  function Skipped(offset: int, n: nat): (k: nat)
    ensures k <= n
    ensures offset <= 0 ==> k == 0
    ensures 0 < offset <= n ==> k == offset
  {
    if offset <= 0 then 0 else if offset < n then offset else n
  }

  /**
   * `Limit(limit).Offset(offset)` as GORM builds it: an OFFSET only for a positive offset and a
   * LIMIT only for a limit that is not negative.
   */
  function Window<T>(rows: seq<T>, limit: int, offset: int): (r: seq<T>)
    ensures limit >= 0 ==> |r| <= limit
    ensures var k := Skipped(offset, |rows|); k + |r| <= |rows| && r == rows[k..k + |r|]
    ensures (limit < 0 || Skipped(offset, |rows|) + limit >= |rows|) ==> |r| == |rows| - Skipped(offset, |rows|)
  {
    var rest := rows[Skipped(offset, |rows|)..];
    if 0 <= limit < |rest| then rest[..limit] else rest
  }

  /** Two conditions that agree on every row select the same rows. */
  lemma {:induction false} WhereAgree<T>(rows: seq<T>, p: T -> bool, p': T -> bool)
    requires forall i :: 0 <= i < |rows| ==> p(rows[i]) == p'(rows[i])
    ensures Where(rows, p) == Where(rows, p')
  {
    if rows != [] {
      assert forall i :: 0 <= i < |rows[1..]| ==> rows[1..][i] == rows[i + 1];
      WhereAgree(rows[1..], p, p');
    }
  }
}
