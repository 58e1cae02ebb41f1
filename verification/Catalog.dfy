/** The public movie list: keyset pages newest first, each asking for one row more than it shows.
    A movie is its sort key; its other columns take no part in paging. */
module Catalog {
  import opened Common
  import opened Sorting

  const MAX_PAGE_SIZE := 100

  datatype Movie = Movie(createdAt: int, id: nat)

  /** A cursor is the key of the last movie shown. */
  type Cursor = Movie

  datatype Page = Page(movies: seq<Movie>, next: Option<Cursor>)

  datatype PageResult = Listed(page: Page) | InvalidPageSize

  predicate IsAfterCursor(movie: Movie, cursor: Cursor) {
    movie.createdAt < cursor.createdAt || (movie.createdAt == cursor.createdAt && movie.id < cursor.id)
  }

  predicate Eligible(movie: Movie, cursor: Option<Cursor>) {
    cursor.Some? ==> IsAfterCursor(movie, cursor.value)
  }

  // ----- what a query selects

  ghost predicate StrictlyDescending(q: seq<Movie>) {
    forall i, j | 0 <= i < j < |q| :: IsAfterCursor(q[j], q[i])
  }

  function Left(table: set<Movie>, cursor: Option<Cursor>): set<Movie> {
    set m | m in table && Eligible(m, cursor)
  }

  /** ORDER BY created_at DESC, id DESC LIMIT limit over the rows after the cursor. */
  ghost predicate Selects(rows: seq<Movie>, table: set<Movie>, cursor: Option<Cursor>, limit: nat) {
    && StrictlyDescending(rows) && Elements(rows) <= Left(table, cursor)
    && |rows| == Min(limit, |Left(table, cursor)|)
    && forall m, r | m in Left(table, cursor) - Elements(rows) && r in rows :: IsAfterCursor(m, r)
  }

  /** A page of at most `limit` movies; a next cursor exactly when something comes after it. */
  ghost predicate IsPage(page: Page, table: set<Movie>, cursor: Option<Cursor>, limit: nat) {
    && Selects(page.movies, table, cursor, limit)
    && (page.next.Some? <==> |Left(table, cursor)| > limit)
    && (page.next.Some? ==> page.movies != [] && page.next.value == page.movies[|page.movies| - 1])
  }

  // ----- the code

  class MemoryRepository {
    var movies: seq<Movie>

    /** Newest first; a fixture may name a movie twice. */
    ghost predicate Valid()
      reads this
    {
      Ordered(movies, Newer)
    }

    /** Copies the fixture and sorts it. */
    constructor (fixture: seq<Movie>)
      ensures Valid() && multiset(movies) == multiset(fixture)
    {
      var copy := new Movie[|fixture|](i requires 0 <= i < |fixture| => fixture[i]);
      assert copy[..] == fixture;
      SortMovies(copy);
      movies := copy[..];
    }

    /** The loop over the sorted fixture. */
    method ListMovies(cursor: Option<Cursor>, limit: nat) returns (rows: seq<Movie>)
      requires Valid()
      ensures rows == FirstOf(Kept(movies, cursor), limit)
      ensures NoRepeats(movies) && limit > 0 ==> Selects(rows, Elements(movies), cursor, limit)
    {
      hide Kept, NoRepeats, Selects, Ordered, Newer;
      rows := [];
      var i := 0;
      KeptNothing(movies, cursor);
      while i < |movies|
        invariant i <= |movies| && (limit > 0 ==> |rows| < limit)
        invariant rows == Kept(movies[..i], cursor)
      {
        KeptNext(movies, i, cursor);
        if cursor.Some? && !IsAfterCursor(movies[i], cursor.value) {
          i := i + 1;
          continue;
        }
        rows := rows + [movies[i]];
        i := i + 1;
        if |rows| == limit { break; }
      }
      KeptStops(movies, i, cursor, limit);
      if NoRepeats(movies) && limit > 0 { FirstKeptSelects(movies, cursor, limit); }
    }
  }

  /** The first `limit` rows; as in the loop, a limit of zero never stops it. */
  function FirstOf(q: seq<Movie>, limit: nat): seq<Movie> {
    if 0 < limit < |q| then q[..limit] else q
  }

  ghost predicate NoRepeats(q: seq<Movie>) {
    forall m :: multiset(q)[m] <= 1
  }

  lemma NextIsNew(q: seq<Movie>, n: nat)
    requires NoRepeats(q) && n < |q|
    ensures q[n] !in q[..n]
  {
    assert q == q[..n] + [q[n]] + q[n + 1..];
    assert multiset(q)[q[n]] == multiset(q[..n])[q[n]] + 1 + multiset(q[n + 1..])[q[n]];
  }

  predicate Newer(a: Movie, b: Movie) {
    IsAfterCursor(b, a)
  }

  /** Without repetitions, sorted is strictly descending. */
  lemma OrderedDescends(q: seq<Movie>)
    requires NoRepeats(q) && Ordered(q, Newer)
    ensures StrictlyDescending(q)
  {
    forall i, j | 0 <= i < j < |q| ensures IsAfterCursor(q[j], q[i]) {
      NextIsNew(q, j);
      assert q[i] in q[..j];
      assert !Newer(q[j], q[i]);
    }
  }

  /** Sorts newest first, in place. */
  method SortMovies(a: array<Movie>)
    modifies a
    ensures multiset(a[..]) == old(multiset(a[..])) && Ordered(a[..], Newer)
    ensures NoRepeats(old(a[..])) ==> StrictlyDescending(a[..])
  {
    SortSlice(a, Newer);
    if NoRepeats(a[..]) { OrderedDescends(a[..]); }
  }

  /** The service: one row more than the page shows tells whether there is a next page. */
  method ListMovies(repository: MemoryRepository, cursor: Option<Cursor>, limit: int) returns (r: PageResult)
    requires repository.Valid()
    ensures r == InvalidPageSize <==> !(1 <= limit <= MAX_PAGE_SIZE)
    ensures r.Listed? ==> r.page == CutToPage(Kept(repository.movies, cursor), limit)
    ensures r.Listed? && NoRepeats(repository.movies) ==> IsPage(r.page, Elements(repository.movies), cursor, limit)
  {
    if limit < 1 || limit > MAX_PAGE_SIZE { return InvalidPageSize; }
    var rows := repository.ListMovies(cursor, limit + 1);
    if |rows| <= limit {
      if NoRepeats(repository.movies) { ShortPage(rows, Elements(repository.movies), cursor, limit); }
      return Listed(Page(rows, None));
    }
    if NoRepeats(repository.movies) { CutPage(rows, Elements(repository.movies), cursor, limit); }
    return Listed(Page(rows[..limit], Some(rows[limit - 1])));
  }

  function CutToPage(kept: seq<Movie>, limit: int): Page
    requires limit > 0
  {
    if |kept| <= limit then Page(kept, None) else Page(kept[..limit], Some(kept[limit - 1]))
  }

  // ----- the code selects what the query says

  function Kept(q: seq<Movie>, cursor: Option<Cursor>): seq<Movie> {
    if q == [] then [] else
      var front, last := q[..|q| - 1], q[|q| - 1];
      Kept(front, cursor) + if Eligible(last, cursor) then [last] else []
  }

  lemma KeptNext(q: seq<Movie>, i: nat, cursor: Option<Cursor>)
    requires i < |q|
    ensures Kept(q[..i + 1], cursor) == Kept(q[..i], cursor) + if Eligible(q[i], cursor) then [q[i]] else []
  {
    assert q[..i + 1][..i] == q[..i];
  }

  lemma {:induction false} KeptListsEligible(q: seq<Movie>, cursor: Option<Cursor>)
    requires StrictlyDescending(q)
    ensures StrictlyDescending(Kept(q, cursor)) && Elements(Kept(q, cursor)) == Left(Elements(q), cursor)
  {
    if q != [] {
      var front, last := q[..|q| - 1], q[|q| - 1];
      KeptListsEligible(front, cursor);
      var kept := Kept(front, cursor);
      forall m ensures m in Kept(q, cursor) <==> m in q && Eligible(m, cursor) {
        assert m in kept <==> m in Elements(kept);
        assert m in q <==> m in front || m == last;
      }
      forall i | 0 <= i < |kept| ensures IsAfterCursor(last, kept[i]) {
        assert kept[i] in Elements(kept);
      }
    }
  }

  lemma {:induction false} DescendingCount(q: seq<Movie>)
    requires StrictlyDescending(q)
    ensures |Elements(q)| == |q|
  {
    DistinctIffFullCount(q);
  }

  lemma {:induction false} KeptPrefix(q: seq<Movie>, i: nat, cursor: Option<Cursor>)
    requires i <= |q|
    ensures Kept(q[..i], cursor) <= Kept(q, cursor)
    decreases |q| - i
  {
    if i == |q| {
      assert q[..i] == q;
    } else {
      KeptNext(q, i, cursor);
      KeptPrefix(q, i + 1, cursor);
    }
  }

  lemma KeptNothing(q: seq<Movie>, cursor: Option<Cursor>)
    ensures Kept(q[..0], cursor) == []
  {
  }

  /** Where the loop stops it has the first rows of the whole scan. */
  lemma KeptStops(q: seq<Movie>, i: nat, cursor: Option<Cursor>, limit: nat)
    requires i <= |q| && (i == |q| || |Kept(q[..i], cursor)| == limit)
    requires limit > 0 ==> |Kept(q[..i], cursor)| <= limit
    requires i < |q| ==> limit > 0
    ensures Kept(q[..i], cursor) == FirstOf(Kept(q, cursor), limit)
  {
    KeptPrefix(q, i, cursor);
    assert q[..|q|] == q;
  }

  lemma FirstKeptSelects(movies: seq<Movie>, cursor: Option<Cursor>, limit: nat)
    requires Ordered(movies, Newer) && NoRepeats(movies) && limit > 0
    ensures Selects(FirstOf(Kept(movies, cursor), limit), Elements(movies), cursor, limit)
  {
    var kept, left := Kept(movies, cursor), Left(Elements(movies), cursor);
    var rows := FirstOf(kept, limit);
    OrderedDescends(movies);
    KeptListsEligible(movies, cursor);
    DescendingCount(kept);
    forall m | m in Elements(rows) ensures m in left { assert m in Elements(kept); }
    forall m, r | m in left - Elements(rows) && r in rows ensures IsAfterCursor(m, r) {
      assert m in Elements(kept);
      var a :| 0 <= a < |rows| && rows[a] == r;
      var b :| 0 <= b < |kept| && kept[b] == m;
      assert kept[a] == r;
    }
  }

  lemma ShortPage(rows: seq<Movie>, table: set<Movie>, cursor: Option<Cursor>, limit: nat)
    requires Selects(rows, table, cursor, limit + 1) && |rows| <= limit
    ensures IsPage(Page(rows, None), table, cursor, limit)
  {
  }

  lemma CutPage(rows: seq<Movie>, table: set<Movie>, cursor: Option<Cursor>, limit: nat)
    requires limit > 0 && Selects(rows, table, cursor, limit + 1) && |rows| == limit + 1
    ensures IsPage(Page(rows[..limit], Some(rows[limit - 1])), table, cursor, limit)
  {
    var shown := rows[..limit];
    assert forall m :: m in rows <==> m in shown || m == rows[limit];
    assert Elements(shown) <= Elements(rows);
    forall m, r | m in Left(table, cursor) - Elements(shown) && r in shown ensures IsAfterCursor(m, r) {
      var i :| 0 <= i < limit && shown[i] == r;
      if m == rows[limit] { assert IsAfterCursor(rows[limit], rows[i]); }
      else { assert m !in Elements(rows) && r in rows; }
    }
  }

  // ----- following cursors while the table changes

  /** The pages a client sees: `tables[i]` is the table when the i-th page is fetched. */
  ghost predicate Traversal(tables: seq<set<Movie>>, cursor: Option<Cursor>, limit: nat, pages: seq<Page>)
    decreases |pages|
  {
    && |pages| == |tables|
    && (pages != [] ==>
          && IsPage(pages[0], tables[0], cursor, limit)
          && (|pages| > 1 ==> pages[0].next.Some? && Traversal(tables[1..], pages[0].next, limit, pages[1..])))
  }

  ghost predicate Complete(pages: seq<Page>) {
    pages != [] && pages[|pages| - 1].next.None?
  }

  function Shown(pages: seq<Page>): seq<Movie> {
    if pages == [] then [] else pages[0].movies + Shown(pages[1..])
  }

  lemma {:induction false} ShownDescends(tables: seq<set<Movie>>, cursor: Option<Cursor>, limit: nat, pages: seq<Page>)
    requires Traversal(tables, cursor, limit, pages)
    ensures StrictlyDescending(Shown(pages))
    ensures forall m | m in Shown(pages) :: Eligible(m, cursor)
    decreases |pages|
  {
    if pages != [] {
      var rows := pages[0].movies;
      forall m | m in rows ensures Eligible(m, cursor) { assert m in Elements(rows); }
      if |pages| > 1 {
        var rest := Shown(pages[1..]);
        ShownDescends(tables[1..], pages[0].next, limit, pages[1..]);
        forall i, j | 0 <= i < |rows| && 0 <= j < |rest| ensures IsAfterCursor(rest[j], rows[i]) {
          assert rest[j] in rest && (i < |rows| - 1 ==> IsAfterCursor(rows[|rows| - 1], rows[i]));
        }
        forall m | m in rest ensures Eligible(m, cursor) {
          var j :| 0 <= j < |rest| && rest[j] == m;
          assert rows[0] in Elements(rows) && IsAfterCursor(rest[j], rows[0]);
        }
      }
    }
  }

  lemma {:induction false} ShownCovers(tables: seq<set<Movie>>, cursor: Option<Cursor>, limit: nat, pages: seq<Page>,
                                       m: Movie)
    requires Traversal(tables, cursor, limit, pages) && Complete(pages)
    requires Eligible(m, cursor) && forall i | 0 <= i < |tables| :: m in tables[i]
    ensures m in Shown(pages)
    decreases |pages|
  {
    var rows, left := pages[0].movies, Left(tables[0], cursor);
    assert m in left;
    if m !in rows {
      if |pages| == 1 {
        DescendingCount(rows);
        SubsetSizes(Elements(rows), left);
      } else {
        assert m !in Elements(rows) && rows[|rows| - 1] in rows;
        ShownCovers(tables[1..], pages[0].next, limit, pages[1..], m);
      }
    }
  }

  /** Whatever is inserted or deleted between fetches, a traversal never goes back or repeats, and a
      finished one has shown every movie that was there all along exactly once. */
  lemma TraversalShowsEachOnce(tables: seq<set<Movie>>, limit: nat, pages: seq<Page>, m: Movie)
    requires Traversal(tables, None, limit, pages)
    ensures StrictlyDescending(Shown(pages))
    ensures Complete(pages) && (forall i | 0 <= i < |tables| :: m in tables[i]) ==> multiset(Shown(pages))[m] == 1
  {
    ShownDescends(tables, None, limit, pages);
    if Complete(pages) && forall i | 0 <= i < |tables| :: m in tables[i] {
      ShownCovers(tables, None, limit, pages, m);
      OccursOnce(Shown(pages), m);
    }
  }

  lemma OccursOnce(q: seq<Movie>, m: Movie)
    requires StrictlyDescending(q) && m in q
    ensures multiset(q)[m] == 1
  {
    var i :| 0 <= i < |q| && q[i] == m;
    assert q == q[..i] + [m] + q[i + 1..];
    assert m !in q[..i] && m !in q[i + 1..];
  }

  // ----- a table that does not change

  predicate Fixed(tables: seq<set<Movie>>, table: set<Movie>) {
    forall i | 0 <= i < |tables| :: tables[i] == table
  }

  lemma {:induction false} ShownComesFromTable(tables: seq<set<Movie>>, table: set<Movie>, cursor: Option<Cursor>,
                                               limit: nat, pages: seq<Page>)
    requires Traversal(tables, cursor, limit, pages) && Fixed(tables, table)
    ensures Elements(Shown(pages)) <= table
    decreases |pages|
  {
    if pages != [] {
      assert Elements(pages[0].movies) <= table;
      if |pages| > 1 { ShownComesFromTable(tables[1..], table, pages[0].next, limit, pages[1..]); }
      forall m | m in Shown(pages) ensures m in table {
        assert m in pages[0].movies || m in Shown(pages[1..]);
        if m in pages[0].movies { assert m in Elements(pages[0].movies); }
        else { assert m in Elements(Shown(pages[1..])); }
      }
    }
  }

  lemma {:induction false} DescendingIsUnique(p: seq<Movie>, q: seq<Movie>)
    requires StrictlyDescending(p) && StrictlyDescending(q) && Elements(p) == Elements(q)
    ensures p == q
  {
    DescendingCount(p);
    DescendingCount(q);
    if p != [] {
      assert p[0] in Elements(p) && q[0] in Elements(q);
      var i :| 0 <= i < |q| && q[i] == p[0];
      var j :| 0 <= j < |p| && p[j] == q[0];
      assert p[0] == q[0];
      DescendingTail(p);
      DescendingTail(q);
      DescendingIsUnique(p[1..], q[1..]);
      assert p == [p[0]] + p[1..] && q == [q[0]] + q[1..];
    }
  }

  lemma DescendingTail(p: seq<Movie>)
    requires StrictlyDescending(p) && p != []
    ensures StrictlyDescending(p[1..]) && Elements(p[1..]) == Elements(p) - {p[0]}
  {
    forall x ensures x in p[1..] <==> x in p && x != p[0] {
      if x in p && x != p[0] {
        var i :| 0 <= i < |p| && p[i] == x;
        assert p[1..][i - 1] == x;
      }
    }
  }

  /** A page with a successor is full and leaves exactly the rest of the rows. */
  lemma NextLeaves(page: Page, table: set<Movie>, cursor: Option<Cursor>, limit: nat)
    requires IsPage(page, table, cursor, limit) && page.next.Some?
    ensures |Left(table, page.next)| == |Left(table, cursor)| - limit
  {
    var rows := page.movies;
    var before, last := Left(table, cursor), rows[|rows| - 1];
    assert last in Elements(rows);
    forall m ensures m in Left(table, page.next) <==> m in before - Elements(rows) {
      if m in rows { var i :| 0 <= i < |rows| && rows[i] == m; }
      else if m in before { assert IsAfterCursor(m, last); }
    }
    assert Left(table, page.next) == before - Elements(rows);
    DescendingCount(rows);
    SubsetSizes(Elements(rows), before);
  }

  /** Over a fixed table the number of pages is bounded by the rows left: the traversal ends. */
  lemma {:induction false} PagesAreFew(tables: seq<set<Movie>>, table: set<Movie>, cursor: Option<Cursor>, limit: nat,
                                       pages: seq<Page>)
    requires limit > 0 && Traversal(tables, cursor, limit, pages) && Fixed(tables, table) && |pages| > 1
    ensures (|pages| - 1) * limit < |Left(table, cursor)|
    decreases |pages|
  {
    NextLeaves(pages[0], table, cursor, limit);
    if |pages| > 2 {
      PagesAreFew(tables[1..], table, pages[0].next, limit, pages[1..]);
      assert (|pages| - 1) * limit == (|pages| - 2) * limit + limit;
    } else {
      assert (|pages| - 1) * limit == limit;
    }
  }

  /** Over a fixed table the pages of a finished traversal concatenate to the table sorted newest
      first, and no traversal is longer than the table needs. */
  lemma FixedTableIsListed(table: set<Movie>, limit: nat, pages: seq<Page>, sorted: seq<Movie>)
    requires limit > 0 && Traversal(seq(|pages|, _ => table), None, limit, pages)
    requires StrictlyDescending(sorted) && Elements(sorted) == table
    ensures Complete(pages) ==> Shown(pages) == sorted
    ensures |pages| > 1 ==> (|pages| - 1) * limit < |table|
  {
    var tables: seq<set<Movie>> := seq(|pages|, _ => table);
    assert Left(table, None) == table;
    if |pages| > 1 { PagesAreFew(tables, table, None, limit, pages); }
    if Complete(pages) {
      ShownDescends(tables, None, limit, pages);
      ShownComesFromTable(tables, table, None, limit, pages);
      forall m | m in table ensures m in Elements(Shown(pages)) {
        ShownCovers(tables, None, limit, pages, m);
      }
      DescendingIsUnique(Shown(pages), sorted);
    }
  }
}
