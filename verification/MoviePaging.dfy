/** The list query itself: the batched scan refines filter, sort and slice, and following the
    cursors lists everything once. */
module MoviePaging {
  import opened Wrappers
  import opened MovieListing
  import opened Orders

  // ---------------------------------------------------------------- cutting at a cursor

  predicate Fits(sort: Sort, position: Option<Position>) {
    position.Some? ==> (position.value.AfterNumber? <==> sort == NumberAsc)
  }

  lemma DecodedFits(c: Codec, cursor: Option<string>, f: Filters)
    ensures DecodeCursor(c, cursor, f).Ok? ==> Fits(f.sort, DecodeCursor(c, cursor, f).value)
  {
  }

  /** Any position is the place of some movie, listed or not. */
  function PlaceHolder(position: Position): (m: Movie)
    ensures position.AfterNumber? ==> PositionOf(NumberAsc, m) == position
    ensures position.AfterDay? ==> PositionOf(DateAsc, m) == position && PositionOf(DateDesc, m) == position
  {
    match position
    case AfterNumber(number, id) => Movie(id, number, None, false, {})
    case AfterDay(day, id) => Movie(id, "", day, false, {})
  }

  /** Whatever cursor a listing started from, the rows after one of its rows are the rest of it. */
  lemma CutAfter(rows: set<Movie>, sort: Sort, position: Option<Position>, n: nat)
    requires DistinctIds(rows) && Fits(sort, position) && 0 < n <= |Listing(After(rows, sort, position), sort)|
    ensures var s := Listing(After(rows, sort, position), sort);
            Listing(After(rows, sort, Some(PositionOf(sort, s[n - 1]))), sort) == s[n..]
  {
    hide Admits, Before;
    var from := After(rows, sort, position);
    var s := Listing(from, sort);
    var last := s[n - 1];
    ListingMeaning(from, sort);
    assert last in s;
    forall m | m in rows ensures m in After(rows, sort, Some(PositionOf(sort, last))) <==> m in Later(from, sort, last) {
      AdmitsWhatComesAfter(sort, last, m);
      AdmittedOnward(sort, position, last, m);
    }
    assert After(rows, sort, Some(PositionOf(sort, last))) == Later(from, sort, last);
    RowsAfter(from, sort, n);
  }

  lemma ScanOn(v: View, start: Option<Position>, seen: nat)
    requires DistinctIds(v.catalog) && Fits(v.filters.sort, start) && 0 < seen <= |Listing(Admitted(v, start), v.filters.sort)|
    ensures var base := Listing(Admitted(v, start), v.filters.sort);
            Listing(Admitted(v, Some(PositionOf(v.filters.sort, base[seen - 1]))), v.filters.sort) == base[seen..]
  {
    CutAfter(Selected(v), v.filters.sort, start, seen);
  }

  lemma AdmittedOnward(sort: Sort, position: Option<Position>, last: Movie, m: Movie)
    requires Fits(sort, position) && Admits(sort, position, last)
    ensures Before(sort, last, m) ==> Admits(sort, position, m)
  {
    hide Before, Admits;
    if position.Some? {
      var place := PlaceHolder(position.value);
      AdmitsWhatComesAfter(sort, place, last);
      AdmitsWhatComesAfter(sort, place, m);
      SortOrder(sort, place, last, m);
    } else {
      AdmitsAll(sort, m);
    }
  }

  lemma AdmitsAll(sort: Sort, m: Movie)
    ensures Admits(sort, None, m)
  {
  }

  // ---------------------------------------------------------------- the queries

  /** One query: the selected rows past the cursor, in order, at most `limit` of them. */
  method Execute(v: View, position: Option<Position>, limit: nat) returns (rows: seq<Movie>)
    requires DistinctIds(v.catalog)
    ensures rows == Take(Listing(Admitted(v, position), v.filters.sort), limit)
  {
    hide Before, Selects, Admits;
    PlacesAreOrdered(Admitted(v, position), v.filters.sort);
    var all := SortBy(Admitted(v, position), ByPlace(v.filters.sort));
    rows := Take(all, limit);
  }

  /** The rows of a page and one more, or fewer when the list ends. With the playable filter the
      rows are scanned a hundred at a time, each scan from the cursor of the last row seen. */
  method MovieRows(v: View, cursor: Option<string>, limit: nat) returns (r: Result<seq<Movie>, Problem>)
    requires MovieListing.Sound(v) && !KnownEmpty(v)
    ensures match DecodeCursor(v.codec, cursor, v.filters)
            case Err(problem) => r == Err(problem)
            case Ok(position) => r == Ok(Take(Listing(ShownAfter(v, position), v.filters.sort), limit + 1))
  {
    hide Before, Admitted, ShownAfter, Keeps, DecodeCursor, EncodeCursor, Listing, KnownEmpty;
    DecodedFits(v.codec, cursor, v.filters);
    var sort := v.filters.sort;
    if v.filters.playable == None || !v.tracked {
      match DecodeCursor(v.codec, cursor, v.filters) {
        case Err(problem) => return Err(problem);
        case Ok(position) =>
          EverythingKept(v, position);
          var rows := Execute(v, position, limit + 1);
          return Ok(rows);
      }
    }
    ghost var start := if DecodeCursor(v.codec, cursor, v.filters).Ok? then DecodeCursor(v.codec, cursor, v.filters).value else None;
    ghost var base := Listing(Admitted(v, start), sort);
    ghost var seen := 0;
    var matched := [];
    var scanCursor := cursor;
    assert base[0..] == base;
    while |matched| <= limit
      invariant seen <= |base| && matched == Kept(v, base[..seen]) && |matched| <= limit
      invariant DecodeCursor(v.codec, scanCursor, v.filters) ==
                  if seen == 0 then DecodeCursor(v.codec, cursor, v.filters) else Ok(Some(PositionOf(sort, base[seen - 1])))
      invariant seen == 0 ==> DecodeCursor(v.codec, scanCursor, v.filters).Ok? ==> DecodeCursor(v.codec, scanCursor, v.filters).value == start
      invariant seen > 0 ==> DecodeCursor(v.codec, cursor, v.filters).Ok?
      decreases |base| - seen
    {
      var position;
      match DecodeCursor(v.codec, scanCursor, v.filters) {
        case Err(problem) => return Err(problem);
        case Ok(p) => position := p;
      }
      if seen > 0 {
        ScanOn(v, start, seen);
      }
      assert Listing(Admitted(v, position), sort) == base[seen..];
      var scanned := Execute(v, position, MAX_PAGE_SIZE);
      if scanned == [] {
        assert base[..seen] == base;
        break;
      }
      matched := KeepMatching(v, base, seen, scanned, matched, limit);
      if |matched| > limit || |scanned| < MAX_PAGE_SIZE {
        KeptUpTo(v, base, seen, |scanned|, matched, limit);
        break;
      }
      var last := scanned[|scanned| - 1];
      CursorRoundTrip(v.codec, v.filters, last, v.filters);
      scanCursor := Some(EncodeCursor(v.codec, v.filters, last));
      seen := seen + |scanned|;
    }
    KeptIsShown(v, start);
    return Ok(matched);
  }

  /** Scan a batch for matching rows, stopping as soon as the page is full. */
  method KeepMatching(v: View, ghost base: seq<Movie>, ghost seen: nat, scanned: seq<Movie>, already: seq<Movie>, limit: nat)
    returns (matched: seq<Movie>)
    requires seen + |scanned| <= |base| && scanned == base[seen..seen + |scanned|]
    requires already == Kept(v, base[..seen]) && |already| <= limit
    ensures |matched| <= limit ==> matched == Kept(v, base[..seen + |scanned|])
    ensures |matched| > limit ==> matched == Take(Kept(v, base), limit + 1)
  {
    hide Keeps;
    matched := already;
    for i := 0 to |scanned|
      invariant matched == Kept(v, base[..seen + i]) && |matched| <= limit
    {
      assert base[..seen + i + 1] == base[..seen + i] + [scanned[i]];
      if Keeps(v, scanned[i]) {
        matched := matched + [scanned[i]];
        if |matched| > limit {
          KeptConcat(v, base[..seen + i + 1], base[seen + i + 1..]);
          assert base == base[..seen + i + 1] + base[seen + i + 1..];
          return;
        }
      }
    }
  }

  lemma KeptUpTo(v: View, base: seq<Movie>, seen: nat, scanned: nat, matched: seq<Movie>, limit: nat)
    requires seen + scanned <= |base| && (seen + scanned == |base| || |matched| > limit)
    requires |matched| <= limit ==> matched == Kept(v, base[..seen + scanned])
    requires |matched| > limit ==> matched == Take(Kept(v, base), limit + 1)
    ensures matched == Take(Kept(v, base), limit + 1)
  {
    assert base[..|base|] == base;
  }

  lemma EverythingKept(v: View, position: Option<Position>)
    requires !KnownEmpty(v) && (v.filters.playable == None || !v.tracked)
    ensures ShownAfter(v, position) == Admitted(v, position)
  {
    hide Selects, Admits;
  }

  lemma KeptIsShown(v: View, position: Option<Position>)
    requires DistinctIds(v.catalog) && !KnownEmpty(v)
    ensures Kept(v, Listing(Admitted(v, position), v.filters.sort)) == Listing(ShownAfter(v, position), v.filters.sort)
  {
    hide Keeps, Admits, Selects;
    FilterCommutes(v, Admitted(v, position), v.filters.sort);
    assert KeptRows(v, Admitted(v, position)) == ShownAfter(v, position);
  }

  lemma TakeTake(rows: seq<Movie>, limit: nat)
    ensures Take(Take(rows, limit + 1), limit) == Take(rows, limit)
    ensures |Take(rows, limit + 1)| > limit <==> |rows| > limit
    ensures |rows| > limit >= 1 ==> Take(rows, limit)[limit - 1] == rows[limit - 1]
  {
  }

  method ListMovies(v: View, cursor: Option<string>, limit: nat) returns (r: Result<MoviePage, Problem>)
    requires MovieListing.Sound(v)
    ensures r == ListedPage(v, cursor, limit)
  {
    hide DecodeCursor, Before, Admits, Keeps, Selects, EncodeCursor, Listing;
    if !ValidFilters(v.filters) || !(1 <= limit <= MAX_PAGE_SIZE) {
      return Err(ValidationFailed);
    }
    if v.filters.favorite && v.favorites == {} {
      return Ok(MoviePage([], None));
    }
    if v.filters.playable == Some(true) && !v.tracked {
      return Ok(MoviePage([], None));
    }
    var rows := MovieRows(v, cursor, limit);
    if rows.Err? {
      return Err(rows.error);
    }
    var visible := Take(rows.value, limit);
    TakeTake(Listing(ShownAfter(v, DecodeCursor(v.codec, cursor, v.filters).value), v.filters.sort), limit);
    var nextCursor := None;
    if |rows.value| > limit {
      nextCursor := Some(EncodeCursor(v.codec, v.filters, visible[limit - 1]));
    }
    return Ok(MoviePage(visible, nextCursor));
  }

  // ---------------------------------------------------------------- following the cursors

  /** How many movies are still to be listed from a cursor. */
  ghost function Left(v: View, cursor: Option<string>): nat
    requires DistinctIds(v.catalog)
  {
    match DecodeCursor(v.codec, cursor, v.filters)
    case Err(_) => 0
    case Ok(position) => |Listing(ShownAfter(v, position), v.filters.sort)|
  }

  /** What the next cursor leaves is the rest of the listing. */
  lemma NextPage(v: View, cursor: Option<string>, limit: nat)
    requires MovieListing.Sound(v) && ListedPage(v, cursor, limit).Ok? && ListedPage(v, cursor, limit).value.nextCursor.Some?
    ensures var next := ListedPage(v, cursor, limit).value.nextCursor;
            && DecodeCursor(v.codec, cursor, v.filters).Ok? && DecodeCursor(v.codec, next, v.filters).Ok?
            && var rows := Listing(ShownAfter(v, DecodeCursor(v.codec, cursor, v.filters).value), v.filters.sort);
            && |rows| > limit && limit >= 1
            && Listing(ShownAfter(v, DecodeCursor(v.codec, next, v.filters).value), v.filters.sort) == rows[limit..]
  {
    hide DecodeCursor, Before, Admits, Keeps, Selects, EncodeCursor, Faithful;
    DecodedFits(v.codec, cursor, v.filters);
    var position := DecodeCursor(v.codec, cursor, v.filters).value;
    var rows := Listing(ShownAfter(v, position), v.filters.sort);
    CursorRoundTrip(v.codec, v.filters, rows[limit - 1], v.filters);
    CutAfter(Shown(v), v.filters.sort, position, limit);
  }

  /** Ask for the first page, then for the page of each next cursor, until there is none. */
  ghost function Follow(v: View, cursor: Option<string>, limit: nat): seq<Movie>
    requires MovieListing.Sound(v)
    decreases Left(v, cursor)
  {
    match ListedPage(v, cursor, limit)
    case Err(_) => []
    case Ok(page) =>
      if page.nextCursor == None then page.items
      else
        NextPage(v, cursor, limit);
        page.items + Follow(v, page.nextCursor, limit)
  }

  lemma {:induction false} FollowFrom(v: View, cursor: Option<string>, limit: nat)
    requires MovieListing.Sound(v) && ValidFilters(v.filters) && 1 <= limit <= MAX_PAGE_SIZE && !KnownEmpty(v)
    requires DecodeCursor(v.codec, cursor, v.filters).Ok?
    ensures Follow(v, cursor, limit) == Listing(ShownAfter(v, DecodeCursor(v.codec, cursor, v.filters).value), v.filters.sort)
    decreases Left(v, cursor)
  {
    hide DecodeCursor, Before, Admits, Keeps, Selects, EncodeCursor, Faithful;
    var page := ListedPage(v, cursor, limit).value;
    if page.nextCursor.Some? {
      NextPage(v, cursor, limit);
      FollowFrom(v, page.nextCursor, limit);
    }
  }

  /** Following the cursors from the first page ends and lists exactly the movies shown, in order
      and once each, for every sort, filter and page size. */
  lemma FollowListsAll(v: View, limit: nat)
    requires MovieListing.Sound(v) && ValidFilters(v.filters) && 1 <= limit <= MAX_PAGE_SIZE
    ensures Follow(v, None, limit) == Listing(Shown(v), v.filters.sort)
    ensures InOrder(Follow(v, None, limit), ByPlace(v.filters.sort))
    ensures forall m :: m in Follow(v, None, limit) <==> m in Shown(v)
    ensures forall i, j :: 0 <= i < j < |Follow(v, None, limit)| ==> Follow(v, None, limit)[i] != Follow(v, None, limit)[j]
  {
    hide Before, Keeps, Selects;
    ListingMeaning(Shown(v), v.filters.sort);
    if !KnownEmpty(v) {
      FollowFrom(v, None, limit);
      assert ShownAfter(v, None) == Shown(v);
    }
    var all := Follow(v, None, limit);
    forall i, j | 0 <= i < j < |all| ensures all[i] != all[j] {
      SortOrder(v.filters.sort, all[i], all[i], all[i]);
    }
  }

  /** Even when the catalog changes between two requests, the second page starts strictly after the
      first one ended. */
  lemma PagesNeverOverlap(v: View, w: View, cursor: Option<string>, limit: nat, m: Movie, n: Movie)
    requires MovieListing.Sound(v) && MovieListing.Sound(w) && w.filters == v.filters && w.codec == v.codec
    requires ListedPage(v, cursor, limit).Ok? && ListedPage(v, cursor, limit).value.nextCursor.Some?
    requires var next := ListedPage(v, cursor, limit).value.nextCursor;
             ListedPage(w, next, limit).Ok? && m in ListedPage(v, cursor, limit).value.items && n in ListedPage(w, next, limit).value.items
    ensures Before(v.filters.sort, m, n)
  {
    hide Before, DecodeCursor, Admits, Keeps, Selects, EncodeCursor, Faithful;
    var sort := v.filters.sort;
    var rows := Listing(ShownAfter(v, DecodeCursor(v.codec, cursor, v.filters).value), sort);
    var last := rows[limit - 1];
    ListingMeaning(ShownAfter(v, DecodeCursor(v.codec, cursor, v.filters).value), sort);
    CursorRoundTrip(v.codec, v.filters, last, v.filters);
    ListingMeaning(ShownAfter(w, Some(PositionOf(sort, last))), sort);
    AdmitsWhatComesAfter(sort, last, n);
    var i :| 0 <= i < limit && rows[i] == m;
    assert i < limit - 1 ==> ByPlace(sort)(rows[i], rows[limit - 1]);
    SortOrder(sort, m, last, n);
    assert n in ShownAfter(w, Some(PositionOf(sort, last)));
  }

  // ---------------------------------------------------------------- what is listed, and when

  /** One source meets every filter that is asked of sources, playability included when it is tracked. */
  ghost predicate Meets(v: View, s: Source) {
    var f := v.filters;
    && s.status != Unmatched
    && (f.categories != {} ==> s.category in f.categories)
    && (f.website == None || f.website == Some(s.website))
    && (forall l :: l in f.labels ==> l in s.labels)
    && (s.size == None ==> f.minSize == None && f.maxSize == None)
    && (s.size.Some? ==>
          (forall low :: f.minSize == Some(low) ==> low <= s.size.value) && (forall high :: f.maxSize == Some(high) ==> s.size.value <= high))
    && (f.playable.Some? && v.tracked ==> (s.ready <==> f.playable.value))
  }

  /** A movie is listed exactly when it has its core, is a favorite if only those are asked for, and one
      of its sources meets all the source filters at once; playable movies are not listed while
      playability is not tracked. */
  lemma ShownExactly(v: View, m: Movie)
    ensures m in Shown(v) <==>
              && m in v.catalog && m.coreReady && (v.filters.favorite ==> m.id in v.favorites)
              && !(v.filters.playable == Some(true) && !v.tracked)
              && exists s :: s in m.sources && Meets(v, s)
  {
    forall s | s in m.sources
      ensures Meets(v, s) <==>
                Qualifies(s, v.filters) && (v.filters.playable.Some? && v.tracked ==> s.ready == v.filters.playable.value)
    {
      QualifiesExactly(v, s);
    }
    hide Qualifies, Meets;
  }

  lemma QualifiesExactly(v: View, s: Source)
    ensures Meets(v, s) <==>
              Qualifies(s, v.filters) && (v.filters.playable.Some? && v.tracked ==> s.ready == v.filters.playable.value)
  {
  }

  /** A page is refused exactly when the sizes asked for are negative or crossed, the page size is not
      between 1 and 100, or the cursor cannot be read; a list known to be empty does not look at the
      cursor. There is a next page exactly when more movies are left than fit on this one. */
  lemma ListsExactly(v: View, cursor: Option<string>, limit: nat)
    requires DistinctIds(v.catalog)
    ensures var (f, page) := (v.filters, ListedPage(v, cursor, limit));
            var crossed := exists low, high :: f.minSize == Some(low) && f.maxSize == Some(high) && low > high;
            var negative := exists size :: size < 0 && (f.minSize == Some(size) || f.maxSize == Some(size));
            var empty := (f.favorite && v.favorites == {}) || (f.playable == Some(true) && !v.tracked);
            && (page.Ok? <==> !crossed && !negative && 1 <= limit <= 100 && (empty || DecodeCursor(v.codec, cursor, f).Ok?))
            && (page.Ok? ==>
                  var left := if empty then 0 else Left(v, cursor);
                  |page.value.items| == (if left <= limit then left else limit) && (page.value.nextCursor.Some? <==> left > limit))
  {
    hide Before, DecodeCursor, Admits, Keeps, Selects, EncodeCursor, Listing;
  }
}
