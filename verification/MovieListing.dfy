/** The movie list: filters, three sort orders, opaque cursors, and the batched scan behind the
    playable filter. */
module MovieListing {
  import opened Wrappers
  import Base64Url
  import opened Orders

  type Uuid = nat
  type Day = int

  const MAX_PAGE_SIZE: nat := 100

  datatype SourceState = Identified | ManualMatch | Unmatched

  datatype Source = Source(status: SourceState, category: string, website: string, size: Option<int>, labels: set<string>, ready: bool)

  datatype Movie = Movie(id: Uuid, number: string, released: Option<Day>, coreReady: bool, sources: set<Source>)

  datatype Sort = DateDesc | DateAsc | NumberAsc

  datatype Filters = Filters(categories: set<string>, labels: set<string>, website: Option<string>, playable: Option<bool>,
                             minSize: Option<int>, maxSize: Option<int>, favorite: bool, sort: Sort)

  datatype Problem = ValidationFailed

  // ---------------------------------------------------------------- filters

  predicate ValidFilters(f: Filters) {
    && (f.minSize.Some? ==> f.minSize.value >= 0)
    && (f.maxSize.Some? ==> f.maxSize.value >= 0)
    && (f.minSize.Some? && f.maxSize.Some? ==> f.minSize.value <= f.maxSize.value)
  }

  /** A comparison with a missing size is never true. */
  predicate Qualifies(s: Source, f: Filters) {
    && (s.status == Identified || s.status == ManualMatch)
    && (f.categories == {} || s.category in f.categories)
    && (f.website.Some? ==> s.website == f.website.value)
    && (f.minSize.Some? ==> s.size.Some? && s.size.value >= f.minSize.value)
    && (f.maxSize.Some? ==> s.size.Some? && s.size.value <= f.maxSize.value)
    && f.labels <= s.labels
  }

  predicate Selects(m: Movie, f: Filters, favorites: set<Uuid>) {
    && m.coreReady
    && (exists s :: s in m.sources && Qualifies(s, f))
    && (f.favorite ==> m.id in favorites)
  }

  /** Some qualifying source is ready, or some is not. */
  predicate MatchesPlayable(m: Movie, f: Filters, playable: bool) {
    exists s :: s in m.sources && Qualifies(s, f) && s.ready == playable
  }

  // ---------------------------------------------------------------- sort orders

  /** Missing dates come last in both date orders. */
  predicate Before(sort: Sort, a: Movie, b: Movie) {
    match sort
    case NumberAsc => TextBefore(a.number, b.number) || (a.number == b.number && a.id < b.id)
    case DateAsc =>
      (match (a.released, b.released)
       case (None, None) => a.id < b.id
       case (None, Some(_)) => false
       case (Some(_), None) => true
       case (Some(x), Some(y)) => x < y || (x == y && a.id < b.id))
    case DateDesc =>
      (match (a.released, b.released)
       case (None, None) => a.id > b.id
       case (None, Some(_)) => false
       case (Some(_), None) => true
       case (Some(x), Some(y)) => x > y || (x == y && a.id > b.id))
  }

  /** Each sort is a strict total order on movies with distinct ids. */
  lemma SortOrder(sort: Sort, a: Movie, b: Movie, c: Movie)
    ensures Before(sort, a, b) && Before(sort, b, c) ==> Before(sort, a, c)
    ensures a.id != b.id ==> (Before(sort, a, b) <==> !Before(sort, b, a))
    ensures !Before(sort, a, a)
  {
    TextOrder(a.number, b.number, c.number);
  }

  predicate DistinctIds(rows: set<Movie>) {
    forall a, b :: a in rows && b in rows && a.id == b.id ==> a == b
  }

  function ByPlace(sort: Sort): (Movie, Movie) -> bool {
    (a, b) => Before(sort, a, b)
  }

  lemma PlacesAreOrdered(rows: set<Movie>, sort: Sort)
    requires DistinctIds(rows)
    ensures StrictOrder(rows, ByPlace(sort))
  {
    hide Before;
    forall a, b, c | a in rows && b in rows && c in rows
      ensures !Before(sort, a, a) && (a != b ==> (Before(sort, a, b) <==> !Before(sort, b, a)))
      ensures Before(sort, a, b) && Before(sort, b, c) ==> Before(sort, a, c)
    {
      SortOrder(sort, a, b, c);
    }
  }

  /** What `order by` returns. */
  ghost function Listing(rows: set<Movie>, sort: Sort): seq<Movie>
    requires DistinctIds(rows)
  {
    PlacesAreOrdered(rows, sort);
    Sorted(rows, ByPlace(sort))
  }

  // ---------------------------------------------------------------- cursors

  /** The sort key travels as text or is missing; the signature repeats the filters. */
  datatype Payload = Payload(signature: Filters, id: Uuid, key: Option<string>)

  /** Writing a payload as bytes and reading it back, and dates as text. */
  datatype Codec = Codec(write: Payload -> seq<Base64Url.Byte>, read: seq<Base64Url.Byte> -> Option<Payload>,
                         isoFormat: Day -> string, fromIso: string -> Option<Day>)

  ghost predicate Faithful(c: Codec) {
    && (forall p :: c.read(c.write(p)) == Some(p))
    && (forall d :: c.isoFormat(d) != "" && c.fromIso(c.isoFormat(d)) == Some(d))
  }

  function CursorKey(c: Codec, sort: Sort, m: Movie): Option<string> {
    if sort == NumberAsc then Some(m.number)
    else match m.released
      case None => None
      case Some(d) => Some(c.isoFormat(d))
  }

  function EncodeCursor(c: Codec, f: Filters, m: Movie): string {
    Base64Url.EncodeText(c.write(Payload(f, m.id, CursorKey(c, f.sort, m))))
  }

  datatype Position = AfterNumber(number: string, id: Uuid) | AfterDay(day: Option<Day>, id: Uuid)

  /** A cursor that is not readable, was made for other filters, or whose key does not fit the sort
      is refused. An empty date key reads as a missing date. */
  function DecodeCursor(c: Codec, cursor: Option<string>, f: Filters): Result<Option<Position>, Problem> {
    if cursor == None then Ok(None)
    else match Base64Url.DecodeText(cursor.value)
      case None => Err(ValidationFailed)
      case Some(bytes) =>
        match c.read(bytes)
        case None => Err(ValidationFailed)
        case Some(payload) =>
          if payload.signature != f then Err(ValidationFailed)
          else if f.sort == NumberAsc then
            (if payload.key == None then Err(ValidationFailed) else Ok(Some(AfterNumber(payload.key.value, payload.id))))
          else if payload.key == None || payload.key.value == "" then Ok(Some(AfterDay(None, payload.id)))
          else match c.fromIso(payload.key.value)
            case None => Err(ValidationFailed)
            case Some(d) => Ok(Some(AfterDay(Some(d), payload.id)))
  }

  function PositionOf(sort: Sort, m: Movie): Position {
    if sort == NumberAsc then AfterNumber(m.number, m.id) else AfterDay(m.released, m.id)
  }

  /** The condition the cursor adds to the query, one branch for each sort and for missing dates. */
  predicate Admits(sort: Sort, position: Option<Position>, m: Movie) {
    if position == None then true
    else match position.value
      case AfterNumber(number, id) => TextBefore(number, m.number) || (m.number == number && m.id > id)
      case AfterDay(None, id) => m.released == None && if sort == DateDesc then m.id < id else m.id > id
      case AfterDay(Some(day), id) =>
        || m.released == None
        || (if sort == DateDesc then m.released.value < day else m.released.value > day)
        || (m.released.value == day && if sort == DateDesc then m.id < id else m.id > id)
  }

  // ---------------------------------------------------------------- pages

  datatype View = View(catalog: set<Movie>, filters: Filters, favorites: set<Uuid>, tracked: bool, codec: Codec)

  ghost predicate Sound(v: View) {
    DistinctIds(v.catalog) && Faithful(v.codec)
  }

  /** The rows the statement selects; the playable filter is not part of it. */
  function Selected(v: View): set<Movie> {
    set m | m in v.catalog && Selects(m, v.filters, v.favorites)
  }

  function After(rows: set<Movie>, sort: Sort, position: Option<Position>): set<Movie> {
    set m | m in rows && Admits(sort, position, m)
  }

  function Admitted(v: View, position: Option<Position>): (rows: set<Movie>)
    ensures rows <= v.catalog
  {
    After(Selected(v), v.filters.sort, position)
  }

  predicate Keeps(v: View, m: Movie) {
    v.filters.playable.Some? && v.tracked ==> MatchesPlayable(m, v.filters, v.filters.playable.value)
  }

  /** Nothing can match when there are no favorites, or when playability is asked for and not
      tracked. */
  predicate KnownEmpty(v: View) {
    (v.filters.favorite && v.favorites == {}) || (v.filters.playable == Some(true) && !v.tracked)
  }

  /** The movies the list shows, whatever the page size. */
  function Shown(v: View): set<Movie> {
    if KnownEmpty(v) then {} else set m | m in Selected(v) && Keeps(v, m)
  }

  function ShownAfter(v: View, position: Option<Position>): (rows: set<Movie>)
    ensures rows <= v.catalog
  {
    After(Shown(v), v.filters.sort, position)
  }

  function Kept(v: View, rows: seq<Movie>): seq<Movie> {
    if rows == [] then [] else Kept(v, rows[..|rows| - 1]) + if Keeps(v, rows[|rows| - 1]) then [rows[|rows| - 1]] else []
  }

  function Take(rows: seq<Movie>, n: nat): seq<Movie> {
    if |rows| <= n then rows else rows[..n]
  }

  datatype MoviePage = MoviePage(items: seq<Movie>, nextCursor: Option<string>)

  /** One page, by filter, sort and slice. */
  ghost function ListedPage(v: View, cursor: Option<string>, limit: nat): Result<MoviePage, Problem>
    requires DistinctIds(v.catalog)
  {
    if !ValidFilters(v.filters) || !(1 <= limit <= MAX_PAGE_SIZE) then Err(ValidationFailed)
    else if KnownEmpty(v) then Ok(MoviePage([], None))
    else match DecodeCursor(v.codec, cursor, v.filters)
      case Err(problem) => Err(problem)
      case Ok(position) =>
        var rows := Listing(ShownAfter(v, position), v.filters.sort);
        Ok(MoviePage(Take(rows, limit), if |rows| > limit then Some(EncodeCursor(v.codec, v.filters, rows[limit - 1])) else None))
  }

  // ---------------------------------------------------------------- sorted rows

  lemma ListingMeaning(rows: set<Movie>, sort: Sort)
    requires DistinctIds(rows)
    ensures InOrder(Listing(rows, sort), ByPlace(sort))
    ensures forall m :: m in Listing(rows, sort) <==> m in rows
  {
    hide Before;
    PlacesAreOrdered(rows, sort);
    SortedMeaning(rows, ByPlace(sort));
    assert forall m :: m in Elements(Listing(rows, sort)) <==> m in rows;
  }

  /** A set of rows has only one listing. */
  lemma ListingIs(s: seq<Movie>, rows: set<Movie>, sort: Sort)
    requires DistinctIds(rows) && InOrder(s, ByPlace(sort)) && forall m :: m in s <==> m in rows
    ensures s == Listing(rows, sort)
  {
    hide Before, DistinctIds;
    PlacesAreOrdered(rows, sort);
    SortedMeaning(rows, ByPlace(sort));
    assert Elements(s) == rows;
    OneListing(s, Listing(rows, sort), ByPlace(sort));
  }

  // ---------------------------------------------------------------- the cursor is a place in the order

  /** The query condition of a movie's cursor admits exactly the movies after it, in every sort. */
  lemma AdmitsWhatComesAfter(sort: Sort, last: Movie, m: Movie)
    ensures Admits(sort, Some(PositionOf(sort, last)), m) <==> Before(sort, last, m)
  {
  }

  /** A cursor reads back as the place of the movie it was written for, under the same filters, and
      is refused under any other. */
  lemma CursorRoundTrip(c: Codec, f: Filters, m: Movie, g: Filters)
    requires Faithful(c)
    ensures DecodeCursor(c, Some(EncodeCursor(c, f, m)), g) == if f == g then Ok(Some(PositionOf(g.sort, m))) else Err(ValidationFailed)
  {
    var payload := Payload(f, m.id, CursorKey(c, f.sort, m));
    Base64Url.RoundTrip(c.write(payload));
    assert c.read(c.write(payload)) == Some(payload);
  }

  // ---------------------------------------------------------------- cutting a listing

  function Later(rows: set<Movie>, sort: Sort, last: Movie): set<Movie> {
    set m | m in rows && Before(sort, last, m)
  }

  lemma RowsAfter(rows: set<Movie>, sort: Sort, n: nat)
    requires DistinctIds(rows) && 0 < n <= |Listing(rows, sort)|
    ensures var s := Listing(rows, sort);
            Listing(Later(rows, sort, s[n - 1]), sort) == s[n..]
  {
    hide Before;
    var s := Listing(rows, sort);
    ListingMeaning(rows, sort);
    var rest := Later(rows, sort, s[n - 1]);
    forall m ensures m in s[n..] <==> m in rest {
      if m in rest {
        var i :| 0 <= i < |s| && s[i] == m;
        SortOrder(sort, s[n - 1], m, s[n - 1]);
        assert i >= n;
        assert s[n..][i - n] == m;
      }
    }
    ListingIs(s[n..], rest, sort);
  }

  lemma {:induction false} KeptMeaning(v: View, rows: seq<Movie>, sort: Sort)
    requires InOrder(rows, ByPlace(sort))
    ensures InOrder(Kept(v, rows), ByPlace(sort))
    ensures forall m :: m in Kept(v, rows) <==> m in rows && Keeps(v, m)
  {
    hide Before, Keeps;
    if rows != [] {
      var init, last := rows[..|rows| - 1], rows[|rows| - 1];
      KeptMeaning(v, init, sort);
      assert rows == init + [last];
      var kept := Kept(v, rows);
      forall i, j | 0 <= i < j < |kept| ensures Before(sort, kept[i], kept[j]) {
        if j == |Kept(v, init)| {
          assert kept[i] in init && kept[j] == last;
          var k :| 0 <= k < |init| && init[k] == kept[i];
          assert rows[k] == kept[i];
        }
      }
    }
  }

  function KeptRows(v: View, rows: set<Movie>): set<Movie> {
    set m | m in rows && Keeps(v, m)
  }

  /** Filtering a sorted listing is sorting the filtered rows. */
  lemma FilterCommutes(v: View, rows: set<Movie>, sort: Sort)
    requires DistinctIds(rows)
    ensures Kept(v, Listing(rows, sort)) == Listing(KeptRows(v, rows), sort)
  {
    hide Before, Keeps;
    ListingMeaning(rows, sort);
    KeptMeaning(v, Listing(rows, sort), sort);
    ListingIs(Kept(v, Listing(rows, sort)), KeptRows(v, rows), sort);
  }

  lemma {:induction false} KeptConcat(v: View, a: seq<Movie>, b: seq<Movie>)
    ensures Kept(v, a + b) == Kept(v, a) + Kept(v, b)
  {
    hide Keeps;
    if b == [] {
      assert a + b == a;
    } else {
      assert (a + b)[..|a + b| - 1] == a + b[..|b| - 1];
      KeptConcat(v, a, b[..|b| - 1]);
    }
  }
}
