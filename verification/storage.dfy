/**
 * The hydration history: a table `day` with one row per calendar date.
 * The row's `date` column holds the date's epoch day (the type converter
 * turns a LocalDate into an Int), it carries a unique index, and `id` is
 * the primary key. Inserts use REPLACE on conflict.
 */
module Storage {
  import opened Wrappers
  import opened Calendar
  import opened Domain

  /** The stored form of a Day. */
  datatype DayDTO = DayDTO(date: LocalDate, hydration: seq<Hydration>, goalMilliliters: int, id: string)

  function FromDTO(dto: DayDTO): Day {
    Day(dto.date, dto.hydration, dto.goalMilliliters, dto.id)
  }

  /** Storing a Day loses nothing: date, drinks, goal and id all come back. */
  function ToDTO(d: Day): (dto: DayDTO)
    ensures FromDTO(dto) == d
    ensures dto.date == d.date && dto.id == d.id
  {
    DayDTO(d.date, d.hydration, d.goal, d.id)
  }

  /** `DayDTO.compareTo`: the sign of the comparison of the two dates. */
  function CompareTo(a: DayDTO, b: DayDTO): (c: int)
    ensures c < 0 <==> Before(a.date, b.date)
    ensures c == 0 <==> a.date == b.date
    ensures c > 0 <==> Before(b.date, a.date)
  {
    if Before(a.date, b.date) then -1 else if a.date == b.date then 0 else 1
  }

  /** Rows compare by their dates alone; drinks, goal and id play no part. */
  lemma CompareToIgnoresContents(a: DayDTO, a': DayDTO, b: DayDTO, b': DayDTO)
    requires a.date == a'.date && b.date == b'.date
    ensures CompareTo(a, b) == CompareTo(a', b')
  {
  }

  /** `LocalDateConverter.fromLocalDate`. */
  function FromLocalDate(d: LocalDate): int {
    EpochDays(d)
  }

  /** `LocalDateConverter.toLocalDate`. */
  function ToLocalDate(epochDays: int): LocalDate {
    FromEpochDays(epochDays)
  }

  /** A date survives the trip through its stored column value. */
  lemma LocalDateConverterRoundTrip(d: LocalDate)
    ensures ToLocalDate(FromLocalDate(d)) == d
  {
    EpochDaysRoundTrip(d);
  }

  /** The table's rows, keyed by the stored date column. */
  type Table = map<int, DayDTO>

  /**
   * What the schema guarantees: each row sits under its own date's epoch day
   * (so one row per date), and no two rows share a primary key.
   */
  ghost predicate WellFormed(t: Table) {
    && (forall k :: k in t ==> FromLocalDate(t[k].date) == k)
    && (forall k1, k2 :: k1 in t && k2 in t && t[k1].id == t[k2].id ==> k1 == k2)
  }

  /** `SELECT * FROM day WHERE date = :date LIMIT 1`. */
  function Get(t: Table, date: LocalDate): (r: Option<DayDTO>)
    ensures r.Some? <==> FromLocalDate(date) in t
    ensures r.Some? ==> FromLocalDate(r.value.date) == FromLocalDate(date) || !WellFormed(t)
  {
    var k := FromLocalDate(date);
    if k in t then Some(t[k]) else None
  }

  /** In a well-formed table the row found for a date carries that date. */
  lemma GetFindsThatDate(t: Table, date: LocalDate)
    requires WellFormed(t) && Get(t, date).Some?
    ensures Get(t, date).value.date == date
  {
    EpochDaysInjective(Get(t, date).value.date, date);
  }

  /**
   * `@Insert(onConflict = REPLACE)`: rows clashing with the new one on the
   * date index or on the primary key are deleted, then the row is inserted.
   */
  function Upsert(t: Table, dto: DayDTO): (r: Table)
    ensures Get(r, dto.date) == Some(dto)
    ensures r.Keys == {FromLocalDate(dto.date)} + set k | k in t && t[k].id != dto.id
    ensures forall k :: k in t && k != FromLocalDate(dto.date) && t[k].id != dto.id ==> r[k] == t[k]
  {
    var key := FromLocalDate(dto.date);
    (map k | k in t && k != key && t[k].id != dto.id :: t[k])[key := dto]
  }

  /** REPLACE keeps one row per date and one row per id. */
  lemma UpsertWellFormed(t: Table, dto: DayDTO)
    requires WellFormed(t)
    ensures WellFormed(Upsert(t, dto))
  {
  }

  /** Writing the same row twice leaves the table as writing it once. */
  lemma UpsertIdempotent(t: Table, dto: DayDTO)
    ensures Upsert(Upsert(t, dto), dto) == Upsert(t, dto)
  {
    var key := FromLocalDate(dto.date);
    var kept := map k | k in t && k != key && t[k].id != dto.id :: t[k];
    var once := kept[key := dto];
    assert once == Upsert(t, dto);
    var keptAgain := map k | k in once && k != key && once[k].id != dto.id :: once[k];
    assert keptAgain == kept;
  }

  /** Writing back a row exactly as it is stored changes nothing. */
  lemma UpsertStoredRow(t: Table, dto: DayDTO)
    requires WellFormed(t) && Get(t, dto.date) == Some(dto)
    ensures Upsert(t, dto) == t
  {
    var key := FromLocalDate(dto.date);
    assert key in t && t[key] == dto;
    var kept := map k | k in t && k != key && t[k].id != dto.id :: t[k];
    assert forall k :: k in t && k != key ==> t[k].id != dto.id;
    assert kept == t - {key};
    assert Upsert(t, dto) == (t - {key})[key := dto];
  }

  /** Rewriting a stored row under its own id and date replaces only that row. */
  lemma UpsertSameRow(t: Table, stored: DayDTO, dto: DayDTO)
    requires WellFormed(t) && Get(t, dto.date) == Some(stored) && stored.id == dto.id
    ensures Upsert(t, dto) == t[FromLocalDate(dto.date) := dto]
  {
    var key := FromLocalDate(dto.date);
    assert key in t && t[key] == stored;
    var kept := map k | k in t && k != key && t[k].id != dto.id :: t[k];
    assert forall k :: k in t && k != key ==> t[k].id != dto.id;
    assert kept == t - {key};
    assert Upsert(t, dto) == (t - {key})[key := dto];
  }

  /** `@Delete`: removes the row with the given primary key. */
  function DeleteRow(t: Table, dto: DayDTO): (r: Table)
    ensures forall k :: k in r <==> k in t && t[k].id != dto.id
  {
    map k | k in t && t[k].id != dto.id :: t[k]
  }

  /** `delete(date)`: looks the row up by date and, if there is one, deletes it. */
  function DeleteDate(t: Table, date: LocalDate): Table {
    match Get(t, date)
    case None => t
    case Some(dto) => DeleteRow(t, dto)
  }

  /** Deleting a date removes that date's row and nothing else. */
  lemma DeleteDateRemovesOnlyThatRow(t: Table, date: LocalDate)
    requires WellFormed(t)
    ensures DeleteDate(t, date) == t - {FromLocalDate(date)}
    ensures WellFormed(DeleteDate(t, date))
  {
    var key := FromLocalDate(date);
    if key in t {
      assert Get(t, date) == Some(t[key]);
      assert forall k :: k in t && k != key ==> t[k].id != t[key].id;
      assert DeleteRow(t, t[key]) == t - {key};
    } else {
      assert t - {key} == t;
    }
  }

  /**
   * The last drink of a date's record taken off; an absent or empty record
   * is left alone.
   */
  function RemoveLatest(t: Table, date: LocalDate): Table {
    match Get(t, date)
    case None => t
    case Some(dto) =>
      if dto.hydration == [] then t
      else Upsert(t, dto.(hydration := dto.hydration[..|dto.hydration| - 1]))
  }

  /** Taking off the latest drink rewrites that date's row only, and lowers its total by that drink. */
  lemma RemoveLatestEffect(t: Table, date: LocalDate)
    requires WellFormed(t)
    ensures WellFormed(RemoveLatest(t, date))
    ensures var key := FromLocalDate(date);
      && RemoveLatest(t, date).Keys == t.Keys
      && (forall k :: k in t && k != key ==> RemoveLatest(t, date)[k] == t[k])
      && (key in t && t[key].hydration != [] ==>
            var hs := t[key].hydration;
            && RemoveLatest(t, date)[key] == t[key].(hydration := hs[..|hs| - 1])
            && SumOfMilliliters(RemoveLatest(t, date)[key].hydration) == SumOfMilliliters(hs) - hs[|hs| - 1].milliliters)
  {
    var key := FromLocalDate(date);
    if key in t && t[key].hydration != [] {
      var dto := t[key];
      var hs := dto.hydration;
      var dto' := dto.(hydration := hs[..|hs| - 1]);
      UpsertSameRow(t, dto, dto');
      UpsertWellFormed(t, dto');
      SumOfMillilitersAppend(hs[..|hs| - 1], hs[|hs| - 1]);
      assert hs[..|hs| - 1] + [hs[|hs| - 1]] == hs;
    }
  }

  /** SQLite's LIMIT: a negative limit places no bound. */
  predicate WithinLimit(n: int, limit: int) {
    limit < 0 || n <= limit
  }

  /** Every element is the Day stored under its own date. */
  ghost predicate AreStoredDays(t: Table, days: seq<Day>) {
    forall i :: 0 <= i < |days| ==>
      FromLocalDate(days[i].date) in t && days[i] == FromDTO(t[FromLocalDate(days[i].date)])
  }

  /**
   * `SELECT * FROM day WHERE date < :start ORDER BY date DESC LIMIT :limit`:
   * stored rows strictly before `start`, newest first, at most `limit` of
   * them, with none skipped: either the page is full, or it holds every row
   * before `start`; and no missing row lies between two returned ones or
   * after the last-but-newest one.
   */
  ghost predicate IsDescendingPage(t: Table, start: int, limit: int, page: seq<Day>) {
    && AreStoredDays(t, page)
    && WithinLimit(|page|, limit)
    && (forall i :: 0 <= i < |page| ==> FromLocalDate(page[i].date) < start)
    && (forall i, j :: 0 <= i < j < |page| ==> FromLocalDate(page[j].date) < FromLocalDate(page[i].date))
    && (forall k :: k in t && page != [] && FromLocalDate(page[|page| - 1].date) < k < start ==>
          exists i :: 0 <= i < |page| && FromLocalDate(page[i].date) == k)
    && (|page| == limit || forall k :: k in t && k < start ==>
          exists i :: 0 <= i < |page| && FromLocalDate(page[i].date) == k)
  }

  /**
   * `getInRange(start, end, limit)`: stored rows whose epoch day lies in
   * `[start, end]`, oldest first, at most `limit` of them; when fewer than
   * `limit` come back, every row in the range is there.
   */
  ghost predicate IsRangePage(t: Table, start: int, end: int, limit: int, page: seq<Day>) {
    && AreStoredDays(t, page)
    && WithinLimit(|page|, limit)
    && (forall i :: 0 <= i < |page| ==> start <= FromLocalDate(page[i].date) <= end)
    && (forall i, j :: 0 <= i < j < |page| ==> FromLocalDate(page[i].date) < FromLocalDate(page[j].date))
    && (|page| == limit || forall k :: k in t && start <= k <= end ==>
          exists i :: 0 <= i < |page| && FromLocalDate(page[i].date) == k)
  }

  lemma {:induction false} MaxExists(s: set<int>)
    requires s != {}
    ensures exists m :: m in s && forall k :: k in s ==> k <= m
  {
    assert exists x :: x in s by {
      if forall x :: x !in s {
        assert false;
      }
    }
    var x :| x in s;
    var rest := s - {x};
    if rest == {} {
      forall k | k in s ensures k <= x {
        assert k !in rest;
      }
    } else {
      MaxExists(rest);
      var m :| m in rest && forall k :: k in rest ==> k <= m;
      var w := if x > m then x else m;
      forall k | k in s ensures k <= w {
        if k != x {
          assert k in rest;
        }
      }
    }
  }

  lemma {:induction false} MinExists(s: set<int>)
    requires s != {}
    ensures exists m :: m in s && forall k :: k in s ==> m <= k
  {
    assert exists x :: x in s by {
      if forall x :: x !in s {
        assert false;
      }
    }
    var x :| x in s;
    var rest := s - {x};
    if rest == {} {
      forall k | k in s ensures x <= k {
        assert k !in rest;
      }
    } else {
      MinExists(rest);
      var m :| m in rest && forall k :: k in rest ==> m <= k;
      var w := if x < m then x else m;
      forall k | k in s ensures w <= k {
        if k != x {
          assert k in rest;
        }
      }
    }
  }

  /**
   * Progress of the descending scan: `page` holds, newest first, every row
   * in `[bound, start)`, and `bound` is the date of its last element.
   */
  ghost predicate DescendingSoFar(t: Table, start: int, bound: int, page: seq<Day>) {
    && AreStoredDays(t, page)
    && bound <= start
    && (page == [] ==> bound == start)
    && (page != [] ==> bound == FromLocalDate(page[|page| - 1].date))
    && (forall i :: 0 <= i < |page| ==> bound <= FromLocalDate(page[i].date) < start)
    && (forall i, j :: 0 <= i < j < |page| ==> FromLocalDate(page[j].date) < FromLocalDate(page[i].date))
    && (forall k :: k in t && bound <= k < start ==>
          exists i :: 0 <= i < |page| && FromLocalDate(page[i].date) == k)
  }

  /** The row appended by a scan step is the Day stored under its own date. */
  lemma StoredRowAppended(t: Table, page: seq<Day>, k: int)
    requires WellFormed(t) && AreStoredDays(t, page) && k in t
    ensures AreStoredDays(t, page + [FromDTO(t[k])])
    ensures FromLocalDate((page + [FromDTO(t[k])])[|page|].date) == k
  {
    var page' := page + [FromDTO(t[k])];
    forall i | 0 <= i < |page'|
      ensures FromLocalDate(page'[i].date) in t && page'[i] == FromDTO(t[FromLocalDate(page'[i].date)])
    {
      if i < |page| {
        assert page'[i] == page[i];
      }
    }
  }

  /** Every row in `[k, start)` is in the page once the row at `k` is appended. */
  lemma DescendingStepCovers(t: Table, start: int, bound: int, page: seq<Day>, k: int)
    requires DescendingSoFar(t, start, bound, page)
    requires k in t && k < bound && forall j :: j in t && j < bound ==> j <= k
    requires FromLocalDate((page + [FromDTO(t[k])])[|page|].date) == k
    ensures var page' := page + [FromDTO(t[k])];
      forall j :: j in t && k <= j < start ==> exists i :: 0 <= i < |page'| && FromLocalDate(page'[i].date) == j
  {
    var page' := page + [FromDTO(t[k])];
    forall j | j in t && k <= j < start
      ensures exists i :: 0 <= i < |page'| && FromLocalDate(page'[i].date) == j
    {
      if j < bound {
        assert FromLocalDate(page'[|page|].date) == j;
      } else {
        var i :| 0 <= i < |page| && FromLocalDate(page[i].date) == j;
        assert page'[i] == page[i];
      }
    }
  }

  /** A day older than every day of a newest-first page extends it, still newest first. */
  lemma DescendingStepOrdered(page: seq<Day>, start: int, bound: int, d: Day)
    requires forall i :: 0 <= i < |page| ==> bound <= FromLocalDate(page[i].date) < start
    requires forall i, j :: 0 <= i < j < |page| ==> FromLocalDate(page[j].date) < FromLocalDate(page[i].date)
    requires FromLocalDate(d.date) < bound <= start
    ensures var page' := page + [d];
      && (forall i :: 0 <= i < |page'| ==> FromLocalDate(d.date) <= FromLocalDate(page'[i].date) < start)
      && (forall i, j :: 0 <= i < j < |page'| ==> FromLocalDate(page'[j].date) < FromLocalDate(page'[i].date))
  {
    var page' := page + [d];
    forall i, j | 0 <= i < j < |page'|
      ensures FromLocalDate(page'[j].date) < FromLocalDate(page'[i].date)
    {
      assert page'[i] == page[i];
      if j < |page| {
        assert page'[j] == page[j];
      }
    }
    forall i | 0 <= i < |page'| ensures FromLocalDate(d.date) <= FromLocalDate(page'[i].date) < start {
      if i < |page| {
        assert page'[i] == page[i];
      }
    }
  }

  /** Appending the newest row below `bound` extends the scan by one row. */
  lemma DescendingStep(t: Table, start: int, bound: int, page: seq<Day>, k: int)
    requires WellFormed(t) && DescendingSoFar(t, start, bound, page)
    requires k in t && k < bound && forall j :: j in t && j < bound ==> j <= k
    ensures DescendingSoFar(t, start, k, page + [FromDTO(t[k])])
  {
    var page' := page + [FromDTO(t[k])];
    StoredRowAppended(t, page, k);
    DescendingStepCovers(t, start, bound, page, k);
    DescendingStepOrdered(page, start, bound, FromDTO(t[k]));
  }

  /** Moving the bound down to a stored row below it leaves fewer rows to scan. */
  lemma BelowShrinks(t: Table, bound: int, k: int)
    requires k in t && k < bound
    ensures (set j | j in t && j < k) < (set j | j in t && j < bound)
  {
    var smaller, larger := set j | j in t && j < k, set j | j in t && j < bound;
    assert k in larger && k !in smaller;
    assert smaller <= larger;
  }

  /** The scan stops with a descending page once it is full or no row is left below `bound`. */
  lemma DescendingDone(t: Table, start: int, limit: int, bound: int, page: seq<Day>)
    requires DescendingSoFar(t, start, bound, page) && WithinLimit(|page|, limit)
    requires |page| == limit || forall j :: j in t ==> !(j < bound)
    ensures IsDescendingPage(t, start, limit, page)
  {
  }

  /**
   * Progress of the ascending scan: `page` holds, oldest first, every row
   * in `[start, bound]`, and `bound` is the date of its last element.
   */
  ghost predicate AscendingSoFar(t: Table, start: int, end: int, bound: int, page: seq<Day>) {
    && AreStoredDays(t, page)
    && (page == [] ==> bound == start - 1)
    && (page != [] ==> bound == FromLocalDate(page[|page| - 1].date) && bound <= end)
    && (forall i :: 0 <= i < |page| ==> start <= FromLocalDate(page[i].date) <= bound)
    && (forall i, j :: 0 <= i < j < |page| ==> FromLocalDate(page[i].date) < FromLocalDate(page[j].date))
    && (forall k :: k in t && start <= k <= bound ==>
          exists i :: 0 <= i < |page| && FromLocalDate(page[i].date) == k)
  }

  /** Every row in `[start, k]` is in the page once the row at `k` is appended. */
  lemma AscendingStepCovers(t: Table, start: int, end: int, bound: int, page: seq<Day>, k: int)
    requires AscendingSoFar(t, start, end, bound, page)
    requires k in t && bound < k <= end && forall j :: j in t && bound < j <= end ==> k <= j
    requires FromLocalDate((page + [FromDTO(t[k])])[|page|].date) == k
    ensures var page' := page + [FromDTO(t[k])];
      forall j :: j in t && start <= j <= k ==> exists i :: 0 <= i < |page'| && FromLocalDate(page'[i].date) == j
  {
    var page' := page + [FromDTO(t[k])];
    forall j | j in t && start <= j <= k
      ensures exists i :: 0 <= i < |page'| && FromLocalDate(page'[i].date) == j
    {
      if j > bound {
        assert FromLocalDate(page'[|page|].date) == j;
      } else {
        var i :| 0 <= i < |page| && FromLocalDate(page[i].date) == j;
        assert page'[i] == page[i];
      }
    }
  }

  /** A day newer than every day of an oldest-first page extends it, still oldest first. */
  lemma AscendingStepOrdered(page: seq<Day>, start: int, bound: int, d: Day)
    requires forall i :: 0 <= i < |page| ==> start <= FromLocalDate(page[i].date) <= bound
    requires forall i, j :: 0 <= i < j < |page| ==> FromLocalDate(page[i].date) < FromLocalDate(page[j].date)
    requires bound < FromLocalDate(d.date) && (page == [] ==> start <= FromLocalDate(d.date))
    ensures var page' := page + [d];
      && (forall i :: 0 <= i < |page'| ==> start <= FromLocalDate(page'[i].date) <= FromLocalDate(d.date))
      && (forall i, j :: 0 <= i < j < |page'| ==> FromLocalDate(page'[i].date) < FromLocalDate(page'[j].date))
  {
    var page' := page + [d];
    forall i, j | 0 <= i < j < |page'|
      ensures FromLocalDate(page'[i].date) < FromLocalDate(page'[j].date)
    {
      assert page'[i] == page[i];
      if j < |page| {
        assert page'[j] == page[j];
      }
    }
    forall i | 0 <= i < |page'| ensures start <= FromLocalDate(page'[i].date) <= FromLocalDate(d.date) {
      if i < |page| {
        assert page'[i] == page[i];
      } else if page != [] {
        assert start <= FromLocalDate(page[0].date) <= bound;
      }
    }
  }

  /** Appending the oldest row in `(bound, end]` extends the scan by one row. */
  lemma AscendingStep(t: Table, start: int, end: int, bound: int, page: seq<Day>, k: int)
    requires WellFormed(t) && AscendingSoFar(t, start, end, bound, page)
    requires k in t && bound < k <= end && forall j :: j in t && bound < j <= end ==> k <= j
    ensures AscendingSoFar(t, start, end, k, page + [FromDTO(t[k])])
  {
    var page' := page + [FromDTO(t[k])];
    StoredRowAppended(t, page, k);
    AscendingStepCovers(t, start, end, bound, page, k);
    AscendingStepOrdered(page, start, bound, FromDTO(t[k]));
  }

  /** Moving the bound up to a stored row above it leaves fewer rows to scan. */
  lemma AboveShrinks(t: Table, bound: int, end: int, k: int)
    requires k in t && bound < k <= end
    ensures (set j | j in t && k < j <= end) < (set j | j in t && bound < j <= end)
  {
    var smaller, larger := set j | j in t && k < j <= end, set j | j in t && bound < j <= end;
    assert k in larger && k !in smaller;
    assert smaller <= larger;
  }

  /** The scan stops with a range page once it is full or no row is left in `(bound, end]`. */
  lemma AscendingDone(t: Table, start: int, end: int, limit: int, bound: int, page: seq<Day>)
    requires AscendingSoFar(t, start, end, bound, page) && WithinLimit(|page|, limit)
    requires |page| == limit || forall j :: j in t ==> !(bound < j <= end)
    ensures IsRangePage(t, start, end, limit, page)
  {
  }

  /** The Room-backed `HydrationHistoryStore`. */
  class SqliteHydrationHistoryStore {
    var rows: Table

    ghost predicate Valid()
      reads this
    {
      WellFormed(rows)
    }

    constructor ()
      ensures Valid() && rows == map[]
    {
      rows := map[];
    }

    /** `setDay(day)`: upsert of the stored form. */
    method SetDay(day: Day)
      requires Valid()
      modifies this
      ensures Valid()
      ensures rows == Upsert(old(rows), ToDTO(day))
    {
      UpsertWellFormed(rows, ToDTO(day));
      rows := Upsert(rows, ToDTO(day));
    }

    /** `day(date).first()`: the current record of a date, if any. */
    function DayOf(date: LocalDate): (r: Option<Day>)
      reads this
      requires Valid()
      ensures r.Some? <==> FromLocalDate(date) in rows
      ensures r.Some? ==> r.value.date == date && r.value == FromDTO(rows[FromLocalDate(date)])
    {
      match Get(rows, date)
      case None => None
      case Some(dto) =>
        GetFindsThatDate(rows, date);
        Some(FromDTO(dto))
    }

    /** `days(startDateExclusive, pageSize)`: a page of older records, newest first. */
    method Days(startDateExclusive: LocalDate, pageSize: int := 20) returns (page: seq<Day>)
      requires Valid()
      ensures IsDescendingPage(rows, FromLocalDate(startDateExclusive), pageSize, page)
    {
      var start := FromLocalDate(startDateExclusive);
      var bound := start;
      var exhausted := false;
      page := [];
      while !exhausted && (pageSize < 0 || |page| < pageSize)
        invariant DescendingSoFar(rows, start, bound, page)
        invariant WithinLimit(|page|, pageSize)
        invariant exhausted ==> forall j :: j in rows ==> !(j < bound)
        decreases set j | j in rows && j < bound, !exhausted
      {
        var below := set j | j in rows && j < bound;
        assert forall j :: j in rows && j < bound ==> j in below;
        if below == {} {
          exhausted := true;
        } else {
          MaxExists(below);
          var k :| k in below && forall j :: j in below ==> j <= k;
          DescendingStep(rows, start, bound, page, k);
          page := page + [FromDTO(rows[k])];
          BelowShrinks(rows, bound, k);
          bound := k;
        }
      }
      DescendingDone(rows, start, pageSize, bound, page);
    }

    /** `getInRange(startEpochDay, endEpochDay, limit)`: records in an inclusive epoch-day range, oldest first. */
    method GetInRange(startEpochDay: int, endEpochDay: int, limit: int) returns (page: seq<Day>)
      requires Valid()
      ensures IsRangePage(rows, startEpochDay, endEpochDay, limit, page)
    {
      var bound := startEpochDay - 1;
      var exhausted := false;
      page := [];
      while !exhausted && (limit < 0 || |page| < limit)
        invariant AscendingSoFar(rows, startEpochDay, endEpochDay, bound, page)
        invariant WithinLimit(|page|, limit)
        invariant exhausted ==> forall j :: j in rows ==> !(bound < j <= endEpochDay)
        decreases set j | j in rows && bound < j <= endEpochDay, !exhausted
      {
        var above := set j | j in rows && bound < j <= endEpochDay;
        assert forall j :: j in rows && bound < j <= endEpochDay ==> j in above;
        if above == {} {
          exhausted := true;
        } else {
          MinExists(above);
          var k :| k in above && forall j :: j in above ==> k <= j;
          AscendingStep(rows, startEpochDay, endEpochDay, bound, page, k);
          page := page + [FromDTO(rows[k])];
          AboveShrinks(rows, bound, endEpochDay, k);
          bound := k;
        }
      }
      AscendingDone(rows, startEpochDay, endEpochDay, limit, bound, page);
    }

    /** `delete(date)`. */
    method Delete(date: LocalDate)
      requires Valid()
      modifies this
      ensures Valid()
      ensures rows == DeleteDate(old(rows), date)
      ensures rows == old(rows) - {FromLocalDate(date)}
    {
      DeleteDateRemovesOnlyThatRow(rows, date);
      match Get(rows, date)
      case None =>
      case Some(dto) =>
        rows := DeleteRow(rows, dto);
    }

    /** `clear()`: `clearAllTables()`. */
    method Clear()
      modifies this
      ensures Valid() && rows == map[]
    {
      rows := map[];
    }

    /** `removeLatestHydration(date)`: drops the last drink logged on that date. */
    method RemoveLatestHydration(date: LocalDate)
      requires Valid()
      modifies this
      ensures Valid()
      ensures rows == RemoveLatest(old(rows), date)
    {
      rows := RemoveLatest(rows, date);
    }
  }
}
