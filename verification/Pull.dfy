/** Incremental pull: a replica follows the account's records page by page, behind a cursor made
    of the last delivered record's timestamp and id. */
module Pull {
  import opened Common
  import opened Text
  import opened WorkspaceFilter

  // ---------------------------------------------------------------- the order of records

  datatype Cursor = Cursor(updatedAt: int, id: string)

  function Key(r: Record): Cursor {
    Cursor(r.updatedAt, r.id)
  }

  predicate Before(a: Cursor, b: Cursor) {
    a.updatedAt < b.updatedAt || (a.updatedAt == b.updatedAt && Less(a.id, b.id))
  }

  lemma BeforeIsStrictOrder(a: Cursor, b: Cursor, c: Cursor)
    ensures !Before(a, a)
    ensures a == b || Before(a, b) || Before(b, a)
    ensures Before(a, b) && Before(b, c) ==> Before(a, c)
  {
    LessIrreflexive(a.id);
    LessTotal(a.id, b.id);
    if Less(a.id, b.id) && Less(b.id, c.id) {
      LessTransitive(a.id, b.id, c.id);
    }
  }

  ghost predicate Sorted(s: seq<Record>) {
    forall i, j :: 0 <= i < j < |s| ==> Before(Key(s[i]), Key(s[j]))
  }

  /** A sequence that is sorted lists each of its records once, and the records determine it. */
  lemma {:induction false} SortedUnique(s: seq<Record>, t: seq<Record>)
    requires Sorted(s) && Sorted(t)
    requires forall r :: r in s <==> r in t
    ensures s == t
  {
    if s != [] {
      assert s[0] in t;
    }
    if t != [] {
      assert t[0] in s;
    }
    if s != [] {
      SameHead(s, t);
      TailMembers(s);
      TailMembers(t);
      SortedUnique(s[1..], t[1..]);
      assert s == [s[0]] + s[1..] && t == [t[0]] + t[1..];
    }
  }

  lemma SameHead(s: seq<Record>, t: seq<Record>)
    requires Sorted(s) && Sorted(t) && s != [] && t != []
    requires forall r :: r in s <==> r in t
    ensures s[0] == t[0]
  {
    assert s[0] in t && t[0] in s;
    if s[0] != t[0] {
      var i :| 0 <= i < |t| && t[i] == s[0];
      var j :| 0 <= j < |s| && s[j] == t[0];
      BeforeIsStrictOrder(Key(s[0]), Key(t[0]), Key(s[0]));
    }
  }

  lemma TailMembers(s: seq<Record>)
    requires Sorted(s) && s != []
    ensures forall r :: r in s[1..] <==> r in s && r != s[0]
  {
    BeforeIsStrictOrder(Key(s[0]), Key(s[0]), Key(s[0]));
    forall r | r in s && r != s[0] ensures r in s[1..] {
      var i :| 0 <= i < |s| && s[i] == r;
      assert s[1..][i - 1] == r;
    }
  }

  // ---------------------------------------------------------------- the stored records

  /** The account's records by id. Ids are server-made: neither empty nor padded. */
  type Table = map<string, Record>

  ghost predicate Keyed(table: Table) {
    forall id :: id in table ==> table[id].id == id && id != "" && Trimmed(id)
  }

  ghost predicate DistinctIds(rows: set<Record>) {
    forall r, s :: r in rows && s in rows && r.id == s.id ==> r == s
  }

  ghost predicate IsFirst(m: Record, rows: set<Record>) {
    m in rows && forall r :: r in rows && r != m ==> Before(Key(m), Key(r))
  }

  lemma {:induction false} HasFirst(rows: set<Record>)
    requires rows != {} && DistinctIds(rows)
    ensures exists m :: IsFirst(m, rows)
    decreases |rows|
  {
    var x :| x in rows;
    var rest := rows - {x};
    if rest == {} {
      assert rows == {x};
      assert IsFirst(x, rows);
    } else {
      HasFirst(rest);
      var m :| IsFirst(m, rest);
      FirstOfBoth(rows, x, m);
    }
  }

  lemma FirstOfBoth(rows: set<Record>, x: Record, m: Record)
    requires x in rows && IsFirst(m, rows - {x}) && DistinctIds(rows)
    ensures exists first :: IsFirst(first, rows)
  {
    BeforeIsStrictOrder(Key(m), Key(x), Key(m));
    if Before(Key(m), Key(x)) {
      assert IsFirst(m, rows);
    } else {
      forall r | r in rows && r != x ensures Before(Key(x), Key(r)) {
        BeforeIsStrictOrder(Key(x), Key(m), Key(r));
      }
      assert IsFirst(x, rows);
    }
  }

  lemma FirstThenSorted(m: Record, s: seq<Record>)
    requires Sorted(s) && forall r :: r in s ==> Before(Key(m), Key(r))
    ensures Sorted([m] + s)
  {
    forall i, j | 0 <= i < j < |s| + 1 ensures Before(Key(([m] + s)[i]), Key(([m] + s)[j])) {
      assert ([m] + s)[j] == s[j - 1];
    }
  }

  /** The records in ascending order of timestamp, then id. */
  ghost function Listing(rows: set<Record>): (s: seq<Record>)
    requires DistinctIds(rows)
    ensures Sorted(s)
    ensures forall r :: r in s <==> r in rows
    decreases |rows|
  {
    if rows == {} then []
    else
      HasFirst(rows);
      var m :| IsFirst(m, rows);
      var rest := Listing(rows - {m});
      FirstThenSorted(m, rest);
      [m] + rest
  }

  ghost function Rows(table: Table, tables: set<string>): set<Record> {
    set id | id in table && table[id].tableName in tables :: table[id]
  }

  ghost predicate After(start: Option<Cursor>, since: int, r: Record) {
    match start
    case Some(c) => Before(c, Key(r))
    case None => r.updatedAt > since
  }

  // ---------------------------------------------------------------- one pull

  const MAX_SYNC_PULL_LIMIT := 2000

  datatype PullError = InvalidLimit | CursorNotTogether | InvalidCursor | InvalidSince

  datatype PullQuery = PullQuery(cursorUpdatedAt: Option<int>, cursorId: Option<string>, since: int, limit: int)

  datatype Page = Page(rows: seq<Record>, hasMore: bool, nextCursor: Option<Cursor>)

  function ResolvePullCursor(q: PullQuery): Result<Option<Cursor>, PullError> {
    var id := if q.cursorId.Some? then Trim(q.cursorId.value) else "";
    if q.cursorUpdatedAt.Some? != (id != "") then Err(CursorNotTogether)
    else if q.cursorUpdatedAt.None? then Ok(None)
    else if q.cursorUpdatedAt.value < 0 then Err(InvalidCursor)
    else Ok(Some(Cursor(q.cursorUpdatedAt.value, id)))
  }

  function Start(q: PullQuery): Result<Option<Cursor>, PullError> {
    if !(1 <= q.limit <= MAX_SYNC_PULL_LIMIT) then Err(InvalidLimit)
    else
      var cursor := ResolvePullCursor(q);
      if cursor.Ok? && cursor.value.None? && q.since < 0 then Err(InvalidSince) else cursor
  }

  function Take(s: seq<Record>, n: nat): seq<Record> {
    if |s| > n then s[..n] else s
  }

  function PageOf(eligible: seq<Record>, cursor: Option<Cursor>, limit: nat): Page {
    var rows := Take(eligible, limit);
    Page(rows, |eligible| > limit, if rows == [] then cursor else Some(Key(rows[|rows| - 1])))
  }

  /** The rows that the account-wide query may return. With no cursor and since = 0 the query has
      no timestamp condition at all. */
  ghost function Matching(table: Table, tables: set<string>, cursor: Option<Cursor>, since: int): set<Record> {
    set r | r in Rows(table, tables) && (cursor.Some? || since > 0 ==> After(cursor, since, r))
  }

  lemma MatchingDistinct(table: Table, tables: set<string>, cursor: Option<Cursor>, since: int)
    requires Keyed(table)
    ensures DistinctIds(Rows(table, tables)) && DistinctIds(Matching(table, tables, cursor, since))
  {
  }

  /** Pull for owner and platform memberships: the database sorts, compares and limits. */
  ghost function PullAccountWide(table: Table, tables: set<string>, q: PullQuery): Result<Page, PullError>
    requires Keyed(table)
  {
    var start := Start(q);
    if start.Err? then Err(start.error)
    else
      MatchingDistinct(table, tables, start.value, q.since);
      Ok(PageOf(Take(Listing(Matching(table, tables, start.value, q.since)), q.limit + 1), start.value, q.limit))
  }

  ghost function Where(s: seq<Record>, keep: Record -> bool): (out: seq<Record>)
    ensures forall r :: r in out <==> r in s && keep(r)
    ensures Sorted(s) ==> Sorted(out)
  {
    if s == [] then []
    else
      var n := |s| - 1;
      var out := Where(s[..n], keep) + (if keep(s[n]) then [s[n]] else []);
      assert s == s[..n] + [s[n]];
      assert Sorted(s) ==> Sorted(out) by {
        if Sorted(s) {
          forall i, j | 0 <= i < j < |out| ensures Before(Key(out[i]), Key(out[j])) {
            assert out[i] in s[..n] by { assert out[i] == Where(s[..n], keep)[i]; }
          }
        }
      }
      out
  }

  /** Pull for every other membership: scoped is what the workspace filter lets it see, and the
      cursor is applied in memory. */
  ghost function PullScoped(scoped: seq<Record>, tables: set<string>, q: PullQuery): Result<Page, PullError> {
    var start := Start(q);
    if start.Err? then Err(start.error)
    else Ok(PageOf(Where(scoped, (r: Record) => r.tableName in tables && After(start.value, q.since, r)), start.value, q.limit))
  }

  // ---------------------------------------------------------------- the page

  /** One row more than the limit is enough to know whether there are more. */
  lemma OneMoreIsEnough(matching: seq<Record>, cursor: Option<Cursor>, limit: nat)
    ensures PageOf(Take(matching, limit + 1), cursor, limit) == PageOf(matching, cursor, limit)
  {
    if |matching| > limit + 1 {
      assert matching[..limit + 1][..limit] == matching[..limit];
    }
  }

  lemma Fetched(table: Table, tables: set<string>, q: PullQuery)
    requires Keyed(table) && Start(q).Ok?
    ensures DistinctIds(Matching(table, tables, Start(q).value, q.since))
    ensures PullAccountWide(table, tables, q) ==
            Ok(PageOf(Listing(Matching(table, tables, Start(q).value, q.since)), Start(q).value, q.limit))
  {
    var cursor := Start(q).value;
    MatchingDistinct(table, tables, cursor, q.since);
    OneMoreIsEnough(Listing(Matching(table, tables, cursor, q.since)), cursor, q.limit);
  }

  /** The cursor of a stored row survives the trip to the client and back. */
  lemma CursorRoundTrip(r: Record, since: int, limit: int)
    requires r.id != "" && Trimmed(r.id)
    ensures ResolvePullCursor(PullQuery(Some(r.updatedAt), Some(r.id), since, limit)) ==
            if r.updatedAt < 0 then Err(InvalidCursor) else Ok(Some(Key(r)))
  {
    TrimFixes(r.id);
  }

  // ---------------------------------------------------------------- which rows a query answers with

  /** Which queries are answered, on either path: with a limit from 1 to 2000, and either both parts of
      a cursor whose timestamp is not negative, or neither and a since that is not. */
  lemma QueryAnswered(table: Table, scoped: seq<Record>, tables: set<string>, q: PullQuery)
    requires Keyed(table)
    ensures var ok := && 1 <= q.limit <= 2000
                      && (q.cursorUpdatedAt.Some? <==> q.cursorId.Some? && Trim(q.cursorId.value) != "")
                      && (if q.cursorUpdatedAt.Some? then q.cursorUpdatedAt.value >= 0 else q.since >= 0);
            (PullAccountWide(table, tables, q).Ok? <==> ok) && (PullScoped(scoped, tables, q).Ok? <==> ok)
  {
  }

  /** The record lies above the query's cursor. */
  predicate AboveQuery(q: PullQuery, r: Record)
    requires q.cursorUpdatedAt.Some? && q.cursorId.Some?
  {
    r.updatedAt > q.cursorUpdatedAt.value || (r.updatedAt == q.cursorUpdatedAt.value && Less(Trim(q.cursorId.value), r.id))
  }

  predicate Earlier(r: Record, s: Record) {
    r.updatedAt < s.updatedAt || (r.updatedAt == s.updatedAt && Less(r.id, s.id))
  }

  /** The page holds the earliest of these records, in order and up to the limit, and says whether it
      left any out and where it ended. */
  ghost predicate IsPage(rows: set<Record>, q: PullQuery, page: Page) {
    && |page.rows| <= q.limit && (forall r :: r in page.rows ==> r in rows)
    && (forall i, j :: 0 <= i < j < |page.rows| ==> Earlier(page.rows[i], page.rows[j]))
    && (forall r, s :: r in page.rows && s in rows && s !in page.rows ==> Earlier(r, s))
    && (page.hasMore <==> exists r :: r in rows && r !in page.rows)
    && (page.hasMore ==> |page.rows| == q.limit)
    && page.nextCursor == if page.rows != [] then var last := page.rows[|page.rows| - 1]; Some(Cursor(last.updatedAt, last.id))
                          else if q.cursorUpdatedAt.Some? && q.cursorId.Some? then Some(Cursor(q.cursorUpdatedAt.value, Trim(q.cursorId.value)))
                          else None
  }

  lemma SortedPage(eligible: seq<Record>, rows: set<Record>, q: PullQuery)
    requires Sorted(eligible) && (forall r :: r in eligible <==> r in rows) && Start(q).Ok?
    ensures IsPage(rows, q, PageOf(eligible, Start(q).value, q.limit))
  {
    var page := PageOf(eligible, Start(q).value, q.limit);
    forall r, s | r in page.rows && s in rows && s !in page.rows ensures Earlier(r, s) {
      PastThePage(eligible, q.limit, r, s);
    }
    if page.hasMore {
      LeftOut(eligible, q.limit);
    }
  }

  lemma PastThePage(eligible: seq<Record>, limit: nat, r: Record, s: Record)
    requires Sorted(eligible) && r in Take(eligible, limit) && s in eligible && s !in Take(eligible, limit)
    ensures Earlier(r, s)
  {
    var i :| 0 <= i < |Take(eligible, limit)| && Take(eligible, limit)[i] == r;
    var j :| 0 <= j < |eligible| && eligible[j] == s;
    assert forall k :: 0 <= k < |Take(eligible, limit)| ==> eligible[k] == Take(eligible, limit)[k] != s;
    assert Before(Key(eligible[i]), Key(eligible[j]));
  }

  lemma LeftOut(eligible: seq<Record>, limit: nat)
    requires Sorted(eligible) && |eligible| > limit
    ensures eligible[limit] in eligible && eligible[limit] !in Take(eligible, limit)
  {
    BeforeIsStrictOrder(Key(eligible[limit]), Key(eligible[limit]), Key(eligible[limit]));
  }

  /** The rows of the tables above the cursor; without a cursor, those after since, or all of them when
      since is 0. */
  ghost function AskedRows(table: Table, tables: set<string>, q: PullQuery): set<Record> {
    set id | && id in table && table[id].tableName in tables
             && (if q.cursorUpdatedAt.Some? then q.cursorId.Some? && AboveQuery(q, table[id])
                 else q.since > 0 ==> table[id].updatedAt > q.since) :: table[id]
  }

  /** The database path pages through them. */
  lemma AccountWidePage(table: Table, tables: set<string>, q: PullQuery, page: Page)
    requires Keyed(table) && PullAccountWide(table, tables, q) == Ok(page)
    ensures IsPage(AskedRows(table, tables, q), q, page)
  {
    Fetched(table, tables, q);
    var matching := Matching(table, tables, Start(q).value, q.since);
    forall r ensures r in matching <==> r in AskedRows(table, tables, q) {
      if r in matching {
        assert r.id in table && table[r.id] == r;
      }
    }
    SortedPage(Listing(matching), AskedRows(table, tables, q), q);
  }

  /** The records of the tables above the cursor; without a cursor always those after since. */
  ghost function AskedRecords(scoped: seq<Record>, tables: set<string>, q: PullQuery): set<Record> {
    set r | && r in scoped && r.tableName in tables
            && (if q.cursorUpdatedAt.Some? then q.cursorId.Some? && AboveQuery(q, r) else r.updatedAt > q.since)
  }

  /** The in-memory path pages through these. */
  lemma ScopedPage(scoped: seq<Record>, tables: set<string>, q: PullQuery, page: Page)
    requires Sorted(scoped) && PullScoped(scoped, tables, q) == Ok(page)
    ensures IsPage(AskedRecords(scoped, tables, q), q, page)
  {
    var keep := (r: Record) => r.tableName in tables && After(Start(q).value, q.since, r);
    SortedPage(Where(scoped, keep), AskedRecords(scoped, tables, q), q);
  }

  // ---------------------------------------------------------------- a replica behind the cursor

  /** The client stores what pages deliver and sends the last cursor back. */
  datatype Client = Client(replica: Table, cursor: Option<Cursor>)

  datatype World = World(table: Table, client: Client)

  datatype Step = Write(row: Record) | PullPage(limit: int)

  function QueryOf(client: Client, limit: int): PullQuery {
    match client.cursor
    case None => PullQuery(None, None, 0, limit)
    case Some(c) => PullQuery(Some(c.updatedAt), Some(c.id), 0, limit)
  }

  function Absorb(replica: Table, rows: seq<Record>): Table {
    if rows == [] then replica
    else var n := |rows| - 1; Absorb(replica, rows[..n])[rows[n].id := rows[n]]
  }

  /** A write gives its record a key above the client's cursor. */
  predicate AboveCursor(client: Client, row: Record) {
    client.cursor.Some? ==> Before(client.cursor.value, Key(row))
  }

  predicate Storable(table: Table, row: Record) {
    row.id != "" && Trimmed(row.id) && (row.id in table ==> table[row.id].tableName == row.tableName)
  }

  ghost function PullInto(w: World, tables: set<string>, limit: int): Client
    requires Keyed(w.table)
  {
    match PullAccountWide(w.table, tables, QueryOf(w.client, limit))
    case Err(_) => w.client
    case Ok(page) => Client(Absorb(w.client.replica, page.rows), page.nextCursor)
  }

  ghost predicate NextWorld(w: World, tables: set<string>, step: Step, next: World) {
    Keyed(w.table) &&
    match step
    case Write(row) => Storable(w.table, row) && AboveCursor(w.client, row) && next == w.(table := w.table[row.id := row])
    case PullPage(limit) => next == w.(client := PullInto(w, tables, limit))
  }

  ghost predicate Run(worlds: seq<World>, tables: set<string>, steps: seq<Step>) {
    && |worlds| == |steps| + 1
    && Keyed(worlds[0].table) && worlds[0].client == Client(map[], None)
    && forall i {:trigger steps[i]} :: 0 <= i < |steps| ==> NextWorld(worlds[i], tables, steps[i], worlds[i + 1])
  }

  function Restrict(table: Table, tables: set<string>): Table {
    map id | id in table && table[id].tableName in tables :: table[id]
  }

  predicate CursorSound(cursor: Option<Cursor>) {
    cursor.Some? ==> cursor.value.id != "" && Trimmed(cursor.value.id)
  }

  /** Every record at or below the cursor is in the replica, as it is stored. */
  ghost predicate Synced(w: World, tables: set<string>) {
    && Keyed(w.table) && CursorSound(w.client.cursor)
    && (forall id :: id in w.client.replica ==> id in Restrict(w.table, tables))
    && forall id :: id in Restrict(w.table, tables) && !AboveCursor(w.client, w.table[id]) ==>
                      id in w.client.replica && w.client.replica[id] == w.table[id]
  }

  lemma {:induction false} AbsorbRows(replica: Table, rows: seq<Record>)
    requires forall r, s :: r in rows && s in rows && r.id == s.id ==> r == s
    ensures forall r :: r in rows ==> r.id in Absorb(replica, rows) && Absorb(replica, rows)[r.id] == r
    ensures forall id :: (forall r :: r in rows ==> r.id != id) ==>
              (id in Absorb(replica, rows) <==> id in replica) &&
              (id in replica ==> Absorb(replica, rows)[id] == replica[id])
  {
    if rows != [] {
      var n := |rows| - 1;
      assert rows == rows[..n] + [rows[n]];
      AbsorbRows(replica, rows[..n]);
    }
  }

  lemma QueryKeepsCursor(client: Client, limit: int)
    requires CursorSound(client.cursor) && Start(QueryOf(client, limit)).Ok?
    ensures Start(QueryOf(client, limit)).value == client.cursor
  {
    if client.cursor.Some? {
      TrimFixes(client.cursor.value.id);
    }
  }

  /** A page of a sorted list takes its first rows: what it leaves out lies beyond its cursor. */
  lemma PageTakesFirst(eligible: seq<Record>, cursor: Option<Cursor>, limit: nat, r: Record)
    requires Sorted(eligible) && limit > 0 && r in eligible
    ensures var page := PageOf(eligible, cursor, limit);
            r in page.rows || (page.hasMore && Before(page.nextCursor.value, Key(r)))
  {
    var page := PageOf(eligible, cursor, limit);
    var k :| 0 <= k < |eligible| && eligible[k] == r;
    if k < |page.rows| {
      assert page.rows[k] == r;
    }
  }

  /** What a successful pull delivers: the next rows above the cursor, with nothing between them
      and the cursor left out. */
  lemma Delivered(w: World, tables: set<string>, limit: int, page: Page)
    requires Synced(w, tables)
    requires PullAccountWide(w.table, tables, QueryOf(w.client, limit)) == Ok(page)
    ensures forall r :: r in page.rows ==>
              r.id in Restrict(w.table, tables) && w.table[r.id] == r && AboveCursor(w.client, r)
    ensures page.nextCursor == if page.rows == [] then w.client.cursor else Some(Key(page.rows[|page.rows| - 1]))
    ensures page.hasMore ==> page.rows != []
    ensures forall id :: id in Restrict(w.table, tables) && AboveCursor(w.client, w.table[id]) ==>
              w.table[id] in page.rows || (page.hasMore && Before(page.nextCursor.value, Key(w.table[id])))
  {
    QueryKeepsCursor(w.client, limit);
    Fetched(w.table, tables, QueryOf(w.client, limit));
    var matching := Listing(Matching(w.table, tables, w.client.cursor, 0));
    assert forall r :: r in page.rows ==> r in matching;
    forall id | id in Restrict(w.table, tables) && AboveCursor(w.client, w.table[id])
      ensures w.table[id] in page.rows || (page.hasMore && Before(page.nextCursor.value, Key(w.table[id])))
    {
      assert w.table[id] in matching;
      PageTakesFirst(matching, w.client.cursor, limit, w.table[id]);
    }
  }

  lemma PullKeepsSynced(w: World, tables: set<string>, limit: int)
    requires Synced(w, tables)
    ensures Synced(w.(client := PullInto(w, tables, limit)), tables)
  {
    var answer := PullAccountWide(w.table, tables, QueryOf(w.client, limit));
    if answer.Ok? {
      var page := answer.value;
      Delivered(w, tables, limit, page);
      AbsorbRows(w.client.replica, page.rows);
      var next := PullInto(w, tables, limit);
      forall id | id in Restrict(w.table, tables) && !AboveCursor(next, w.table[id])
        ensures id in next.replica && next.replica[id] == w.table[id]
      {
        if w.table[id] !in page.rows {
          assert forall r :: r in page.rows ==> r.id != id;
        }
      }
      forall id | id in next.replica ensures id in Restrict(w.table, tables) {
        if id !in w.client.replica {
          assert exists r :: r in page.rows && r.id == id;
        }
      }
    }
  }

  lemma WriteKeepsSynced(w: World, tables: set<string>, row: Record)
    requires Synced(w, tables) && Storable(w.table, row) && AboveCursor(w.client, row)
    ensures Synced(w.(table := w.table[row.id := row]), tables)
  {
  }

  lemma {:induction false} RunSynced(worlds: seq<World>, tables: set<string>, steps: seq<Step>, i: nat)
    requires Run(worlds, tables, steps) && i < |worlds|
    ensures Synced(worlds[i], tables)
    decreases i
  {
    if i > 0 {
      RunSynced(worlds, tables, steps, i - 1);
      match steps[i - 1] {
        case Write(row) => WriteKeepsSynced(worlds[i - 1], tables, row);
        case PullPage(limit) => PullKeepsSynced(worlds[i - 1], tables, limit);
      }
    }
  }

  lemma LastPageCompletes(w: World, tables: set<string>, limit: int, page: Page)
    requires Synced(w, tables)
    requires PullAccountWide(w.table, tables, QueryOf(w.client, limit)) == Ok(page) && !page.hasMore
    ensures PullInto(w, tables, limit).replica == Restrict(w.table, tables)
  {
    Delivered(w, tables, limit, page);
    AbsorbRows(w.client.replica, page.rows);
    PullKeepsSynced(w, tables, limit);
    var replica := PullInto(w, tables, limit).replica;
    forall id | id in Restrict(w.table, tables) ensures id in replica && replica[id] == w.table[id] {
      if w.table[id] !in page.rows {
        assert forall r :: r in page.rows ==> r.id != id;
      }
    }
  }

  /** In every run of pages and of writes above the client's cursor, a page that reports no more
      rows leaves the replica equal to the server's table. */
  lemma PullConverges(worlds: seq<World>, tables: set<string>, steps: seq<Step>, i: nat, page: Page)
    requires Run(worlds, tables, steps) && i < |steps| && steps[i].PullPage?
    requires Keyed(worlds[i].table)
    requires PullAccountWide(worlds[i].table, tables, QueryOf(worlds[i].client, steps[i].limit)) == Ok(page) && !page.hasMore
    ensures worlds[i + 1].client.replica == Restrict(worlds[i + 1].table, tables)
  {
    RunSynced(worlds, tables, steps, i);
    LastPageCompletes(worlds[i], tables, steps[i].limit, page);
  }

  // ---------------------------------------------------------------- writes at or below the cursor

  /** The client after pulling with these limits, one page after another. */
  ghost function PullAll(w: World, tables: set<string>, limits: seq<int>): Client
    requires Keyed(w.table)
    decreases |limits|
  {
    if limits == [] then w.client
    else PullAll(w.(client := PullInto(w, tables, limits[0])), tables, limits[1..])
  }

  lemma PageIsAboveCursor(w: World, tables: set<string>, limit: int, page: Page)
    requires Keyed(w.table) && CursorSound(w.client.cursor)
    requires PullAccountWide(w.table, tables, QueryOf(w.client, limit)) == Ok(page)
    ensures forall r :: r in page.rows ==> r.id in w.table && w.table[r.id] == r && AboveCursor(w.client, r)
    ensures CursorSound(page.nextCursor)
    ensures w.client.cursor.None? || page.nextCursor == w.client.cursor ||
            (page.nextCursor.Some? && Before(w.client.cursor.value, page.nextCursor.value))
  {
    QueryKeepsCursor(w.client, limit);
    Fetched(w.table, tables, QueryOf(w.client, limit));
    var matching := Listing(Matching(w.table, tables, w.client.cursor, 0));
    assert forall r :: r in page.rows ==> r in matching;
    if page.rows != [] {
      assert page.rows[|page.rows| - 1] in page.rows;
    }
  }

  /** No later page delivers a record that was written at or below the cursor. */
  lemma {:induction false} BelowCursorIsNeverDelivered(w: World, tables: set<string>, limits: seq<int>, id: string)
    requires Keyed(w.table) && CursorSound(w.client.cursor)
    requires id in w.table && !AboveCursor(w.client, w.table[id])
    ensures var replica := PullAll(w, tables, limits).replica;
            && (id in replica <==> id in w.client.replica)
            && (id in replica ==> replica[id] == w.client.replica[id])
    decreases |limits|
  {
    if limits != [] {
      var next := w.(client := PullInto(w, tables, limits[0]));
      var answer := PullAccountWide(w.table, tables, QueryOf(w.client, limits[0]));
      if answer.Ok? {
        var page := answer.value;
        PageIsAboveCursor(w, tables, limits[0], page);
        assert forall r :: r in page.rows ==> r.id != id;
        AbsorbRows(w.client.replica, page.rows);
        BeforeIsStrictOrder(w.client.cursor.value, page.nextCursor.value, Key(w.table[id]));
      }
      BelowCursorIsNeverDelivered(next, tables, limits[1..], id);
    }
  }

  lemma {:induction false} PullAllKeepsSynced(w: World, tables: set<string>, limits: seq<int>)
    requires Synced(w, tables)
    ensures Synced(w.(client := PullAll(w, tables, limits)), tables)
    decreases |limits|
  {
    if limits != [] {
      PullKeepsSynced(w, tables, limits[0]);
      PullAllKeepsSynced(w.(client := PullInto(w, tables, limits[0])), tables, limits[1..]);
    }
  }

  lemma KnownWriteKeepsSynced(w: World, tables: set<string>, row: Record)
    requires Synced(w, tables) && Storable(w.table, row) && row.tableName in tables
    requires AboveCursor(w.client, row) || (row.id in w.client.replica && w.client.replica[row.id] == row)
    ensures Synced(w.(table := w.table[row.id := row]), tables)
  {
  }

  /** Exactly when a write reaches a client that pulls to the end: when it was given a key above
      the client's cursor, or told the client nothing new. */
  lemma WriteReachesClient(w: World, tables: set<string>, row: Record, limits: seq<int>, last: int, page: Page)
    requires Synced(w, tables) && Storable(w.table, row) && row.tableName in tables
    requires var written := w.(table := w.table[row.id := row]);
             var before := written.(client := PullAll(written, tables, limits));
             PullAccountWide(before.table, tables, QueryOf(before.client, last)) == Ok(page) && !page.hasMore
    ensures var written := w.(table := w.table[row.id := row]);
            var client := PullAll(written, tables, limits + [last]);
            client.replica == Restrict(written.table, tables) <==>
            AboveCursor(w.client, row) || (row.id in w.client.replica && w.client.replica[row.id] == row)
  {
    var written := w.(table := w.table[row.id := row]);
    var client := PullAll(written, tables, limits + [last]);
    if AboveCursor(w.client, row) || (row.id in w.client.replica && w.client.replica[row.id] == row) {
      KnownWriteKeepsSynced(w, tables, row);
      PullAllKeepsSynced(written, tables, limits);
      var before := written.(client := PullAll(written, tables, limits));
      LastPageCompletes(before, tables, last, page);
      PullAllSplits(written, tables, limits, last);
    } else {
      BelowCursorIsNeverDelivered(written, tables, limits + [last], row.id);
      assert row.id in Restrict(written.table, tables);
    }
  }

  lemma {:induction false} PullAllSplits(w: World, tables: set<string>, limits: seq<int>, last: int)
    requires Keyed(w.table)
    ensures PullAll(w, tables, limits + [last]) ==
            PullInto(w.(client := PullAll(w, tables, limits)), tables, last)
    decreases |limits|
  {
    if limits == [] {
      assert [last][1..] == [];
    } else {
      assert (limits + [last])[1..] == limits[1..] + [last];
      PullAllSplits(w.(client := PullInto(w, tables, limits[0])), tables, limits[1..], last);
    }
  }

  // ---------------------------------------------------------------- paging a fixed set

  ghost function Concat(pages: seq<Page>): seq<Record> {
    if pages == [] then [] else Concat(pages[..|pages| - 1]) + pages[|pages| - 1].rows
  }

  function CursorAt(pages: seq<Page>, i: nat): Option<Cursor>
    requires i <= |pages|
  {
    if i == 0 then None else pages[i - 1].nextCursor
  }

  ghost predicate Answers(table: Table, tables: set<string>, cursor: Option<Cursor>, limit: int, page: Page)
    requires Keyed(table)
  {
    PullAccountWide(table, tables, QueryOf(Client(map[], cursor), limit)) == Ok(page)
  }

  ghost predicate AnswersAt(table: Table, tables: set<string>, limit: int, pages: seq<Page>, i: nat)
    requires Keyed(table) && i < |pages|
  {
    Answers(table, tables, CursorAt(pages, i), limit, pages[i])
  }

  /** The answers to a client that keeps asking with the last cursor. */
  ghost predicate Chained(table: Table, tables: set<string>, limit: int, pages: seq<Page>)
    requires Keyed(table)
  {
    && (forall i :: 0 <= i < |pages| ==> AnswersAt(table, tables, limit, pages, i))
    && (forall i :: 0 <= i < |pages| - 1 ==> pages[i].hasMore)
  }

  predicate Unfinished(pages: seq<Page>) {
    pages == [] || pages[|pages| - 1].hasMore
  }

  ghost predicate Paged(table: Table, tables: set<string>, limit: int, pages: seq<Page>)
    requires Keyed(table)
  {
    Chained(table, tables, limit, pages) && !Unfinished(pages)
  }

  /** Cutting the listing after a row leaves exactly what the query above that row's key lists. */
  lemma ListingAbove(table: Table, tables: set<string>, all: seq<Record>, k: nat)
    requires Keyed(table) && DistinctIds(Rows(table, tables)) && all == Listing(Rows(table, tables)) && 0 < k <= |all|
    ensures DistinctIds(Matching(table, tables, Some(Key(all[k - 1])), 0))
    ensures Listing(Matching(table, tables, Some(Key(all[k - 1])), 0)) == all[k..]
  {
    var c := Some(Key(all[k - 1]));
    MatchingDistinct(table, tables, c, 0);
    var above := Listing(Matching(table, tables, c, 0));
    forall r ensures r in above <==> r in all[k..] {
      if r in above {
        var i :| 0 <= i < |all| && all[i] == r;
        BeforeIsStrictOrder(Key(all[k - 1]), Key(r), Key(all[k - 1]));
        assert i >= k;
        assert all[k..][i - k] == r;
      }
    }
    SortedUnique(above, all[k..]);
  }

  lemma PageOfSlice(all: seq<Record>, done: nat, cursor: Option<Cursor>, limit: nat)
    requires done <= |all| && limit > 0
    ensures PageFollows(all, done, limit, PageOf(all[done..], cursor, limit))
  {
  }

  /** The page holds the next rows of the list after the first done ones, and says so. */
  ghost predicate PageFollows(all: seq<Record>, done: nat, limit: nat, page: Page)
    requires done <= |all| && limit > 0
  {
    && page.hasMore == (done + limit < |all|)
    && (if page.hasMore then done + limit <= |all| && page.rows == all[done..done + limit] else page.rows == all[done..])
    && (page.hasMore ==> page.nextCursor == Some(Key(all[done + limit - 1])))
    && |page.rows| <= limit
  }

  lemma NextPageFollows(table: Table, tables: set<string>, all: seq<Record>, done: nat, limit: int, cursor: Option<Cursor>, page: Page)
    requires Keyed(table) && DistinctIds(Rows(table, tables)) && all == Listing(Rows(table, tables)) && done <= |all|
    requires cursor == if done == 0 then None else Some(Key(all[done - 1]))
    requires Answers(table, tables, cursor, limit, page)
    ensures limit > 0 && PageFollows(all, done, limit, page)
  {
    var q := QueryOf(Client(map[], cursor), limit);
    Fetched(table, tables, q);
    if done == 0 {
      assert Matching(table, tables, None, 0) == Rows(table, tables);
      assert all[0..] == all;
    } else {
      ListingAbove(table, tables, all, done);
      assert all[done - 1] in all;
      CursorRoundTrip(all[done - 1], 0, limit);
    }
    PageOfSlice(all, done, cursor, limit);
  }

  ghost function Done(pages: seq<Page>, n: nat): nat
    requires n <= |pages|
  {
    |Concat(pages[..n])|
  }

  /** Where the first n pages have brought a client that pages through the list. */
  ghost predicate Reached(all: seq<Record>, pages: seq<Page>, n: nat)
    requires n <= |pages|
  {
    var done := Done(pages, n);
    && done <= |all| && Concat(pages[..n]) == all[..done]
    && (n > 0 && pages[n - 1].hasMore ==> 0 < done && pages[n - 1].nextCursor == Some(Key(all[done - 1])))
    && (n > 0 && !pages[n - 1].hasMore ==> done == |all|)
  }

  lemma ReachedNext(all: seq<Record>, limit: nat, pages: seq<Page>, n: nat)
    requires 0 < n <= |pages| && limit > 0
    requires Reached(all, pages, n - 1) && PageFollows(all, Done(pages, n - 1), limit, pages[n - 1])
    ensures Reached(all, pages, n)
    ensures Done(pages, n) == Done(pages, n - 1) + |pages[n - 1].rows|
  {
    assert pages[..n][..n - 1] == pages[..n - 1];
    assert Concat(pages[..n]) == Concat(pages[..n - 1]) + pages[n - 1].rows;
  }

  lemma {:induction false} PagesReach(table: Table, tables: set<string>, limit: nat, pages: seq<Page>, n: nat)
    requires Keyed(table) && DistinctIds(Rows(table, tables)) && Chained(table, tables, limit, pages) && n <= |pages|
    ensures Reached(Listing(Rows(table, tables)), pages, n)
    ensures n > 0 ==> Done(pages, n) == Done(pages, n - 1) + |pages[n - 1].rows|
    ensures n > 0 ==> if pages[n - 1].hasMore then |pages[n - 1].rows| == limit else |pages[n - 1].rows| <= limit
    decreases n
  {
    if n > 0 {
      PagesReach(table, tables, limit, pages, n - 1);
      var all := Listing(Rows(table, tables));
      assert n > 1 ==> pages[n - 2].hasMore;
      assert AnswersAt(table, tables, limit, pages, n - 1);
      NextPageFollows(table, tables, all, Done(pages, n - 1), limit, CursorAt(pages, n - 1), pages[n - 1]);
      ReachedNext(all, limit, pages, n);
    }
  }

  /** On a fixed set of records the pages, whatever their size, partition the sorted listing: every
      page but the last is full, nothing is skipped and nothing comes twice. */
  lemma PagesPartitionListing(table: Table, tables: set<string>, limit: nat, pages: seq<Page>)
    requires Keyed(table) && Paged(table, tables, limit, pages)
    ensures DistinctIds(Rows(table, tables)) && Concat(pages) == Listing(Rows(table, tables))
    ensures forall i :: 0 <= i < |pages| ==> if pages[i].hasMore then |pages[i].rows| == limit else |pages[i].rows| <= limit
  {
    MatchingDistinct(table, tables, None, 0);
    forall i | 0 <= i < |pages|
      ensures if pages[i].hasMore then |pages[i].rows| == limit else |pages[i].rows| <= limit
    {
      PagesReach(table, tables, limit, pages, i + 1);
    }
    PagesReach(table, tables, limit, pages, |pages|);
    assert pages[..|pages|] == pages;
  }

  lemma AskAgain(table: Table, tables: set<string>, limit: nat, pages: seq<Page>) returns (page: Page)
    requires Keyed(table) && 1 <= limit <= MAX_SYNC_PULL_LIMIT && Chained(table, tables, limit, pages) && Unfinished(pages)
    requires forall r :: r in Rows(table, tables) ==> r.updatedAt >= 0
    ensures Answers(table, tables, CursorAt(pages, |pages|), limit, page)
  {
    MatchingDistinct(table, tables, None, 0);
    var all := Listing(Rows(table, tables));
    PagesReach(table, tables, limit, pages, |pages|);
    var done := Done(pages, |pages|);
    if pages != [] {
      assert all[done - 1] in all;
      CursorRoundTrip(all[done - 1], 0, limit);
    }
    Fetched(table, tables, QueryOf(Client(map[], CursorAt(pages, |pages|)), limit));
    page := PullAccountWide(table, tables, QueryOf(Client(map[], CursorAt(pages, |pages|)), limit)).value;
  }

  lemma StillAnswers(table: Table, tables: set<string>, limit: int, pages: seq<Page>, longer: seq<Page>, i: nat)
    requires Keyed(table) && i < |pages| && pages <= longer && AnswersAt(table, tables, limit, pages, i)
    ensures AnswersAt(table, tables, limit, longer, i)
  {
    assert pages[i] == longer[i] && CursorAt(pages, i) == CursorAt(longer, i);
  }

  lemma OneMorePage(table: Table, tables: set<string>, limit: int, pages: seq<Page>, page: Page)
    requires Keyed(table) && Chained(table, tables, limit, pages) && Unfinished(pages)
    requires AnswersAt(table, tables, limit, pages + [page], |pages|)
    ensures Chained(table, tables, limit, pages + [page])
  {
    var longer := pages + [page];
    forall i | 0 <= i < |longer| ensures AnswersAt(table, tables, limit, longer, i) {
      if i < |pages| {
        StillAnswers(table, tables, limit, pages, longer, i);
      }
    }
  }

  lemma {:induction false} FewerPagesThanRows(table: Table, tables: set<string>, limit: nat, pages: seq<Page>, n: nat)
    requires Keyed(table) && limit > 0 && Chained(table, tables, limit, pages) && 0 < n <= |pages| && pages[n - 1].hasMore
    requires DistinctIds(Rows(table, tables))
    ensures n <= Done(pages, n) <= |Listing(Rows(table, tables))|
  {
    PagesReach(table, tables, limit, pages, n);
    if n > 1 {
      FewerPagesThanRows(table, tables, limit, pages, n - 1);
    }
  }

  lemma {:induction false} PageToTheEnd(table: Table, tables: set<string>, limit: nat, pages: seq<Page>) returns (longer: seq<Page>)
    requires Keyed(table) && 1 <= limit <= MAX_SYNC_PULL_LIMIT && Chained(table, tables, limit, pages) && Unfinished(pages)
    requires DistinctIds(Rows(table, tables)) && forall r :: r in Rows(table, tables) ==> r.updatedAt >= 0
    ensures Paged(table, tables, limit, longer)
    decreases |Listing(Rows(table, tables))| - |pages|
  {
    var page := AskAgain(table, tables, limit, pages);
    assert CursorAt(pages + [page], |pages|) == CursorAt(pages, |pages|);
    OneMorePage(table, tables, limit, pages, page);
    longer := pages + [page];
    if page.hasMore {
      FewerPagesThanRows(table, tables, limit, longer, |longer|);
      longer := PageToTheEnd(table, tables, limit, longer);
    }
  }

  /** With timestamps that a cursor accepts, such a sequence of pages always exists. */
  lemma PagingCompletes(table: Table, tables: set<string>, limit: nat) returns (pages: seq<Page>)
    requires Keyed(table) && 1 <= limit <= MAX_SYNC_PULL_LIMIT
    requires forall r :: r in Rows(table, tables) ==> r.updatedAt >= 0
    ensures Paged(table, tables, limit, pages)
  {
    MatchingDistinct(table, tables, None, 0);
    pages := PageToTheEnd(table, tables, limit, []);
  }

  // ---------------------------------------------------------------- the in-memory path

  /** The workspace filter leaves a sorted list sorted. */
  lemma FilterKeepsSorted(pf: Platform, scope: Scope, records: seq<Record>)
    requires Sorted(records)
    ensures Sorted(Filter(pf, scope, records))
  {
    var at := FilterKeepsOrder(pf, scope, records);
  }

  lemma ScopedIsSorted(scoped: seq<Record>, keep: Record -> bool, rows: set<Record>)
    requires Sorted(scoped) && DistinctIds(rows) && forall r :: r in rows <==> r in scoped && keep(r)
    ensures Where(scoped, keep) == Listing(rows)
  {
    SortedUnique(Where(scoped, keep), Listing(rows));
  }

  /** On the records that the workspace filter lets through, the in-memory path answers every query
      as the database path would: except a first query without a since, where the database does
      not look at the timestamp, so a timestamp that is not positive makes the answers differ. */
  lemma PathsAgree(table: Table, scoped: seq<Record>, tables: set<string>, q: PullQuery)
    requires Keyed(table) && Sorted(scoped)
    requires forall r :: r in scoped <==> r.id in table && table[r.id] == r
    ensures PullScoped(scoped, tables, q) == PullAccountWide(table, tables, q) <==>
            (|| Start(q).Err? || Start(q).value.Some? || q.since > 0
             || forall r :: r in Rows(table, tables) ==> r.updatedAt > 0)
  {
    var start := Start(q);
    if start.Ok? {
      Fetched(table, tables, q);
      var inMemory := (r: Record) => r.tableName in tables && After(start.value, q.since, r);
      var matching := Matching(table, tables, start.value, q.since);
      if start.value.Some? || q.since > 0 || forall r :: r in Rows(table, tables) ==> r.updatedAt > 0 {
        assert forall r :: r in matching <==> r in scoped && inMemory(r);
        ScopedIsSorted(scoped, inMemory, matching);
      } else {
        FirstPageDiffers(scoped, tables, matching, inMemory, q.limit);
      }
    }
  }

  lemma FirstPageDiffers(scoped: seq<Record>, tables: set<string>, matching: set<Record>, inMemory: Record -> bool, limit: nat)
    requires DistinctIds(matching) && limit > 0
    requires forall r :: inMemory(r) ==> r.updatedAt > 0
    requires exists r :: r in matching && r.updatedAt <= 0
    ensures PageOf(Where(scoped, inMemory), None, limit) != PageOf(Listing(matching), None, limit)
  {
    var listing := Listing(matching);
    var r :| r in matching && r.updatedAt <= 0;
    var k :| 0 <= k < |listing| && listing[k] == r;
    assert listing[0].updatedAt <= 0;
    var page := PageOf(Where(scoped, inMemory), None, limit);
    assert PageOf(listing, None, limit).rows[0] == listing[0];
    if page.rows != [] {
      assert page.rows[0] == Where(scoped, inMemory)[0];
      assert inMemory(page.rows[0]);
    }
  }
}
