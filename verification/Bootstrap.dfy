/** The paged workspace download: every page is cut from the same ordered list, and the cursor
    carries a revision of that list. */
module Bootstrap {
  import opened Common
  import opened WorkspaceFilter
  import opened Pull

  // ---------------------------------------------------------------- the list and its revision

  /** What the workspace may download: filtered over all tables of the role, then narrowed to the
      selected ones, in the order of the listing. */
  ghost function Eligible(pf: Platform, scope: Scope, table: Table, roleTables: set<string>, selected: set<string>): seq<Record>
    requires Keyed(table)
  {
    MatchingDistinct(table, roleTables, None, 0);
    Where(Filter(pf, scope, Listing(Rows(table, roleTables))), (r: Record) => r.tableName in selected)
  }

  /** The eligible list is sorted, and holds the visible records of the selected tables. */
  lemma EligibleRecords(pf: Platform, scope: Scope, table: Table, roleTables: set<string>, selected: set<string>)
    requires Keyed(table)
    ensures Sorted(Eligible(pf, scope, table, roleTables, selected))
    ensures DistinctIds(Rows(table, roleTables))
    ensures forall r :: r in Eligible(pf, scope, table, roleTables, selected) <==>
              r in Rows(table, roleTables) && r.tableName in selected &&
              Visible(pf, scope, Listing(Rows(table, roleTables)), r)
  {
    MatchingDistinct(table, roleTables, None, 0);
    FilterMembers(pf, scope, Listing(Rows(table, roleTables)));
    FilterKeepsSorted(pf, scope, Listing(Rows(table, roleTables)));
  }

  datatype Digest = Digest(id: string, tableName: string, updatedAt: int, version: int, isDeleted: bool)

  function DigestOf(r: Record): Digest {
    Digest(r.id, r.tableName, r.updatedAt, r.version, r.isDeleted)
  }

  function Digests(s: seq<Record>): (d: seq<Digest>)
    ensures |d| == |s|
  {
    seq(|s|, i requires 0 <= i < |s| => DigestOf(s[i]))
  }

  /** SHA-256 over the scope key and the digests, taken to be injective. */
  datatype Revision = Revision(scopeKey: string, digests: seq<Digest>)

  // ---------------------------------------------------------------- one page

  datatype PageCursor = PageCursor(v: int, scopeKey: string, revision: Revision, offset: int, pageSize: int)

  /** A cursor as text: its length, and what it decodes to, if it decodes. */
  datatype CursorText = CursorText(length: nat, content: Option<PageCursor>)

  datatype BootstrapError = InvalidPageSize | CursorTooLong | CursorEncoding | CursorMismatch | SnapshotChanged

  datatype BootstrapPage = BootstrapPage(rows: seq<Record>, hasMore: bool, nextCursor: Option<PageCursor>)

  const MAX_SAFE_INTEGER := 0x1F_FFFF_FFFF_FFFF

  function StartOffset(scopeKey: string, eligible: seq<Record>, pageSize: int, cursor: Option<CursorText>)
    : (offset: Result<nat, BootstrapError>)
    ensures offset.Ok? ==> offset.value <= |eligible|
  {
    if cursor.None? then Ok(0)
    else if cursor.value.length > 4096 then Err(CursorTooLong)
    else if cursor.value.content.None? then Err(CursorEncoding)
    else
      var c := cursor.value.content.value;
      if c.v != 1 || c.scopeKey != scopeKey || c.pageSize != pageSize || c.offset > MAX_SAFE_INTEGER || c.offset < 0 ||
         c.offset >= |eligible|
      then Err(CursorMismatch)
      else if c.revision != Revision(scopeKey, Digests(eligible)) then Err(SnapshotChanged)
      else Ok(c.offset)
  }

  function DownloadPage(scopeKey: string, eligible: seq<Record>, pageSize: int, cursor: Option<CursorText>)
    : Result<BootstrapPage, BootstrapError>
  {
    if !(1 <= pageSize <= 500) then Err(InvalidPageSize)
    else
      var start := StartOffset(scopeKey, eligible, pageSize, cursor);
      if start.Err? then Err(start.error)
      else
        var rows := Take(eligible[start.value..], pageSize);
        var hasMore := start.value + |rows| < |eligible|;
        Ok(BootstrapPage(rows, hasMore,
                         if hasMore then Some(PageCursor(1, scopeKey, Revision(scopeKey, Digests(eligible)),
                                                         start.value + |rows|, pageSize))
                         else None))
  }

  /** The cursor was made for this list: same scope, page size and digests, at a row inside it. */
  ghost predicate MadeFor(scopeKey: string, eligible: seq<Record>, pageSize: int, c: PageCursor) {
    && c.v == 1 && c.scopeKey == scopeKey && c.pageSize == pageSize && 0 <= c.offset < |eligible|
    && c.revision.scopeKey == scopeKey && |c.revision.digests| == |eligible|
    && forall i :: 0 <= i < |eligible| ==>
         && c.revision.digests[i].id == eligible[i].id && c.revision.digests[i].tableName == eligible[i].tableName
         && c.revision.digests[i].updatedAt == eligible[i].updatedAt && c.revision.digests[i].version == eligible[i].version
         && c.revision.digests[i].isDeleted == eligible[i].isDeleted
  }

  lemma DigestsMatch(digests: seq<Digest>, eligible: seq<Record>)
    requires |digests| == |eligible|
    requires forall i :: 0 <= i < |eligible| ==>
      digests[i] == Digest(eligible[i].id, eligible[i].tableName, eligible[i].updatedAt, eligible[i].version, eligible[i].isDeleted)
    ensures digests == Digests(eligible)
  {
  }

  /** Exactly which requests are answered, by any client: a page of 1 to 500 rows, from the start or
      from a cursor of at most 4096 characters that was made for the list as it is now. */
  lemma PageAnswered(scopeKey: string, eligible: seq<Record>, pageSize: int, cursor: Option<CursorText>)
    requires |eligible| <= MAX_SAFE_INTEGER
    ensures DownloadPage(scopeKey, eligible, pageSize, cursor).Ok? <==>
            && 1 <= pageSize <= 500
            && (cursor.Some? ==>
                  && cursor.value.length <= 4096 && cursor.value.content.Some?
                  && MadeFor(scopeKey, eligible, pageSize, cursor.value.content.value))
  {
    if cursor.Some? && cursor.value.content.Some? {
      var c := cursor.value.content.value;
      if MadeFor(scopeKey, eligible, pageSize, c) {
        DigestsMatch(c.revision.digests, eligible);
        assert c.revision == Revision(scopeKey, Digests(eligible));
      }
    }
  }

  /** The page has the rows from there on, as many as fit, and a cursor exactly if more follow. */
  lemma PageContents(scopeKey: string, eligible: seq<Record>, pageSize: int, cursor: Option<CursorText>, page: BootstrapPage)
    requires DownloadPage(scopeKey, eligible, pageSize, cursor) == Ok(page)
    ensures var from := if cursor.None? then 0 else cursor.value.content.value.offset;
            var end := if from + pageSize < |eligible| then from + pageSize else |eligible|;
            && 0 <= from <= end && page.rows == eligible[from..end] && (page.hasMore <==> end < |eligible|)
            && (page.nextCursor.Some? <==> page.hasMore)
            && (page.hasMore ==>
                  page.nextCursor.value.offset == end && MadeFor(scopeKey, eligible, pageSize, page.nextCursor.value))
  {
  }

  // ---------------------------------------------------------------- a changed list

  /** Exactly when a cursor is honoured: the same scope and page size, and a list whose digests are
      those of the list that it was cut from. */
  lemma CursorHonoured(scopeKey: string, eligible: seq<Record>, pageSize: int, cursor: Option<CursorText>, page: BootstrapPage,
                       scopeKey': string, eligible': seq<Record>, pageSize': int, length: nat)
    requires DownloadPage(scopeKey, eligible, pageSize, cursor) == Ok(page) && page.nextCursor.Some?
    requires |eligible| <= MAX_SAFE_INTEGER
    ensures DownloadPage(scopeKey', eligible', pageSize', Some(CursorText(length, page.nextCursor))).Ok? <==>
            scopeKey' == scopeKey && pageSize' == pageSize && Digests(eligible') == Digests(eligible) && length <= 4096
  {
    if Digests(eligible') == Digests(eligible) {
      assert |eligible'| == |eligible|;
    }
  }

  // ---------------------------------------------------------------- a whole download

  ghost function Concatenated(pages: seq<BootstrapPage>): seq<Record> {
    if pages == [] then [] else Concatenated(pages[..|pages| - 1]) + pages[|pages| - 1].rows
  }

  /** A download without an error: request i met the list lists[i] and sent the cursor of the page
      before, until a page came without one. */
  ghost predicate Download(scopeKey: string, pageSize: int, lists: seq<seq<Record>>, sent: seq<Option<CursorText>>, pages: seq<BootstrapPage>) {
    && |lists| == |sent| == |pages| > 0
    && sent[0].None?
    && (forall i :: 0 <= i < |pages| ==> DownloadPage(scopeKey, lists[i], pageSize, sent[i]) == Ok(pages[i]))
    && (forall i :: 0 < i < |pages| ==> Follows(pages[i - 1], sent[i]))
    && pages[|pages| - 1].nextCursor.None?
  }

  predicate Follows(page: BootstrapPage, cursor: Option<CursorText>) {
    page.nextCursor.Some? && cursor.Some? && cursor.value.content == page.nextCursor
  }

  lemma DigestsConcat(s: seq<Record>, t: seq<Record>)
    ensures Digests(s + t) == Digests(s) + Digests(t)
  {
  }

  lemma DigestsSlice(s: seq<Record>, from: nat, to: nat)
    requires from <= to <= |s|
    ensures Digests(s[from..to]) == Digests(s)[from..to]
  {
  }

  /** How far digests of the rows received reach into the list's digests, and what the cursor says. */
  ghost predicate Standing(scopeKey: string, all: seq<Digest>, done: seq<Digest>, next: Option<PageCursor>) {
    match next
    case None => done == all
    case Some(c) => c.offset == |done| < |all| && done == all[..|done|] && c.revision == Revision(scopeKey, all)
  }

  lemma CutPage(scopeKey: string, list: seq<Record>, pageSize: int, cursor: Option<CursorText>, page: BootstrapPage, done: seq<Digest>)
    requires DownloadPage(scopeKey, list, pageSize, cursor) == Ok(page)
    requires StartOffset(scopeKey, list, pageSize, cursor).value == |done| && done == Digests(list)[..|done|]
    ensures Standing(scopeKey, Digests(list), done + Digests(page.rows), page.nextCursor)
  {
    var end := |done| + |page.rows|;
    assert page.rows == list[|done|..end];
    DigestsSlice(list, |done|, end);
    assert done + Digests(page.rows) == Digests(list)[..end];
  }

  lemma {:induction false} PagesFollowFirstList(scopeKey: string, pageSize: int, lists: seq<seq<Record>>,
                                                sent: seq<Option<CursorText>>, pages: seq<BootstrapPage>, n: nat)
    requires Download(scopeKey, pageSize, lists, sent, pages) && 0 < n <= |pages|
    ensures Digests(lists[n - 1]) == Digests(lists[0])
    ensures Standing(scopeKey, Digests(lists[0]), Digests(Concatenated(pages[..n])), pages[n - 1].nextCursor)
    decreases n
  {
    var page, list, before := pages[n - 1], lists[n - 1], Concatenated(pages[..n - 1]);
    assert DownloadPage(scopeKey, list, pageSize, sent[n - 1]) == Ok(page);
    assert pages[..n][..n - 1] == pages[..n - 1];
    DigestsConcat(before, page.rows);
    if n > 1 {
      PagesFollowFirstList(scopeKey, pageSize, lists, sent, pages, n - 1);
      assert Follows(pages[n - 2], sent[n - 1]);
    }
    CutPage(scopeKey, list, pageSize, sent[n - 1], page, Digests(before));
  }

  /** Every list that a completed download met has the same revision, and the pages one after the
      other are that list: nothing is skipped, repeated or taken from another revision. */
  lemma DownloadIsOneRevision(scopeKey: string, pageSize: int, lists: seq<seq<Record>>, sent: seq<Option<CursorText>>, pages: seq<BootstrapPage>)
    requires Download(scopeKey, pageSize, lists, sent, pages)
    ensures forall i :: 0 <= i < |lists| ==> Digests(lists[i]) == Digests(lists[0])
    ensures Digests(Concatenated(pages)) == Digests(lists[0])
  {
    forall i | 0 <= i < |lists| ensures Digests(lists[i]) == Digests(lists[0]) {
      PagesFollowFirstList(scopeKey, pageSize, lists, sent, pages, i + 1);
    }
    PagesFollowFirstList(scopeKey, pageSize, lists, sent, pages, |pages|);
    assert pages[..|pages|] == pages;
  }

  /** Records with equal digests are equal: no write keeps both version and timestamp. */
  ghost predicate DigestsTell(records: set<Record>) {
    forall r, s :: r in records && s in records && DigestOf(r) == DigestOf(s) ==> r == s
  }

  lemma {:induction false} PageRowsComeFromLists(scopeKey: string, pageSize: int, lists: seq<seq<Record>>,
                                                 sent: seq<Option<CursorText>>, pages: seq<BootstrapPage>, n: nat, records: set<Record>)
    requires Download(scopeKey, pageSize, lists, sent, pages) && n <= |pages|
    requires forall i, r :: 0 <= i < |lists| && r in lists[i] ==> r in records
    ensures forall r :: r in Concatenated(pages[..n]) ==> r in records
  {
    if n > 0 {
      PageRowsComeFromLists(scopeKey, pageSize, lists, sent, pages, n - 1, records);
      assert pages[..n][..n - 1] == pages[..n - 1];
      assert DownloadPage(scopeKey, lists[n - 1], pageSize, sent[n - 1]) == Ok(pages[n - 1]);
      forall r | r in pages[n - 1].rows ensures r in records {
        assert r in lists[n - 1];
      }
    }
  }

  /** When versions and timestamps tell records apart, the downloaded records are the list itself. */
  lemma DownloadIsTheList(scopeKey: string, pageSize: int, lists: seq<seq<Record>>, sent: seq<Option<CursorText>>,
                          pages: seq<BootstrapPage>, records: set<Record>)
    requires Download(scopeKey, pageSize, lists, sent, pages)
    requires DigestsTell(records) && forall i, r :: 0 <= i < |lists| && r in lists[i] ==> r in records
    ensures forall i :: 0 <= i < |lists| ==> lists[i] == Concatenated(pages)
  {
    DownloadIsOneRevision(scopeKey, pageSize, lists, sent, pages);
    PageRowsComeFromLists(scopeKey, pageSize, lists, sent, pages, |pages|, records);
    assert pages[..|pages|] == pages;
    forall i | 0 <= i < |lists| ensures lists[i] == Concatenated(pages) {
      SameDigestsSameRecords(lists[i], Concatenated(pages), records);
    }
  }

  lemma SameDigestsSameRecords(s: seq<Record>, t: seq<Record>, records: set<Record>)
    requires DigestsTell(records) && Digests(s) == Digests(t)
    requires (forall r :: r in s ==> r in records) && (forall r :: r in t ==> r in records)
    ensures s == t
  {
    assert |s| == |Digests(s)| == |t|;
    forall k | 0 <= k < |s| ensures s[k] == t[k] {
      assert Digests(s)[k] == DigestOf(s[k]) && Digests(t)[k] == DigestOf(t[k]);
      assert s[k] in records && t[k] in records;
    }
  }
}
