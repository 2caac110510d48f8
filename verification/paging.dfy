/** The pagination arithmetic shared by every list endpoint:
    `page = parseInt(query.page, 10) || 1`,
    `pageSize = parseInt(query.pageSize, 10) || 10`,
    `skip = (page - 1) * pageSize`, then `findMany({ where, skip, take: pageSize })`
    and `count({ where })` over the same filter. */
module Paging {
  import opened Values
  import opened Text
  import opened Tables
  import opened Http

  /** The two query-string parameters, `None` when absent. */
  datatype Query = Query(page: Option<string>, pageSize: Option<string>)

  /** `parseInt(q, 10) || fallback`: `NaN` and 0 fall back. */
  function IntOr(q: Option<string>, fallback: int): int {
    match q
    case None => fallback
    case Some(s) =>
      match ParseInt(s)
      case None => fallback
      case Some(n) => if n == 0 then fallback else n
  }

  function PageNumber(q: Query): int {
    IntOr(q.page, 1)
  }

  function PageSize(q: Query): int {
    IntOr(q.pageSize, 10)
  }

  function Skip(q: Query): int {
    (PageNumber(q) - 1) * PageSize(q)
  }

  /** A page of a filtered table: the ids on the page and the number of
      matching rows. */
  datatype Page = Page(records: seq<nat>, totalCount: nat)

  /** The page a list endpoint answers with. It is refused only for a
      negative skip or size; it holds at most `pageSize` matching rows, and
      its count is the number of all matching rows, whatever the page. */
  function Paginate<T>(t: Table<T>, p: T -> bool, q: Query): (r: Result<Page>)
    ensures r.Ok? <==> Skip(q) >= 0 && PageSize(q) >= 0
    ensures r.Ok? ==> |r.value.records| <= PageSize(q)
    ensures r.Ok? ==> forall i :: 0 <= i < |r.value.records| ==>
                        r.value.records[i] in t.rows && p(t.rows[r.value.records[i]])
    ensures r.Ok? && t.Valid() ==> r.value.totalCount == |Matching(t, p)|
  {
    WindowOf(t, p, Skip(q), PageSize(q))
  }

  function WindowOf<T>(t: Table<T>, p: T -> bool, skip: int, take: int): (r: Result<Page>)
    ensures r.Ok? <==> skip >= 0 && take >= 0
    ensures r.Ok? ==> |r.value.records| <= take
    ensures r.Ok? ==> forall i :: 0 <= i < |r.value.records| ==>
                        r.value.records[i] in t.rows && p(t.rows[r.value.records[i]])
    ensures r.Ok? && t.Valid() ==> r.value.totalCount == |Matching(t, p)|
  {
    CountWhenValid(t, p);
    var all := FindMany(t, p);
    match Window(all, skip, take)
    case Ok(records) =>
      assert forall i :: 0 <= i < |records| ==> records[i] == all[skip + i];
      Ok(Page(records, Count(t, p)))
    case Err(m) => Err(m)
  }

  lemma CountWhenValid<T>(t: Table<T>, p: T -> bool)
    ensures t.Valid() ==> Count(t, p) == |Matching(t, p)|
  {
    if t.Valid() {
      CountMatching(t, p);
    }
  }

  /** A list handler's answer: `{ success, message, data: { records,
      totalCount } }` with status 200, or the ORM's error handed on with
      the handler's error status. */
  function PageReply(r: Result<Page>, message: string, failStatus: int): (reply: Reply)
    ensures r.Ok? ==> reply == Listed(200, message, r.value.records, r.value.totalCount)
    ensures r.Err? ==> reply == Forward(failStatus, r.message)
  {
    match r
    case Ok(page) => Listed(200, message, page.records, page.totalCount)
    case Err(m) => Forward(failStatus, m)
  }

  /** A missing, non-numeric or zero parameter takes its default; any other
      number is used as given, negative ones included. */
  lemma DefaultsApply(q: Query)
    ensures q.page.None? || ParseInt(q.page.value).None? || ParseInt(q.page.value) == Some(0)
            ==> PageNumber(q) == 1
    ensures q.pageSize.None? || ParseInt(q.pageSize.value).None? || ParseInt(q.pageSize.value) == Some(0)
            ==> PageSize(q) == 10
    ensures q.page.Some? && ParseInt(q.page.value).Some? && ParseInt(q.page.value) != Some(0)
            ==> PageNumber(q) == ParseInt(q.page.value).value
    ensures PageNumber(q) != 0 && PageSize(q) != 0
  {
  }

  /** A rendered page number is read back as that number. */
  lemma RenderedPage(page: nat, size: nat)
    requires page >= 1 && size >= 1
    ensures var q := Query(Some(NatToString(page)), Some(NatToString(size)));
            PageNumber(q) == page && PageSize(q) == size && Skip(q) == (page - 1) * size
  {
    ReadBack(page, 1);
    ReadBack(size, 10);
  }

  /** A positive number rendered in decimal is read back, not defaulted. */
  lemma ReadBack(n: nat, fallback: int)
    requires n >= 1
    ensures IntOr(Some(NatToString(n)), fallback) == n
  {
    ParseIntOfNatToString(n);
  }

  /** Without query parameters the first ten matching rows are returned. */
  lemma FirstPageByDefault<T>(t: Table<T>, p: T -> bool)
    ensures Paginate(t, p, Query(None, None)).Ok?
    ensures var all := FindMany(t, p);
            Paginate(t, p, Query(None, None)).value.records == (if |all| <= 10 then all else all[..10])
  {
  }

  /** A page is refused exactly when its window starts before the first row
      or has a negative size; `page=-1` is not clamped to the first page. */
  lemma NegativePageRefused<T>(t: Table<T>, p: T -> bool)
    ensures Paginate(t, p, Query(Some("-1"), None)).Err?
  {
    MinusOne("-1");
    assert Skip(Query(Some("-1"), None)) == -20;
  }

  lemma MinusOne(s: string)
    requires |s| == 2 && s[0] == '-' && s[1] == '1'
    ensures ParseInt(s) == Some(-1)
  {
    MinusNumberText(s);
    assert DigitPrefix(s[1..]) == s[1..];
    assert DigitsValue(s[1..]) == 1;
  }

  /** What a page holds: the rows at positions `skip`, `skip + 1`, ... of
      the filtered, id-ordered result, at most `pageSize` of them, all of
      them when the window fits; the count ignores the window. */
  lemma PageContents<T>(t: Table<T>, p: T -> bool, q: Query)
    requires Paginate(t, p, q).Ok?
    ensures var pg := Paginate(t, p, q).value;
            var all := FindMany(t, p);
            pg.totalCount == |all|
            && Skip(q) >= 0 && PageSize(q) >= 0
            && |pg.records| <= PageSize(q)
            && (forall i :: 0 <= i < |pg.records| ==> Skip(q) + i < |all| && pg.records[i] == all[Skip(q) + i])
            && (Skip(q) + PageSize(q) <= |all| ==> |pg.records| == PageSize(q))
            && (forall i :: 0 <= i < |pg.records| ==> pg.records[i] in t.rows && p(t.rows[pg.records[i]]))
  {
    var all := FindMany(t, p);
    var pg := Paginate(t, p, q).value;
    forall i | 0 <= i < |pg.records|
      ensures pg.records[i] in t.rows && p(t.rows[pg.records[i]])
    {
      assert pg.records[i] == all[Skip(q) + i];
    }
  }

  /** Page `page` (from 1) of size `size` is the window starting at
      `(page - 1) * size`. */
  lemma PageWindow<T>(t: Table<T>, p: T -> bool, page: nat, size: nat)
    requires page >= 1 && size >= 1
    ensures Paginate(t, p, Query(Some(NatToString(page)), Some(NatToString(size))))
            == WindowOf(t, p, (page - 1) * size, size)
  {
    RenderedPage(page, size);
  }

  /** Paging never loses a row: with a positive page size, every matching
      row is in the window of some page (page `m + 1`, by `PageWindow`). */
  lemma EveryRowOnSomePage<T>(t: Table<T>, p: T -> bool, k: nat, size: nat)
    requires t.Valid() && k in t.rows && p(t.rows[k]) && size >= 1
    ensures exists m: nat :: WindowOf(t, p, m * size, size).Ok? && k in WindowOf(t, p, m * size, size).value.records
  {
    var all := FindMany(t, p);
    assert k in all;
    var j :| 0 <= j < |all| && all[j] == k;
    var m := PageOfIndex(j, size);
    WindowHolds(all, m * size, size, j);
    assert WindowOf(t, p, m * size, size).Ok? && k in WindowOf(t, p, m * size, size).value.records;
  }

  /** The page index (from 0) of position `j`. */
  lemma PageOfIndex(j: nat, size: nat) returns (m: nat)
    requires size >= 1
    ensures m * size <= j < m * size + size
  {
    m := j / size;
    assert j == m * size + j % size;
  }

  lemma WindowHolds<X>(s: seq<X>, skip: nat, take: nat, j: nat)
    requires skip <= j < skip + take && j < |s|
    ensures Window(s, skip, take).Ok? && s[j] in Window(s, skip, take).value
  {
    var w := Window(s, skip, take).value;
    assert |w| > j - skip;
    assert w[j - skip] == s[j];
  }
}
