/** A relational table as the ORM presents it: rows keyed by an
    autoincrement id, `create`, `update` by id, `deleteMany` by id,
    `findFirst` (the lowest matching id), `findMany` (matching ids in
    ascending order), `count`, and `skip`/`take` windows. */
module Tables {
  import opened Values

  datatype Table<T> = Table(rows: map<nat, T>, next: nat) {
    /** Every id handed out so far is below the autoincrement counter. */
    ghost predicate Valid() {
      forall k :: k in rows ==> k < next
    }
  }

  function Empty<T>(): (t: Table<T>)
    ensures t.Valid() && t.rows == map[]
  {
    Table(map[], 1)
  }

  /** `create`: the row gets the next autoincrement id. */
  function Insert<T>(t: Table<T>, v: T): (r: (Table<T>, nat))
    ensures r.0.rows == t.rows[r.1 := v]
    ensures t.Valid() ==> r.1 !in t.rows && r.0.Valid()
  {
    (Table(t.rows[t.next := v], t.next + 1), t.next)
  }

  /** `update` of an existing row; a missing id is the caller's error path. */
  function Put<T>(t: Table<T>, id: nat, v: T): (r: Table<T>)
    requires id in t.rows
    ensures r.rows == t.rows[id := v] && r.rows.Keys == t.rows.Keys
    ensures t.Valid() ==> r.Valid()
  {
    t.(rows := t.rows[id := v])
  }

  /** `deleteMany({ where: { id } })`: removes that row if present, and only it. */
  function Delete<T>(t: Table<T>, id: nat): (r: Table<T>)
    ensures r.rows.Keys == t.rows.Keys - {id}
    ensures forall k :: k in r.rows ==> r.rows[k] == t.rows[k]
    ensures t.Valid() ==> r.Valid()
  {
    t.(rows := map k | k in t.rows && k != id :: t.rows[k])
  }

  /** The lowest id in `[lo, hi)` whose row satisfies `p`. */
  function Scan<T>(rows: map<nat, T>, p: T -> bool, lo: nat, hi: nat): (r: Option<nat>)
    decreases hi - lo
    ensures r.Some? ==> lo <= r.value < hi && r.value in rows && p(rows[r.value])
    ensures r.Some? ==> forall k :: lo <= k < r.value && k in rows ==> !p(rows[k])
    ensures r.None? ==> forall k :: lo <= k < hi && k in rows ==> !p(rows[k])
  {
    if lo >= hi then None
    else if lo in rows && p(rows[lo]) then Some(lo)
    else Scan(rows, p, lo + 1, hi)
  }

  /** `findFirst` / `findUnique`: the matching row with the lowest id. */
  function FindFirst<T>(t: Table<T>, p: T -> bool): (r: Option<nat>)
    ensures r.Some? ==> r.value in t.rows && p(t.rows[r.value])
    ensures r.Some? ==> forall k :: k in t.rows && k < r.value ==> !p(t.rows[k])
    ensures t.Valid() ==> (r.None? <==> forall k :: k in t.rows ==> !p(t.rows[k]))
  {
    Scan(t.rows, p, 0, t.next)
  }

  predicate Increasing(s: seq<nat>) {
    forall i, j :: 0 <= i < j < |s| ==> s[i] < s[j]
  }

  /** The ids in `[lo, hi)` whose rows satisfy `p`, in ascending order. */
  function Collect<T>(rows: map<nat, T>, p: T -> bool, lo: nat, hi: nat): (r: seq<nat>)
    decreases hi - lo
    ensures Increasing(r)
    ensures forall i :: 0 <= i < |r| ==> lo <= r[i] < hi && r[i] in rows && p(rows[r[i]])
    ensures forall k :: lo <= k < hi && k in rows && p(rows[k]) ==> k in r
  {
    if lo >= hi then []
    else if lo in rows && p(rows[lo]) then [lo] + Collect(rows, p, lo + 1, hi)
    else Collect(rows, p, lo + 1, hi)
  }

  /** `findMany({ where })`: the matching ids in ascending order. */
  function FindMany<T>(t: Table<T>, p: T -> bool): (r: seq<nat>)
    ensures Increasing(r)
    ensures forall i :: 0 <= i < |r| ==> r[i] in t.rows && p(t.rows[r[i]])
    ensures t.Valid() ==> forall k :: k in t.rows && p(t.rows[k]) ==> k in r
  {
    Collect(t.rows, p, 0, t.next)
  }

  /** `count({ where })`. */
  function Count<T>(t: Table<T>, p: T -> bool): nat {
    |FindMany(t, p)|
  }

  /** A `skip`/`take` window over an ordered result. The ORM refuses a
      negative `skip`; a negative `take` (backwards paging) is refused here
      as well. */
  function Window<X>(s: seq<X>, skip: int, take: int): (r: Result<seq<X>>)
    ensures r.Ok? <==> skip >= 0 && take >= 0
    ensures r.Ok? ==> |r.value| <= take
    ensures r.Ok? ==> forall i :: 0 <= i < |r.value| ==> skip + i < |s| && r.value[i] == s[skip + i]
    ensures r.Ok? && skip + take <= |s| ==> |r.value| == take
    ensures r.Ok? && skip < |s| < skip + take ==> |r.value| == |s| - skip
  {
    if skip < 0 || take < 0 then Err(InvalidWindow)
    else if skip >= |s| then Ok([])
    else if skip + take >= |s| then Ok(s[skip..])
    else Ok(s[skip..skip + take])
  }

  /** The elements of a sequence of ids. */
  function Elems(s: seq<nat>): (r: set<nat>)
    ensures forall x :: x in r <==> x in s
  {
    if s == [] then {} else {s[0]} + Elems(s[1..])
  }

  /** An increasing sequence has no repeated element. */
  lemma {:induction false} IncreasingDistinct(s: seq<nat>)
    requires Increasing(s)
    ensures |Elems(s)| == |s|
  {
    if s != [] {
      var rest := s[1..];
      assert Increasing(rest) by {
        forall i, j | 0 <= i < j < |rest| ensures rest[i] < rest[j] {
          assert rest[i] == s[i + 1] && rest[j] == s[j + 1];
        }
      }
      IncreasingDistinct(rest);
    }
  }

  /** A filter every row passes counts the whole table. */
  lemma CountAll<T>(t: Table<T>, p: T -> bool)
    ensures t.Valid() && (forall k :: k in t.rows ==> p(t.rows[k])) ==> Count(t, p) == |t.rows|
  {
    if t.Valid() && forall k :: k in t.rows ==> p(t.rows[k]) {
      var s := FindMany(t, p);
      IncreasingDistinct(s);
      assert Elems(s) == t.rows.Keys;
    }
  }

  /** The ids of the rows that satisfy `p`. */
  function Matching<T>(t: Table<T>, p: T -> bool): set<nat> {
    set k | k in t.rows && p(t.rows[k])
  }

  /** `count` counts exactly the matching rows. */
  lemma CountMatching<T>(t: Table<T>, p: T -> bool)
    requires t.Valid()
    ensures Count(t, p) == |Matching(t, p)|
  {
    var s := FindMany(t, p);
    IncreasingDistinct(s);
    assert Elems(s) == Matching(t, p);
  }

  /** `connect: { id }` and `findUnique({ where: { id } })` find a row. */
  predicate Present<T>(t: Table<T>, id: Option<int>) {
    id.Some? && id.value >= 0 && id.value in t.rows
  }

  /** `NOT: { id: except }`, with `None` for no such condition. */
  predicate Other(k: nat, except: Option<int>) {
    except.None? || k != except.value
  }

  /** The ids of `s` that pass `Other`, in their order. */
  function Excluding(s: seq<nat>, except: Option<int>): (r: seq<nat>)
    ensures forall k :: k in r <==> k in s && Other(k, except)
  {
    if s == [] then []
    else if Other(s[0], except) then [s[0]] + Excluding(s[1..], except)
    else Excluding(s[1..], except)
  }

  /** `findFirst` is unaffected by rewriting the row it found with another
      matching row. */
  lemma FindFirstAfterPut<T>(t: Table<T>, p: T -> bool, k: nat, v: T)
    requires FindFirst(t, p) == Some(k) && p(v)
    ensures FindFirst(Put(t, k, v), p) == Some(k)
  {
  }

  const InvalidWindow := "Invalid value for skip or take: the value must not be negative"

  /** The ORM's error for an `update` whose row (or nested related row) is missing. */
  const RecordNotFound := "Record to update not found."

  /** The ORM's refusal of a write that repeats a unique column's value. */
  const UniqueViolation := "Unique constraint failed"
}
