/**
 * The six tables of the store database as in-memory values. The CHECK,
 * PRIMARY KEY and FOREIGN KEY clauses of the schema become the conditions
 * under which an INSERT is admitted, and every SELECT ... WHERE of the
 * loader becomes an exact-match filter over one table.
 */
module Tables {
  import opened Wrappers

  /** A value held in an INTEGER column: text that is a decimal literal is
      stored as an integer, any other text stays text. */
  datatype Value = Int(i: int) | Text(t: string)

  /** A table row with its integer key and the columns searched by the loader. */
  datatype Row<K> = Row(id: int, key: K)

  datatype ProdKey = ProdKey(desc: string, price: int)
  datatype CustKey = CustKey(first: string, last: string, addr: string, zip: string)
  datatype InvKey = InvKey(custId: int, day: Value, month: Value, year: Value, time: string)
  datatype ZipInfo = ZipInfo(city: string, state: string)
  datatype Detail = Detail(invoiceId: int, prodId: int, qty: int)

  /** The database: tProd, tState (code to name), tZip (zip to city and state),
      tCust and tInv with the last AUTOINCREMENT value handed out for each,
      and tInvDetail. */
  datatype Db = Db(
    prods: seq<Row<ProdKey>>,
    states: map<string, string>,
    zips: map<string, ZipInfo>,
    custs: seq<Row<CustKey>>,
    custSeq: nat,
    invs: seq<Row<InvKey>>,
    invSeq: nat,
    details: seq<Detail>)

  const EmptyDb := Db([], map[], map[], [], 0, [], 0, [])

  predicate HasId<K>(rows: seq<Row<K>>, id: int) {
    exists i | 0 <= i < |rows| :: rows[i].id == id
  }

  predicate HasPair(details: seq<Detail>, invoiceId: int, prodId: int) {
    exists i | 0 <= i < |details| :: details[i].invoiceId == invoiceId && details[i].prodId == prodId
  }

  /** The largest id in a table, or 0 for a table without rows. */
  function MaxId<K>(rows: seq<Row<K>>): (m: nat)
    ensures forall i :: 0 <= i < |rows| ==> rows[i].id <= m
    ensures rows != [] ==> m == 0 || HasId(rows, m)
  {
    if rows == [] then 0
    else
      var m := MaxId(rows[..|rows| - 1]);
      var last := rows[|rows| - 1];
      if last.id > m then last.id else m
  }

  /** The id AUTOINCREMENT chooses: one more than both the largest id handed
      out before and the largest id in the table. */
  function NextId<K>(rows: seq<Row<K>>, last: nat): (id: nat)
    ensures id > last
    ensures !HasId(rows, id)
    ensures forall i :: 0 <= i < |rows| ==> rows[i].id < id
  {
    (if last > MaxId(rows) then last else MaxId(rows)) + 1
  }

  /** The ids of the rows whose searched columns equal `k`, in storage order:
      what `SELECT id FROM t WHERE ...` returns. */
  function Matching<K(==)>(rows: seq<Row<K>>, k: K): (ids: seq<int>)
    ensures |ids| <= |rows|
    ensures ids == [] <==> forall i :: 0 <= i < |rows| ==> rows[i].key != k
  {
    if rows == [] then []
    else (if rows[0].key == k then [rows[0].id] else []) + Matching(rows[1..], k)
  }

  /** Every id returned is the id of a row with the searched key. */
  lemma {:induction false} MatchingIds<K>(rows: seq<Row<K>>, k: K, j: nat)
    requires j < |Matching(rows, k)|
    ensures exists i :: 0 <= i < |rows| && rows[i].key == k && rows[i].id == Matching(rows, k)[j]
  {
    if rows[0].key != k {
      MatchingIds(rows[1..], k, j);
      var i :| 0 <= i < |rows[1..]| && rows[1..][i].key == k && rows[1..][i].id == Matching(rows[1..], k)[j];
      assert rows[i + 1] == rows[1..][i];
    } else if j > 0 {
      MatchingIds(rows[1..], k, j - 1);
      var i :| 0 <= i < |rows[1..]| && rows[1..][i].key == k && rows[1..][i].id == Matching(rows[1..], k)[j - 1];
      assert rows[i + 1] == rows[1..][i];
    }
  }

  /** The first id returned names the first matching row of the table. */
  lemma {:induction false} MatchingFirst<K>(rows: seq<Row<K>>, k: K)
    requires Matching(rows, k) != []
    ensures exists i :: 0 <= i < |rows| && rows[i].key == k && rows[i].id == Matching(rows, k)[0]
                        && forall j :: 0 <= j < i ==> rows[j].key != k
  {
    if rows[0].key != k {
      MatchingFirst(rows[1..], k);
      var i :| 0 <= i < |rows[1..]| && rows[1..][i].key == k && rows[1..][i].id == Matching(rows[1..], k)[0]
               && forall j :: 0 <= j < i ==> rows[1..][j].key != k;
      assert rows[i + 1] == rows[1..][i];
      forall j | 0 <= j < i + 1 ensures rows[j].key != k {
        if j > 0 { assert rows[j] == rows[1..][j - 1]; }
      }
    }
  }

  /** Appending a row extends the result of every search by at most that row's id. */
  lemma {:induction false} MatchingAppend<K>(rows: seq<Row<K>>, r: Row<K>, k: K)
    ensures Matching(rows + [r], k) == Matching(rows, k) + (if r.key == k then [r.id] else [])
  {
    if rows != [] {
      assert (rows + [r])[1..] == rows[1..] + [r];
      MatchingAppend(rows[1..], r, k);
    }
  }

  /** Searching a table that grew at the end is searching both parts, in order. */
  lemma {:induction false} MatchingConcat<K>(a: seq<Row<K>>, c: seq<Row<K>>, k: K)
    ensures Matching(a + c, k) == Matching(a, k) + Matching(c, k)
  {
    if a == [] {
      assert a + c == c;
    } else {
      var h := if a[0].key == k then [a[0].id] else [];
      assert (a + c)[0] == a[0];
      assert (a + c)[1..] == a[1..] + c;
      MatchingConcat(a[1..], c, k);
      assert Matching(a + c, k) == h + (Matching(a[1..], k) + Matching(c, k));
      assert Matching(a, k) == h + Matching(a[1..], k);
    }
  }

  /** The search columns a SELECT of the loader filters on. */
  datatype Query =
    | StateById(code: string)
    | ProdByKey(prod: ProdKey)
    | CustByKey(cust: CustKey)
    | InvByKey(inv: InvKey)

  function Ints(ids: seq<int>): (r: seq<Value>)
    ensures |r| == |ids|
  {
    seq(|ids|, j requires 0 <= j < |ids| => Int(ids[j]))
  }

  /** The single column a SELECT returns: the code for tState, the id otherwise. */
  function Select(db: Db, q: Query): (r: seq<Value>)
    ensures q.StateById? ==> (r == [] <==> q.code !in db.states)
    ensures q.ProdByKey? ==> (r == [] <==> forall i :: 0 <= i < |db.prods| ==> db.prods[i].key != q.prod)
    ensures q.CustByKey? ==> (r == [] <==> forall i :: 0 <= i < |db.custs| ==> db.custs[i].key != q.cust)
    ensures q.InvByKey? ==> (r == [] <==> forall i :: 0 <= i < |db.invs| ==> db.invs[i].key != q.inv)
  {
    match q
    case StateById(code) => if code in db.states then [Text(code)] else []
    case ProdByKey(k) => Ints(Matching(db.prods, k))
    case CustByKey(k) => Ints(Matching(db.custs, k))
    case InvByKey(k) => Ints(Matching(db.invs, k))
  }

  /** The INSERT statements the loader issues. */
  datatype Action =
    | InsertProduct(id: int, prod: ProdKey)
    | InsertState(code: string, name: string)
    | InsertZip(zip: string, info: ZipInfo)
    | InsertCustomer(cust: CustKey)
    | InsertInvoice(inv: InvKey)
    | InsertDetail(detail: Detail)

  /** CHECK(day BETWEEN 1 and 31): text compares above every number. */
  predicate DayOk(v: Value) { v.Int? && 1 <= v.i <= 31 }

  /** CHECK(month BETWEEN 1 and 12). */
  predicate MonthOk(v: Value) { v.Int? && 1 <= v.i <= 12 }

  /** CHECK(length(year) = 4): a non-negative integer has four digits exactly
      when it lies in 1000..9999; text is measured in characters. */
  predicate YearOk(v: Value) {
    match v
    case Int(n) => 1000 <= n <= 9999
    case Text(t) => |t| == 4
  }

  /** Whether the schema's constraints admit the row an INSERT adds. */
  predicate Admits(db: Db, a: Action) {
    match a
    case InsertProduct(id, _) => !HasId(db.prods, id)
    case InsertState(code, _) => code !in db.states && |code| == 2
    case InsertZip(zip, info) => zip !in db.zips && |zip| == 5 && info.state in db.states
    case InsertCustomer(k) => k.zip in db.zips
    case InsertInvoice(k) => HasId(db.custs, k.custId) && DayOk(k.day) && MonthOk(k.month) && YearOk(k.year)
    case InsertDetail(d) =>
      HasId(db.invs, d.invoiceId) && HasId(db.prods, d.prodId) && !HasPair(db.details, d.invoiceId, d.prodId)
  }

  /** The database after an INSERT, and the INSERT's lastrowid. */
  datatype Inserted = Inserted(db: Db, rowid: int)

  /** The schema's invariants: key lengths, unique keys and every foreign key
      pointing at an existing row. */
  ghost predicate Valid(db: Db) {
    && StatesOk(db.states)
    && ZipsOk(db.zips, db.states)
    && UniqueIds(db.prods)
    && UniqueIds(db.custs)
    && (forall i :: 0 <= i < |db.custs| ==> db.custs[i].key.zip in db.zips)
    && UniqueIds(db.invs)
    && (forall i :: 0 <= i < |db.invs| ==> InvoiceOk(db, db.invs[i].key))
    && (forall i :: 0 <= i < |db.details| ==> DetailOk(db, db.details[i]))
    && UniquePairs(db.details)
  }

  ghost predicate StatesOk(states: map<string, string>) {
    forall code :: code in states ==> |code| == 2
  }

  ghost predicate ZipsOk(zips: map<string, ZipInfo>, states: map<string, string>) {
    forall zip :: zip in zips ==> |zip| == 5 && zips[zip].state in states
  }

  ghost predicate UniqueIds<K>(rows: seq<Row<K>>) {
    forall i, j :: 0 <= i < j < |rows| ==> rows[i].id != rows[j].id
  }

  ghost predicate UniquePairs(details: seq<Detail>) {
    forall i, j :: 0 <= i < j < |details| ==>
      (details[i].invoiceId, details[i].prodId) != (details[j].invoiceId, details[j].prodId)
  }

  ghost predicate InvoiceOk(db: Db, k: InvKey) {
    HasId(db.custs, k.custId) && DayOk(k.day) && MonthOk(k.month) && YearOk(k.year)
  }

  ghost predicate DetailOk(db: Db, d: Detail) {
    HasId(db.invs, d.invoiceId) && HasId(db.prods, d.prodId)
  }

  lemma HasIdAppend<K>(rows: seq<Row<K>>, r: Row<K>, id: int)
    requires HasId(rows, id)
    ensures HasId(rows + [r], id)
  {
    var i :| 0 <= i < |rows| && rows[i].id == id;
    assert (rows + [r])[i] == rows[i];
  }

  /**
   * Executes one INSERT: None when a constraint rejects the row, otherwise
   * the table grows by exactly that row, and a customer or an invoice gets a
   * fresh AUTOINCREMENT id above every id handed out before.
   */
  function Execute(db: Db, a: Action): (r: Option<Inserted>)
    ensures r.Some? <==> Admits(db, a)
    ensures r.Some? && a.InsertCustomer? ==>
              && r.value.rowid > db.custSeq && !HasId(db.custs, r.value.rowid)
              && r.value.db == db.(custs := db.custs + [Row(r.value.rowid, a.cust)], custSeq := r.value.rowid)
    ensures r.Some? && a.InsertInvoice? ==>
              && r.value.rowid > db.invSeq && !HasId(db.invs, r.value.rowid)
              && r.value.db == db.(invs := db.invs + [Row(r.value.rowid, a.inv)], invSeq := r.value.rowid)
    ensures r.Some? && a.InsertDetail? ==> r.value.db == db.(details := db.details + [a.detail])
    ensures r.Some? && a.InsertProduct? ==> r.value.db == db.(prods := db.prods + [Row(a.id, a.prod)])
    ensures r.Some? && a.InsertState? ==> r.value.db == db.(states := db.states[a.code := a.name])
    ensures r.Some? && a.InsertZip? ==> r.value.db == db.(zips := db.zips[a.zip := a.info])
  {
    if !Admits(db, a) then None
    else
      match a
      case InsertProduct(id, k) => Some(Inserted(db.(prods := db.prods + [Row(id, k)]), id))
      case InsertState(code, name) => Some(Inserted(db.(states := db.states[code := name]), 0))
      case InsertZip(zip, info) => Some(Inserted(db.(zips := db.zips[zip := info]), 0))
      case InsertCustomer(k) =>
        var id := NextId(db.custs, db.custSeq);
        Some(Inserted(db.(custs := db.custs + [Row(id, k)], custSeq := id), id))
      case InsertInvoice(k) =>
        var id := NextId(db.invs, db.invSeq);
        Some(Inserted(db.(invs := db.invs + [Row(id, k)], invSeq := id), id))
      case InsertDetail(d) => Some(Inserted(db.(details := db.details + [d]), 0))
  }

  /** The constraints checked by Execute keep the schema's invariants. */
  lemma ExecuteKeepsValid(db: Db, a: Action)
    requires Valid(db) && Execute(db, a).Some?
    ensures Valid(Execute(db, a).value.db)
  {
    var r := Execute(db, a).value;
    match a {
      case InsertProduct(id, k) => ProductAppendValid(db, id, k);
      case InsertState(code, name) => StateAddValid(db, code, name);
      case InsertZip(zip, info) => ZipAddValid(db, zip, info);
      case InsertCustomer(k) => CustomerAppendValid(db, r.rowid, k);
      case InsertInvoice(k) => InvoiceAppendValid(db, r.rowid, k);
      case InsertDetail(d) => DetailAppendValid(db, d);
    }
  }

  lemma StateAddValid(db: Db, code: string, name: string)
    requires Valid(db) && |code| == 2
    ensures Valid(db.(states := db.states[code := name]))
  {
  }

  lemma ZipAddValid(db: Db, zip: string, info: ZipInfo)
    requires Valid(db) && |zip| == 5 && info.state in db.states
    ensures Valid(db.(zips := db.zips[zip := info]))
  {
  }

  lemma ProductAppendValid(db: Db, id: int, k: ProdKey)
    requires Valid(db) && !HasId(db.prods, id)
    ensures Valid(db.(prods := db.prods + [Row(id, k)]))
  {
    var db' := db.(prods := db.prods + [Row(id, k)]);
    forall i | 0 <= i < |db.details| ensures DetailOk(db', db.details[i]) {
      HasIdAppend(db.prods, Row(id, k), db.details[i].prodId);
    }
  }

  lemma CustomerAppendValid(db: Db, id: nat, k: CustKey)
    requires Valid(db) && !HasId(db.custs, id) && k.zip in db.zips
    ensures Valid(db.(custs := db.custs + [Row(id, k)], custSeq := id))
  {
    var db' := db.(custs := db.custs + [Row(id, k)], custSeq := id);
    forall i | 0 <= i < |db.invs| ensures InvoiceOk(db', db.invs[i].key) {
      HasIdAppend(db.custs, Row(id, k), db.invs[i].key.custId);
    }
  }

  lemma InvoiceAppendValid(db: Db, id: nat, k: InvKey)
    requires Valid(db) && !HasId(db.invs, id) && InvoiceOk(db, k)
    ensures Valid(db.(invs := db.invs + [Row(id, k)], invSeq := id))
  {
    var db' := db.(invs := db.invs + [Row(id, k)], invSeq := id);
    forall i | 0 <= i < |db.details| ensures DetailOk(db', db.details[i]) {
      HasIdAppend(db.invs, Row(id, k), db.details[i].invoiceId);
    }
  }

  lemma DetailAppendValid(db: Db, d: Detail)
    requires Valid(db) && DetailOk(db, d) && !HasPair(db.details, d.invoiceId, d.prodId)
    ensures Valid(db.(details := db.details + [d]))
  {
  }
}
