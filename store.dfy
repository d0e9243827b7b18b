/**
 * The store loader. The reference data (products, states, zips) is loaded in
 * three all-or-nothing batches; sales files are ingested row by row, each
 * row validated against the reference data, its customer and invoice looked
 * up or created, and one line item added, every write committed as it is
 * made. A file moves from data/to_load to data/loaded once all its rows
 * went in. The functions below give the effect of each step on the gateway
 * Session; the class StoreDB runs the same steps against a BaseDB.
 */
module Store {
  import opened Wrappers
  import opened Tables
  import opened Files
  import opened BaseDb
  import opened Dates

  /** One record of a sales file (zip kept as text). */
  datatype SalesRow = SalesRow(
    date: string, st: string, prodId: int, prodDesc: string, unitPrice: int,
    first: string, last: string, addr: string, zip: string, qty: int)

  datatype SalesFile = SalesFile(name: string, rows: seq<SalesRow>)

  datatype ProductRecord = ProductRecord(prodId: int, prodDesc: string, unitPrice: int)
  datatype StateRecord = StateRecord(stateId: string, state: string)
  datatype ZipRecord = ZipRecord(zip: string, city: string, stateId: string)

  datatype ErrorKind =
    | Gateway(error: DbError)  // raised by the gateway, kind preserved
    | IndexError          // the date column lacks one of its pieces
    | InvalidState        // ValueError: unknown state code
    | InvalidProduct      // ValueError: no product with that description and price
    | FileNotFoundError   // archiving the file failed: something is missing
    | NotADirectoryError  // archiving the file failed: data/loaded is a regular file

  /** An error and, where the loader adds it, the index of the row at fault. */
  datatype Failure = Failure(kind: ErrorKind, row: Option<nat>)

  /** The gateway state after a step and the error that stopped it, if any. */
  datatype Run = Run(s: Session, err: Option<Failure>)

  /** The first n passes of a loader loop over xs that stops at the first
      pass returning an error; pass i runs step on the i-th element. */
  function Steps<T>(s: Session, xs: seq<T>, n: nat, step: (Session, T, nat) -> Run): Run
    requires n <= |xs|
  {
    if n == 0 then Run(s, None)
    else
      var r := Steps(s, xs, n - 1, step);
      if r.err.Some? then r else step(r.s, xs[n - 1], n - 1)
  }

  /** Once a pass fails, later elements are never looked at. */
  lemma {:induction false} StepsStop<T>(s: Session, xs: seq<T>, k: nat, n: nat, step: (Session, T, nat) -> Run)
    requires k <= n <= |xs| && Steps(s, xs, k, step).err.Some?
    ensures Steps(s, xs, n, step) == Steps(s, xs, k, step)
    decreases n
  {
    if n > k {
      StepsStop(s, xs, k, n - 1, step);
    }
  }

  /** After k clean passes, pass k + 1 is one more step. */
  lemma StepsNext<T>(s: Session, xs: seq<T>, k: nat, step: (Session, T, nat) -> Run)
    requires k < |xs| && Steps(s, xs, k, step).err.None?
    ensures Steps(s, xs, k + 1, step) == step(Steps(s, xs, k, step).s, xs[k], k)
  {
  }

  /** The exception os.rename raises for an errno. */
  function OsFailure(e: OsError): ErrorKind {
    match e
    case NoEntry => FileNotFoundError
    case NotADirectory => NotADirectoryError
  }

  function IntakePath(name: string): Path { ["data", "to_load", name] }
  function ArchivePath(name: string): Path { ["data", "loaded", name] }

  /** How an INTEGER column stores a parsed date piece: digits become a number. */
  function Affinity(s: string): (v: Value)
    ensures v.Int? <==> s != [] && Digits(s)
    ensures v.Int? ==> v.i == Decimal(s)
    ensures v.Text? ==> v.t == s
  {
    if s != [] && Digits(s) then Int(Decimal(s)) else Text(s)
  }

  // ---------------------------------------------------------------- static data

  function ProductInserts(ps: seq<ProductRecord>): (r: seq<Action>)
    ensures |r| == |ps|
    ensures forall i :: 0 <= i < |ps| ==> r[i] == InsertProduct(ps[i].prodId, ProdKey(ps[i].prodDesc, ps[i].unitPrice))
  {
    seq(|ps|, i requires 0 <= i < |ps| => InsertProduct(ps[i].prodId, ProdKey(ps[i].prodDesc, ps[i].unitPrice)))
  }

  function StateInserts(ss: seq<StateRecord>): (r: seq<Action>)
    ensures |r| == |ss|
    ensures forall i :: 0 <= i < |ss| ==> r[i] == InsertState(ss[i].stateId, ss[i].state)
  {
    seq(|ss|, i requires 0 <= i < |ss| => InsertState(ss[i].stateId, ss[i].state))
  }

  function ZipInserts(zs: seq<ZipRecord>): (r: seq<Action>)
    ensures |r| == |zs|
    ensures forall i :: 0 <= i < |zs| ==> r[i] == InsertZip(zs[i].zip, ZipInfo(zs[i].city, zs[i].stateId))
  {
    seq(|zs|, i requires 0 <= i < |zs| => InsertZip(zs[i].zip, ZipInfo(zs[i].city, zs[i].stateId)))
  }

  /** One row of a static batch: inserted without a commit on a connection
      kept open; a rejected row i stops the batch with an error naming i. */
  function InsertRow(s: Session, a: Action, i: nat): Run {
    var x := ActionStep(s, a, false, true);
    Run(x.s, if x.err.Some? then Some(Failure(Gateway(x.err.value), Some(i))) else None)
  }

  function InsertRows(s: Session, batch: seq<Action>, n: nat): Run
    requires n <= |batch|
  {
    Steps(s, batch, n, InsertRow)
  }

  /** One more insert after i clean ones: a failure ends the batch with
      it, a success leaves the loop at i + 1. */
  lemma InsertRowsNext(s0: Session, batch: seq<Action>, i: nat, s: Session, x: Acted)
    requires i < |batch| && InsertRows(s0, batch, i) == Run(s, None)
    requires x == ActionStep(s, batch[i], false, true)
    ensures x.err.Some? ==>
              InsertRows(s0, batch, |batch|) == Run(x.s, Some(Failure(Gateway(x.err.value), Some(i))))
    ensures x.err.None? ==> InsertRows(s0, batch, i + 1) == Run(x.s, None)
  {
    StepsNext(s0, batch, i, InsertRow);
    if x.err.Some? {
      StepsStop(s0, batch, i + 1, |batch|, InsertRow);
    }
  }

  /** One batch of the static load: every row, then one commit and a close. */
  function LoadBatch(s: Session, batch: seq<Action>): Run {
    var r := InsertRows(s, batch, |batch|);
    if r.err.Some? then r
    else
      var c := CommitStep(r.s);
      if c.err.Some? then Run(c.s, Some(Failure(Gateway(c.err.value), None)))
      else Run(CloseStep(c.s).s, None)
  }

  /** _load_static_data: products, then states, then zips. */
  function LoadStatic(s: Session, ps: seq<ProductRecord>, ss: seq<StateRecord>, zs: seq<ZipRecord>): Run {
    var p := LoadBatch(s, ProductInserts(ps));
    if p.err.Some? then p
    else
      var st := LoadBatch(p.s, StateInserts(ss));
      if st.err.Some? then st else LoadBatch(st.s, ZipInserts(zs))
  }

  // ----------------------------------------------------------- continuous data

  /** A customer or an invoice, identified by its natural key. */
  datatype Entity = Customer(cust: CustKey) | Invoice(inv: InvKey)

  function Lookup(e: Entity): Query {
    match e
    case Customer(k) => CustByKey(k)
    case Invoice(k) => InvByKey(k)
  }

  function Create(e: Entity): Action {
    match e
    case Customer(k) => InsertCustomer(k)
    case Invoice(k) => InsertInvoice(k)
  }

  /** The ids of the stored rows with e's natural key, in storage order. */
  function Matches(db: Db, e: Entity): seq<int> {
    match e
    case Customer(k) => Matching(db.custs, k)
    case Invoice(k) => Matching(db.invs, k)
  }

  datatype Reconciled = Reconciled(s: Session, id: int, err: Option<DbError>)

  /** get_or_create for a customer or an invoice: the SELECT, then the INSERT if nothing matched. */
  function Reconcile(s: Session, e: Entity): Reconciled
  {
    var found := QueryStep(s, Lookup(e));
    if found.rows != [] then Reconciled(found.s, found.rows[0].i, None)
    else
      var made := ActionStep(found.s, Create(e), true, true);
      Reconciled(made.s, made.rowid, made.err)
  }

  /**
   * Lookup-or-create on a natural key: when some row has the key, the first
   * such row's id is used and nothing is written; otherwise exactly one row
   * is inserted, committed at once, and its new id used, unless the schema
   * rejects it.
   */
  lemma ReconcileSpec(s: Session, e: Entity)
    ensures var r := Reconcile(s, e);
      Matches(s.committed, e) != [] ==>
        && r.err.None? && r.id == Matches(s.committed, e)[0]
        && r.s == Session(false, Closed, s.committed, s.committed)
    ensures var r := Reconcile(s, e);
      Matches(s.committed, e) == [] ==> (r.err.None? <==> Admits(s.committed, Create(e)))
    ensures var r := Reconcile(s, e);
      Matches(s.committed, e) == [] && r.err.None? ==>
        && r.s.committed == Execute(s.committed, Create(e)).value.db
        && r.id == Execute(s.committed, Create(e)).value.rowid
        && r.s.connected && r.s.conn == Open && r.s.view == r.s.committed
    ensures var r := Reconcile(s, e);
      Matches(s.committed, e) == [] && r.err.Some? ==>
        r.err == Some(IntegrityError) && r.s == Session(true, Closed, s.committed, s.committed)
  {
  }

  function RowFailure(e: DbError, index: nat): Option<Failure> {
    Some(Failure(Gateway(e), Some(index)))
  }

  function CustomerKey(row: SalesRow): CustKey {
    CustKey(row.first, row.last, row.addr, row.zip)
  }

  /** The invoice's natural key: its customer and the parsed date pieces. */
  function InvoiceKey(custId: int, d: DateParts): InvKey {
    InvKey(custId, Affinity(d.day), Affinity(d.month), Affinity(d.year), d.time)
  }

  /** The steps taken for one row once its date has been split, in order. */
  datatype Stage =
    | CheckState
    | CheckProduct
    | FindCustomer
    | FindInvoice(key: InvKey)
    | AddLine(invoiceId: int)

  function Remaining(t: Stage): nat {
    match t
    case CheckState => 4
    case CheckProduct => 3
    case FindCustomer => 2
    case FindInvoice(_) => 1
    case AddLine(_) => 0
  }

  /** Stage t of row `index` and every later stage, up to the first failure. */
  function Advance(s: Session, row: SalesRow, d: DateParts, index: nat, t: Stage): Run
    decreases Remaining(t)
  {
    match t
    case CheckState =>
      var q := QueryStep(s, StateById(row.st));
      if q.rows == [] then Run(q.s, Some(Failure(InvalidState, Some(index))))
      else Advance(q.s, row, d, index, CheckProduct)
    case CheckProduct =>
      var q := QueryStep(s, ProdByKey(ProdKey(row.prodDesc, row.unitPrice)));
      if q.rows == [] then Run(q.s, Some(Failure(InvalidProduct, Some(index))))
      else Advance(q.s, row, d, index, FindCustomer)
    case FindCustomer =>
      var c := Reconcile(s, Customer(CustomerKey(row)));
      if c.err.Some? then Run(c.s, RowFailure(c.err.value, index))
      else Advance(c.s, row, d, index, FindInvoice(InvoiceKey(c.id, d)))
    case FindInvoice(key) =>
      var v := Reconcile(s, Invoice(key));
      if v.err.Some? then Run(v.s, RowFailure(v.err.value, index))
      else Advance(v.s, row, d, index, AddLine(v.id))
    case AddLine(invoiceId) =>
      var x := ActionStep(s, InsertDetail(Detail(invoiceId, row.prodId, row.qty)), true, false);
      Run(x.s, if x.err.Some? then RowFailure(x.err.value, index) else None)
  }

  /** The effect of the loop body of _load_continuous_data on one row. */
  function IngestRow(s: Session, row: SalesRow, index: nat): Run {
    match SplitDate(row.date)
    case None => Run(s, Some(Failure(IndexError, None)))
    case Some(d) => Advance(s, row, d, index, CheckState)
  }

  /** The first n rows of a file, stopping at the first row that fails. */
  function IngestRows(s: Session, rows: seq<SalesRow>, n: nat): Run
    requires n <= |rows|
  {
    Steps(s, rows, n, IngestRow)
  }

  datatype FilesRun = FilesRun(s: Session, fs: FileSystem, err: Option<Failure>)

  /** One sales file: its rows and then, if all went in, its move to the archive. */
  function IngestFile(s: Session, fs: FileSystem, f: SalesFile): FilesRun {
    var rows := IngestRows(s, f.rows, |f.rows|);
    if rows.err.Some? then FilesRun(rows.s, fs, rows.err)
    else
      match Moved(fs, IntakePath(f.name), ArchivePath(f.name))
      case None => FilesRun(rows.s, fs, Some(Failure(OsFailure(RenameFault(fs, IntakePath(f.name), ArchivePath(f.name))), None)))
      case Some(fs') => FilesRun(rows.s, fs', None)
  }

  /** A file is moved to the archive exactly when all its rows succeeded and
      the move is possible; on any error the filesystem is left as it was. A
      failed move reports os.rename's error, NotADirectoryError when
      data/loaded is a regular file. */
  lemma IngestFileSpec(s: Session, fs: FileSystem, f: SalesFile)
    ensures var r := IngestFile(s, fs, f);
      && r.s == IngestRows(s, f.rows, |f.rows|).s
      && (r.err.None? <==>
            IngestRows(s, f.rows, |f.rows|).err.None? && Moved(fs, IntakePath(f.name), ArchivePath(f.name)).Some?)
      && (r.err.None? ==> r.fs == Moved(fs, IntakePath(f.name), ArchivePath(f.name)).value)
      && (r.err.Some? ==> r.fs == fs)
      && (IngestRows(s, f.rows, |f.rows|).err.None? && r.err.Some? ==>
            r.err == Some(Failure(OsFailure(RenameFault(fs, IntakePath(f.name), ArchivePath(f.name))), None)))
      && (IngestRows(s, f.rows, |f.rows|).err.None? && ["data", "loaded"] in fs && fs[["data", "loaded"]] == File ==>
            r.err == Some(Failure(NotADirectoryError, None)))
  {
    assert Parent(ArchivePath(f.name)) == ["data", "loaded"];
  }

  /** The first n passes of the file loop from r0, stopping at the first
      pass that fails; pass i runs step on the i-th file. */
  function FileSteps(r0: FilesRun, files: seq<SalesFile>, n: nat, step: (FilesRun, SalesFile) -> FilesRun): FilesRun
    requires n <= |files|
  {
    if n == 0 then r0
    else
      var r := FileSteps(r0, files, n - 1, step);
      if r.err.Some? then r else step(r, files[n - 1])
  }

  lemma {:induction false} FileStepsStop(r0: FilesRun, files: seq<SalesFile>, k: nat, n: nat,
                                         step: (FilesRun, SalesFile) -> FilesRun)
    requires k <= n <= |files| && FileSteps(r0, files, k, step).err.Some?
    ensures FileSteps(r0, files, n, step) == FileSteps(r0, files, k, step)
    decreases n
  {
    if n > k {
      FileStepsStop(r0, files, k, n - 1, step);
    }
  }

  function FileStep(r: FilesRun, f: SalesFile): FilesRun {
    IngestFile(r.s, r.fs, f)
  }

  /** The first n files, stopping at the first file that fails. */
  function IngestFiles(s: Session, fs: FileSystem, files: seq<SalesFile>, n: nat): FilesRun
    requires n <= |files|
  {
    FileSteps(FilesRun(s, fs, None), files, n, FileStep)
  }

  /** _load_continuous_data: every file, then the connection is closed. */
  function LoadContinuous(s: Session, fs: FileSystem, files: seq<SalesFile>): FilesRun {
    var r := IngestFiles(s, fs, files, |files|);
    if r.err.Some? then r
    else
      var c := CloseStep(r.s);
      FilesRun(c.s, r.fs, if c.err.Some? then Some(Failure(Gateway(c.err.value), None)) else None)
  }



  /** Once a file fails, later files are never looked at. */
  lemma IngestFilesStop(s: Session, fs: FileSystem, files: seq<SalesFile>, k: nat, n: nat)
    requires k <= n <= |files| && IngestFiles(s, fs, files, k).err.Some?
    ensures IngestFiles(s, fs, files, n) == IngestFiles(s, fs, files, k)
  {
    FileStepsStop(FilesRun(s, fs, None), files, k, n, FileStep);
  }

  /** One more file after k clean ones is one more IngestFile. */
  lemma IngestFilesNext(s: Session, fs: FileSystem, files: seq<SalesFile>, k: nat)
    requires k < |files| && IngestFiles(s, fs, files, k).err.None?
    ensures var r := IngestFiles(s, fs, files, k);
            IngestFiles(s, fs, files, k + 1) == IngestFile(r.s, r.fs, files[k])
  {
  }

  /** StoreDB: the loader, working through a BaseDB. */
  class StoreDB {
    const db: BaseDB

    constructor (db: BaseDB)
      ensures this.db == db
    {
      this.db := db;
    }

    /** _load_static_data */
    method LoadStaticData(ps: seq<ProductRecord>, ss: seq<StateRecord>, zs: seq<ZipRecord>)
      returns (err: Option<Failure>)
      modifies db
      ensures Run(db.State(), err) == LoadStatic(old(db.State()), ps, ss, zs)
      ensures db.existed == old(db.existed)
    {
      err := InsertBatch(ProductInserts(ps));
      if err.Some? {
        return;
      }
      err := InsertBatch(StateInserts(ss));
      if err.Some? {
        return;
      }
      err := InsertBatch(ZipInserts(zs));
    }

    /** One of the three batches of _load_static_data: its insert loop,
        then one commit and a close. */
    method InsertBatch(batch: seq<Action>) returns (err: Option<Failure>)
      modifies db
      ensures Run(db.State(), err) == LoadBatch(old(db.State()), batch)
      ensures db.existed == old(db.existed)
    {
      err := InsertAll(batch);
      if err.Some? {
        return;
      }
      var c := db.Commit();
      if c.Some? {
        return Some(Failure(Gateway(c.value), None));
      }
      var _ := db.Close();
    }

    /** The insert loop of a static batch, without a commit. */
    method InsertAll(batch: seq<Action>) returns (err: Option<Failure>)
      modifies db
      ensures Run(db.State(), err) == InsertRows(old(db.State()), batch, |batch|)
      ensures db.existed == old(db.existed)
    {
      ghost var s0 := db.State();
      var i := 0;
      while i < |batch|
        invariant 0 <= i <= |batch|
        invariant InsertRows(s0, batch, i) == Run(db.State(), None)
        invariant db.existed == old(db.existed)
      {
        ghost var s1 := db.State();
        var rowid, e := db.RunAction(batch[i], false, true);
        InsertRowsNext(s0, batch, i, s1, Acted(db.State(), rowid, e));
        if e.Some? {
          return Some(Failure(Gateway(e.value), Some(i)));
        }
        i := i + 1;
      }
      err := None;
    }

    /** A customer or invoice lookup-or-create of _load_continuous_data. */
    method LookupOrCreate(e: Entity) returns (id: int, err: Option<DbError>)
      modifies db
      ensures Reconciled(db.State(), id, err) == Reconcile(old(db.State()), e)
      ensures db.existed == old(db.existed)
    {
      var found := db.RunQuery(Lookup(e));
      if found != [] {
        return found[0].i, None;
      }
      id, err := db.RunAction(Create(e), true, true);
    }

    /** The loop body of _load_continuous_data for row `index`. */
    method ProcessRow(row: SalesRow, index: nat) returns (err: Option<Failure>)
      modifies db
      ensures Run(db.State(), err) == IngestRow(old(db.State()), row, index)
      ensures db.existed == old(db.existed)
    {
      var date := SplitDate(row.date);
      if date.None? {
        return Some(Failure(IndexError, None));
      }
      err := ValidateRow(row, date.value, index);
    }

    /** The state and product checks of a row whose date was split. */
    method ValidateRow(row: SalesRow, d: DateParts, index: nat) returns (err: Option<Failure>)
      modifies db
      ensures Run(db.State(), err) == Advance(old(db.State()), row, d, index, CheckState)
      ensures db.existed == old(db.existed)
    {
      var states := db.RunQuery(StateById(row.st));
      if states == [] {
        return Some(Failure(InvalidState, Some(index)));
      }
      var prods := db.RunQuery(ProdByKey(ProdKey(row.prodDesc, row.unitPrice)));
      if prods == [] {
        return Some(Failure(InvalidProduct, Some(index)));
      }
      err := RecordSale(row, d, index);
    }

    /** The customer, invoice and line item of a validated row. */
    method RecordSale(row: SalesRow, d: DateParts, index: nat) returns (err: Option<Failure>)
      modifies db
      ensures Run(db.State(), err) == Advance(old(db.State()), row, d, index, FindCustomer)
      ensures db.existed == old(db.existed)
    {
      var custId, e1 := LookupOrCreate(Customer(CustomerKey(row)));
      if e1.Some? {
        return RowFailure(e1.value, index);
      }
      err := RecordInvoice(row, d, InvoiceKey(custId, d), index);
    }

    /** The invoice and line item of a row whose customer is known. */
    method RecordInvoice(row: SalesRow, d: DateParts, key: InvKey, index: nat) returns (err: Option<Failure>)
      modifies db
      ensures Run(db.State(), err) == Advance(old(db.State()), row, d, index, FindInvoice(key))
      ensures db.existed == old(db.existed)
    {
      var invoiceId, e2 := LookupOrCreate(Invoice(key));
      if e2.Some? {
        return RowFailure(e2.value, index);
      }
      var _, e3 := db.RunAction(InsertDetail(Detail(invoiceId, row.prodId, row.qty)), true, false);
      err := if e3.Some? then RowFailure(e3.value, index) else None;
    }

    /** One sales file: its rows in order, then its move to data/loaded. */
    method IngestFileData(f: SalesFile) returns (err: Option<Failure>)
      modifies db, db.disk
      ensures FilesRun(db.State(), db.disk.entries, err) == IngestFile(old(db.State()), old(db.disk.entries), f)
      ensures db.existed == old(db.existed)
    {
      err := IngestAll(f.rows);
      if err.Some? {
        return;
      }
      var e := db.disk.Rename(IntakePath(f.name), ArchivePath(f.name));
      err := if e.None? then None else Some(Failure(OsFailure(e.value), None));
    }

    /** The row loop of one sales file. */
    method IngestAll(rows: seq<SalesRow>) returns (err: Option<Failure>)
      modifies db
      ensures Run(db.State(), err) == IngestRows(old(db.State()), rows, |rows|)
      ensures db.existed == old(db.existed)
    {
      ghost var s0 := db.State();
      var i := 0;
      while i < |rows|
        invariant 0 <= i <= |rows|
        invariant IngestRows(s0, rows, i) == Run(db.State(), None)
        invariant db.existed == old(db.existed)
      {
        StepsNext(s0, rows, i, IngestRow);
        var e := ProcessRow(rows[i], i);
        if e.Some? {
          StepsStop(s0, rows, i + 1, |rows|, IngestRow);
          return e;
        }
        i := i + 1;
      }
      err := None;
    }

    /** _load_continuous_data over the intake files, in the order given. */
    method LoadContinuousData(files: seq<SalesFile>) returns (err: Option<Failure>)
      modifies db, db.disk
      ensures FilesRun(db.State(), db.disk.entries, err) == LoadContinuous(old(db.State()), old(db.disk.entries), files)
      ensures db.existed == old(db.existed)
    {
      ghost var s0 := db.State();
      ghost var fs0 := db.disk.entries;
      var k := 0;
      while k < |files|
        invariant 0 <= k <= |files|
        invariant IngestFiles(s0, fs0, files, k) == FilesRun(db.State(), db.disk.entries, None)
        invariant db.existed == old(db.existed)
      {
        IngestFilesNext(s0, fs0, files, k);
        var e := IngestFileData(files[k]);
        if e.Some? {
          IngestFilesStop(s0, fs0, files, k + 1, |files|);
          return e;
        }
        k := k + 1;
      }
      var c := db.Close();
      err := if c.Some? then Some(Failure(Gateway(c.value), None)) else None;
    }
  }
}
