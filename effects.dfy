/**
 * What the loader does to the committed database, stated on the database
 * alone, with no connection in sight, and the lemmas that connect it to the
 * session-level functions of module Store: opening, closing and reusing
 * connections never changes which rows end up stored.
 */
module Effects {
  import opened Wrappers
  import opened Tables
  import opened Files
  import opened BaseDb
  import opened Dates
  import opened Store

  /** A session whose next action runs on the committed data: no
      uncommitted writes, and no flag left set on a closed handle. */
  predicate Ready(s: Session) {
    s.view == s.committed && !(s.connected && s.conn != Open)
  }

  // ------------------------------------------------------------ one sales row

  /** get_or_create on the committed data: the first match, else a new row. */
  function GetOrCreate(db: Db, e: Entity): Option<Inserted> {
    var m := Matches(db, e);
    if m != [] then Some(Inserted(db, m[0])) else Execute(db, Create(e))
  }

  datatype Recorded = Recorded(db: Db, err: Option<ErrorKind>)

  /** Stage t of a row and the stages after it, on the committed data. */
  function Record(db: Db, row: SalesRow, d: DateParts, t: Stage): Recorded
    decreases Remaining(t)
  {
    match t
    case CheckState =>
      if row.st in db.states then Record(db, row, d, CheckProduct) else Recorded(db, Some(InvalidState))
    case CheckProduct =>
      if Matching(db.prods, ProdKey(row.prodDesc, row.unitPrice)) != [] then Record(db, row, d, FindCustomer)
      else Recorded(db, Some(InvalidProduct))
    case FindCustomer =>
      (match GetOrCreate(db, Customer(CustomerKey(row)))
       case None => Recorded(db, Some(Gateway(IntegrityError)))
       case Some(c) => Record(c.db, row, d, FindInvoice(InvoiceKey(c.rowid, d))))
    case FindInvoice(key) =>
      (match GetOrCreate(db, Invoice(key))
       case None => Recorded(db, Some(Gateway(IntegrityError)))
       case Some(v) => Record(v.db, row, d, AddLine(v.rowid)))
    case AddLine(invoiceId) =>
      match Execute(db, InsertDetail(Detail(invoiceId, row.prodId, row.qty)))
      case None => Recorded(db, Some(Gateway(IntegrityError)))
      case Some(x) => Recorded(x.db, None)
  }

  /** The error a row reports for the outcome x of its stages. */
  function Reported(x: Recorded, index: nat): Option<Failure> {
    if x.err.Some? then Some(Failure(x.err.value, Some(index))) else None
  }

  /** get_or_create, run through the gateway, is GetOrCreate on the committed data. */
  lemma ReconcileCommits(s: Session, e: Entity)
    ensures var r := Reconcile(s, e);
      match GetOrCreate(s.committed, e)
      case None => r.err == Some(IntegrityError) && r.s.committed == s.committed
      case Some(g) => r.err.None? && r.id == g.rowid && r.s.committed == g.db && Ready(r.s)
  {
    ReconcileSpec(s, e);
  }

  lemma AddLineCommits(s: Session, row: SalesRow, d: DateParts, index: nat, invoiceId: int)
    requires Ready(s)
    ensures var r := Advance(s, row, d, index, AddLine(invoiceId));
      var x := Record(s.committed, row, d, AddLine(invoiceId));
      r.s.committed == x.db && r.err == Reported(x, index)
      && (x.err.None? ==> r.s == Session(false, Closed, x.db, x.db))
  {
  }

  lemma FindInvoiceCommits(s: Session, row: SalesRow, d: DateParts, index: nat, key: InvKey)
    ensures var r := Advance(s, row, d, index, FindInvoice(key));
      var x := Record(s.committed, row, d, FindInvoice(key));
      r.s.committed == x.db && r.err == Reported(x, index)
      && (x.err.None? ==> r.s == Session(false, Closed, x.db, x.db))
  {
    ReconcileCommits(s, Invoice(key));
    var v := Reconcile(s, Invoice(key));
    if v.err.None? {
      AddLineCommits(v.s, row, d, index, v.id);
    }
  }

  lemma FindCustomerCommits(s: Session, row: SalesRow, d: DateParts, index: nat)
    ensures var r := Advance(s, row, d, index, FindCustomer);
      var x := Record(s.committed, row, d, FindCustomer);
      r.s.committed == x.db && r.err == Reported(x, index)
      && (x.err.None? ==> r.s == Session(false, Closed, x.db, x.db))
  {
    ReconcileCommits(s, Customer(CustomerKey(row)));
    var c := Reconcile(s, Customer(CustomerKey(row)));
    if c.err.None? {
      FindInvoiceCommits(c.s, row, d, index, InvoiceKey(c.id, d));
    }
  }

  /** A row's stages, run through the gateway, store exactly what Record
      says, report its error with the row's index, and leave the connection
      closed after a success. */
  lemma AdvanceCommits(s: Session, row: SalesRow, d: DateParts, index: nat)
    ensures var r := Advance(s, row, d, index, CheckState);
      var x := Record(s.committed, row, d, CheckState);
      r.s.committed == x.db && r.err == Reported(x, index)
      && (x.err.None? ==> r.s == Session(false, Closed, x.db, x.db))
  {
    var q := QueryStep(s, StateById(row.st));
    if q.rows != [] {
      var p := QueryStep(q.s, ProdByKey(ProdKey(row.prodDesc, row.unitPrice)));
      if p.rows != [] {
        FindCustomerCommits(p.s, row, d, index);
      }
    }
  }

  /** The loop body of _load_continuous_data on one row: a date without
      its pieces stops the load before anything is read or written;
      otherwise the row stores what Record says. */
  lemma IngestRowCommits(s: Session, row: SalesRow, index: nat)
    ensures SplitDate(row.date).None? ==> IngestRow(s, row, index) == Run(s, Some(Failure(IndexError, None)))
    ensures SplitDate(row.date).Some? ==>
      var r := IngestRow(s, row, index);
      var x := Record(s.committed, row, SplitDate(row.date).value, CheckState);
      r.s.committed == x.db && r.err == Reported(x, index)
      && (x.err.None? ==> r.s == Session(false, Closed, x.db, x.db))
  {
    if SplitDate(row.date).Some? {
      AdvanceCommits(s, row, SplitDate(row.date).value, index);
    }
  }

  // ------------------------------------------------------ reconciliation laws

  /** get_or_create reuses the first row with the key and writes nothing;
      otherwise it appends exactly one row under a fresh id, unless the
      schema rejects it. Either way the id it returns is then the first
      match for the key. */
  lemma GetOrCreateSpec(db: Db, e: Entity)
    ensures var g := GetOrCreate(db, e);
      && (Matches(db, e) != [] ==> g == Some(Inserted(db, Matches(db, e)[0])))
      && (Matches(db, e) == [] ==> (g.Some? <==> Admits(db, Create(e))))
      && (Matches(db, e) == [] && g.Some? && e.Customer? ==>
            g.value.rowid > db.custSeq
            && g.value.db == db.(custs := db.custs + [Row(g.value.rowid, e.cust)], custSeq := g.value.rowid))
      && (Matches(db, e) == [] && g.Some? && e.Invoice? ==>
            g.value.rowid > db.invSeq
            && g.value.db == db.(invs := db.invs + [Row(g.value.rowid, e.inv)], invSeq := g.value.rowid))
      && (g.Some? ==> Matches(g.value.db, e) != [] && Matches(g.value.db, e)[0] == g.value.rowid)
  {
    var g := GetOrCreate(db, e);
    if Matches(db, e) == [] && g.Some? {
      match e
      case Customer(k) => MatchingAppend(db.custs, Row(g.value.rowid, k), k);
      case Invoice(k) => MatchingAppend(db.invs, Row(g.value.rowid, k), k);
    }
  }

  /** Reconciling the same key twice: the second call finds the first call's row. */
  lemma GetOrCreateAgain(db: Db, e: Entity)
    requires GetOrCreate(db, e).Some?
    ensures var g := GetOrCreate(db, e).value;
      GetOrCreate(g.db, e) == Some(Inserted(g.db, g.rowid))
  {
    GetOrCreateSpec(db, e);
  }

  // -------------------------------------------------------------- row laws

  /** Only the three transaction tables change, and only by appending. */
  predicate Extends(db: Db, db': Db) {
    && db'.prods == db.prods && db'.states == db.states && db'.zips == db.zips
    && db.custs <= db'.custs && db.invs <= db'.invs && db.details <= db'.details
  }

  /** Rows only appended keep the first match of every key. */
  lemma MatchesExtends(db: Db, db': Db, e: Entity)
    requires Extends(db, db') && Matches(db, e) != []
    ensures Matches(db', e) != [] && Matches(db', e)[0] == Matches(db, e)[0]
  {
    match e
    case Customer(k) =>
      assert db'.custs == db.custs + db'.custs[|db.custs|..];
      MatchingConcat(db.custs, db'.custs[|db.custs|..], k);
    case Invoice(k) =>
      assert db'.invs == db.invs + db'.invs[|db.invs|..];
      MatchingConcat(db.invs, db'.invs[|db.invs|..], k);
  }

  /** Once a customer or an invoice is stored, every later get_or_create on
      its key, after any rows that only appended, reuses its id and writes
      nothing. */
  lemma GetOrCreateStable(db: Db, db': Db, e: Entity)
    requires Extends(db, db') && Matches(db, e) != []
    ensures GetOrCreate(db', e) == Some(Inserted(db', Matches(db, e)[0]))
  {
    MatchesExtends(db, db', e);
  }

  lemma ExtendsTrans(a: Db, b: Db, c: Db)
    requires Extends(a, b) && Extends(b, c)
    ensures Extends(a, c)
  {
    assert a.custs == b.custs[..|a.custs|] && b.custs == c.custs[..|b.custs|];
    assert a.invs == b.invs[..|a.invs|] && b.invs == c.invs[..|b.invs|];
    assert a.details == b.details[..|a.details|] && b.details == c.details[..|b.details|];
  }

  lemma GetOrCreateExtends(db: Db, e: Entity)
    requires GetOrCreate(db, e).Some?
    ensures Extends(db, GetOrCreate(db, e).value.db)
  {
    GetOrCreateSpec(db, e);
  }

  /** A row, whatever its fate, only appends to customers, invoices and
      line items, and never touches the reference tables. */
  lemma RecordExtends(db: Db, row: SalesRow, d: DateParts, t: Stage)
    ensures Extends(db, Record(db, row, d, t).db)
    decreases Remaining(t)
  {
    match t
    case CheckState =>
      if row.st in db.states {
        RecordExtends(db, row, d, CheckProduct);
      }
    case CheckProduct =>
      if Matching(db.prods, ProdKey(row.prodDesc, row.unitPrice)) != [] {
        RecordExtends(db, row, d, FindCustomer);
      }
    case FindCustomer =>
      var g := GetOrCreate(db, Customer(CustomerKey(row)));
      if g.Some? {
        GetOrCreateExtends(db, Customer(CustomerKey(row)));
        RecordExtends(g.value.db, row, d, FindInvoice(InvoiceKey(g.value.rowid, d)));
        ExtendsTrans(db, g.value.db, Record(db, row, d, t).db);
      }
    case FindInvoice(key) =>
      var g := GetOrCreate(db, Invoice(key));
      if g.Some? {
        GetOrCreateExtends(db, Invoice(key));
        RecordExtends(g.value.db, row, d, AddLine(g.value.rowid));
        ExtendsTrans(db, g.value.db, Record(db, row, d, t).db);
      }
    case AddLine(_) =>
  }

  /** The writes of a row's stages stay committed when a later stage
      fails: once the row is past its checks and its customer was found or
      created, that customer is the first match for the row's customer key
      in what the row leaves behind, and likewise the invoice once it was
      found or created. */
  lemma RecordKeepsEarlierWrites(db: Db, row: SalesRow, d: DateParts)
    requires row.st in db.states && Matching(db.prods, ProdKey(row.prodDesc, row.unitPrice)) != []
    requires GetOrCreate(db, Customer(CustomerKey(row))).Some?
    ensures var c := GetOrCreate(db, Customer(CustomerKey(row))).value;
      var x := Record(db, row, d, CheckState).db;
      && Matches(x, Customer(CustomerKey(row))) != []
      && Matches(x, Customer(CustomerKey(row)))[0] == c.rowid
      && (GetOrCreate(c.db, Invoice(InvoiceKey(c.rowid, d))).Some? ==>
            && Matches(x, Invoice(InvoiceKey(c.rowid, d))) != []
            && Matches(x, Invoice(InvoiceKey(c.rowid, d)))[0] == GetOrCreate(c.db, Invoice(InvoiceKey(c.rowid, d))).value.rowid)
  {
    var cust := Customer(CustomerKey(row));
    var c := GetOrCreate(db, cust).value;
    var key := InvoiceKey(c.rowid, d);
    var x := Record(db, row, d, CheckState).db;
    RecordChecks(db, row, d);
    assert x == Record(c.db, row, d, FindInvoice(key)).db;
    GetOrCreateSpec(db, cust);
    RecordExtends(c.db, row, d, FindInvoice(key));
    MatchesExtends(c.db, x, cust);
    var v := GetOrCreate(c.db, Invoice(key));
    if v.Some? {
      assert x == Record(v.value.db, row, d, AddLine(v.value.rowid)).db;
      GetOrCreateSpec(c.db, Invoice(key));
      RecordExtends(v.value.db, row, d, AddLine(v.value.rowid));
      MatchesExtends(v.value.db, x, Invoice(key));
    }
  }

  /** Rows with an unknown state or product change nothing and report the
      row's index; every other row gets past both checks. */
  lemma RecordChecks(db: Db, row: SalesRow, d: DateParts)
    ensures row.st !in db.states ==>
              Record(db, row, d, CheckState) == Recorded(db, Some(InvalidState))
    ensures row.st in db.states && Matching(db.prods, ProdKey(row.prodDesc, row.unitPrice)) == [] ==>
              Record(db, row, d, CheckState) == Recorded(db, Some(InvalidProduct))
    ensures row.st in db.states && Matching(db.prods, ProdKey(row.prodDesc, row.unitPrice)) != [] ==>
              Record(db, row, d, CheckState) == Record(db, row, d, FindCustomer)
  {
  }

  lemma AddLineSuccess(db: Db, row: SalesRow, d: DateParts, invoiceId: int)
    requires Record(db, row, d, AddLine(invoiceId)).err.None?
    ensures Record(db, row, d, AddLine(invoiceId)).db
            == db.(details := db.details + [Detail(invoiceId, row.prodId, row.qty)])
  {
  }

  lemma FindInvoiceSuccess(db: Db, row: SalesRow, d: DateParts, key: InvKey)
    requires Record(db, row, d, FindInvoice(key)).err.None?
    ensures var x := Record(db, row, d, FindInvoice(key)).db;
      && x.prods == db.prods && x.states == db.states && x.zips == db.zips && x.custs == db.custs
      && Matches(x, Invoice(key)) != []
      && x.details == db.details + [Detail(Matches(x, Invoice(key))[0], row.prodId, row.qty)]
  {
    GetOrCreateSpec(db, Invoice(key));
    var v := GetOrCreate(db, Invoice(key)).value;
    AddLineSuccess(v.db, row, d, v.rowid);
    var x := Record(db, row, d, FindInvoice(key)).db;
    assert Matches(x, Invoice(key)) == Matches(v.db, Invoice(key));
  }

  lemma FindCustomerSuccess(db: Db, row: SalesRow, d: DateParts)
    requires Record(db, row, d, FindCustomer).err.None?
    ensures var x := Record(db, row, d, FindCustomer).db;
      && x.prods == db.prods && x.states == db.states && x.zips == db.zips
      && Matches(x, Customer(CustomerKey(row))) != []
      && var c := Matches(x, Customer(CustomerKey(row)))[0];
         && Matches(x, Invoice(InvoiceKey(c, d))) != []
         && x.details == db.details + [Detail(Matches(x, Invoice(InvoiceKey(c, d)))[0], row.prodId, row.qty)]
  {
    GetOrCreateSpec(db, Customer(CustomerKey(row)));
    var c := GetOrCreate(db, Customer(CustomerKey(row))).value;
    FindInvoiceSuccess(c.db, row, d, InvoiceKey(c.rowid, d));
    var x := Record(db, row, d, FindCustomer).db;
    assert Matches(x, Customer(CustomerKey(row))) == Matches(c.db, Customer(CustomerKey(row)));
  }

  /** A successful row adds exactly one line item: the row's own product id
      and quantity, on the invoice with the row's key, which belongs to the
      customer with the row's key. */
  lemma RecordSuccess(db: Db, row: SalesRow, d: DateParts)
    requires Record(db, row, d, CheckState).err.None?
    ensures var x := Record(db, row, d, CheckState).db;
      && row.st in db.states && Matching(db.prods, ProdKey(row.prodDesc, row.unitPrice)) != []
      && x.prods == db.prods && x.states == db.states && x.zips == db.zips
      && Matches(x, Customer(CustomerKey(row))) != []
      && var c := Matches(x, Customer(CustomerKey(row)))[0];
         && Matches(x, Invoice(InvoiceKey(c, d))) != []
         && x.details == db.details + [Detail(Matches(x, Invoice(InvoiceKey(c, d)))[0], row.prodId, row.qty)]
  {
    RecordChecks(db, row, d);
    FindCustomerSuccess(db, row, d);
  }

  /** Re-running a row that succeeded reuses its customer and invoice and
      stops at the line item: that (invoice, product) pair is taken.
      Nothing is written. */
  lemma RecordRerun(db: Db, row: SalesRow, d: DateParts)
    requires Record(db, row, d, CheckState).err.None?
    ensures var x := Record(db, row, d, CheckState).db;
      Record(x, row, d, CheckState) == Recorded(x, Some(Gateway(IntegrityError)))
  {
    RecordSuccess(db, row, d);
    var x := Record(db, row, d, CheckState).db;
    RecordChecks(x, row, d);
    var c := Matches(x, Customer(CustomerKey(row)))[0];
    var invoiceId := Matches(x, Invoice(InvoiceKey(c, d)))[0];
    RerunStages(x, row, d, c, invoiceId);
  }

  lemma RerunStages(x: Db, row: SalesRow, d: DateParts, c: int, invoiceId: int)
    requires Matches(x, Customer(CustomerKey(row))) != [] && Matches(x, Customer(CustomerKey(row)))[0] == c
    requires Matches(x, Invoice(InvoiceKey(c, d))) != [] && Matches(x, Invoice(InvoiceKey(c, d)))[0] == invoiceId
    requires x.details != [] && x.details[|x.details| - 1] == Detail(invoiceId, row.prodId, row.qty)
    ensures Record(x, row, d, FindCustomer) == Recorded(x, Some(Gateway(IntegrityError)))
  {
    assert HasPair(x.details, invoiceId, row.prodId);
    assert Record(x, row, d, FindInvoice(InvoiceKey(c, d))) == Record(x, row, d, AddLine(invoiceId));
  }

  lemma AddLineKeepsValid(db: Db, row: SalesRow, d: DateParts, invoiceId: int)
    requires Valid(db)
    ensures Valid(Record(db, row, d, AddLine(invoiceId)).db)
  {
    var a := InsertDetail(Detail(invoiceId, row.prodId, row.qty));
    if Execute(db, a).Some? {
      ExecuteKeepsValid(db, a);
    }
  }

  lemma GetOrCreateKeepsValid(db: Db, e: Entity)
    requires Valid(db) && GetOrCreate(db, e).Some?
    ensures Valid(GetOrCreate(db, e).value.db)
  {
    if Matches(db, e) == [] {
      ExecuteKeepsValid(db, Create(e));
    }
  }

  lemma FindInvoiceKeepsValid(db: Db, row: SalesRow, d: DateParts, key: InvKey)
    requires Valid(db)
    ensures Valid(Record(db, row, d, FindInvoice(key)).db)
  {
    var g := GetOrCreate(db, Invoice(key));
    if g.Some? {
      GetOrCreateKeepsValid(db, Invoice(key));
      AddLineKeepsValid(g.value.db, row, d, g.value.rowid);
    }
  }

  lemma FindCustomerKeepsValid(db: Db, row: SalesRow, d: DateParts)
    requires Valid(db)
    ensures Valid(Record(db, row, d, FindCustomer).db)
  {
    var g := GetOrCreate(db, Customer(CustomerKey(row)));
    if g.Some? {
      GetOrCreateKeepsValid(db, Customer(CustomerKey(row)));
      FindInvoiceKeepsValid(g.value.db, row, d, InvoiceKey(g.value.rowid, d));
    }
  }

  /** The schema's invariants hold after every row, whatever its fate. */
  lemma RecordKeepsValid(db: Db, row: SalesRow, d: DateParts)
    requires Valid(db)
    ensures Valid(Record(db, row, d, CheckState).db)
  {
    RecordChecks(db, row, d);
    FindCustomerKeepsValid(db, row, d);
  }

  // ------------------------------------------------------------- one file

  datatype Loaded = Loaded(db: Db, err: Option<Failure>)

  /** One row of a file on the committed data: a date without its pieces
      stops the load with IndexError, any other row is recorded. */
  function RecordRow(db: Db, row: SalesRow, index: nat): Loaded {
    match SplitDate(row.date)
    case None => Loaded(db, Some(Failure(IndexError, None)))
    case Some(d) =>
      var x := Record(db, row, d, CheckState);
      Loaded(x.db, Reported(x, index))
  }

  /** The first n passes of a loop over xs on the committed data alone,
      stopping at the first pass that fails. */
  function Fold<T>(db: Db, xs: seq<T>, n: nat, f: (Db, T, nat) -> Loaded): Loaded
    requires n <= |xs|
  {
    if n == 0 then Loaded(db, None)
    else
      var r := Fold(db, xs, n - 1, f);
      if r.err.Some? then r else f(r.db, xs[n - 1], n - 1)
  }

  /** A loop whose every pass commits what f says of the committed data
      commits, over all its passes, what the fold of f says. */
  lemma {:induction false} StepsFold<T>(s: Session, xs: seq<T>, n: nat, step: (Session, T, nat) -> Run,
                                        f: (Db, T, nat) -> Loaded)
    requires n <= |xs|
    requires forall t: Session, x: T, i: nat ::
               step(t, x, i).s.committed == f(t.committed, x, i).db && step(t, x, i).err == f(t.committed, x, i).err
    ensures Steps(s, xs, n, step).s.committed == Fold(s.committed, xs, n, f).db
    ensures Steps(s, xs, n, step).err == Fold(s.committed, xs, n, f).err
  {
    if n > 0 {
      StepsFold(s, xs, n - 1, step, f);
    }
  }

  /** The first n rows of a file on the committed data, up to the first failure. */
  function RecordRows(db: Db, rows: seq<SalesRow>, n: nat): Loaded
    requires n <= |rows|
  {
    Fold(db, rows, n, RecordRow)
  }

  /** One row through the gateway commits what RecordRow says. */
  lemma IngestRowRecords(s: Session, row: SalesRow, index: nat)
    ensures IngestRow(s, row, index).s.committed == RecordRow(s.committed, row, index).db
    ensures IngestRow(s, row, index).err == RecordRow(s.committed, row, index).err
  {
    IngestRowCommits(s, row, index);
  }

  /** A file's rows, run through the gateway, store what RecordRows says. */
  lemma IngestRowsCommits(s: Session, rows: seq<SalesRow>, n: nat)
    requires n <= |rows|
    ensures IngestRows(s, rows, n).s.committed == RecordRows(s.committed, rows, n).db
    ensures IngestRows(s, rows, n).err == RecordRows(s.committed, rows, n).err
  {
    forall t: Session, x: SalesRow, i: nat
      ensures IngestRow(t, x, i).s.committed == RecordRow(t.committed, x, i).db
      ensures IngestRow(t, x, i).err == RecordRow(t.committed, x, i).err
    {
      IngestRowRecords(t, x, i);
    }
    StepsFold(s, rows, n, IngestRow, RecordRow);
  }

  lemma RecordRowExtends(db: Db, row: SalesRow, index: nat)
    ensures Extends(db, RecordRow(db, row, index).db)
  {
    match SplitDate(row.date)
    case None =>
      assert db.custs <= db.custs && db.invs <= db.invs && db.details <= db.details;
    case Some(d) =>
      RecordExtends(db, row, d, CheckState);
  }

  /** A fold whose every pass only appends only appends, between any
      two of its prefixes. */
  lemma {:induction false} FoldExtends<T>(db: Db, xs: seq<T>, k: nat, n: nat, f: (Db, T, nat) -> Loaded)
    requires k <= n <= |xs|
    requires forall d: Db, x: T, i: nat :: Extends(d, f(d, x, i).db)
    ensures Extends(Fold(db, xs, k, f).db, Fold(db, xs, n, f).db)
    decreases n
  {
    var a := Fold(db, xs, k, f).db;
    if n == k {
      assert a.custs <= a.custs && a.invs <= a.invs && a.details <= a.details;
    } else {
      FoldExtends(db, xs, k, n - 1, f);
      var b := Fold(db, xs, n - 1, f);
      if b.err.None? {
        ExtendsTrans(a, b.db, Fold(db, xs, n, f).db);
      }
    }
  }

  /** Rows only append: everything stored by the first k rows is still
      stored after the first n, whether or not a later row failed. */
  lemma RecordRowsExtends(db: Db, rows: seq<SalesRow>, k: nat, n: nat)
    requires k <= n <= |rows|
    ensures Extends(RecordRows(db, rows, k).db, RecordRows(db, rows, n).db)
  {
    forall d: Db, x: SalesRow, i: nat
      ensures Extends(d, RecordRow(d, x, i).db)
    {
      RecordRowExtends(d, x, i);
    }
    FoldExtends(db, rows, k, n, RecordRow);
  }

  /** A customer or invoice stored by the first k rows of a file is reused,
      under the same id, by every get_or_create on its key after any later
      row, whether that row succeeded or failed. */
  lemma RecordRowsReuse(db: Db, rows: seq<SalesRow>, k: nat, n: nat, e: Entity)
    requires k <= n <= |rows| && Matches(RecordRows(db, rows, k).db, e) != []
    ensures var a := RecordRows(db, rows, k).db;
      GetOrCreate(RecordRows(db, rows, n).db, e) == Some(Inserted(RecordRows(db, rows, n).db, Matches(a, e)[0]))
  {
    RecordRowsExtends(db, rows, k, n);
    GetOrCreateStable(RecordRows(db, rows, k).db, RecordRows(db, rows, n).db, e);
  }

  /** One sales file: it stores what RecordRows says of its rows, and it is
      moved from data/to_load to data/loaded exactly when every row
      succeeded and the move itself is possible. */
  lemma IngestFileCommits(s: Session, fs: FileSystem, f: SalesFile)
    ensures var r := IngestFile(s, fs, f);
      var x := RecordRows(s.committed, f.rows, |f.rows|);
      var m := Moved(fs, IntakePath(f.name), ArchivePath(f.name));
      && r.s.committed == x.db
      && (r.err.None? <==> x.err.None? && m.Some?)
      && r.fs == (if x.err.None? && m.Some? then m.value else fs)
  {
    IngestRowsCommits(s, f.rows, |f.rows|);
    IngestFileSpec(s, fs, f);
  }

  /** A file whose rows all succeed, when data/loaded is a directory, is
      moved out of data/to_load into data/loaded. */
  lemma FileArchived(s: Session, fs: FileSystem, f: SalesFile)
    requires RecordRows(s.committed, f.rows, |f.rows|).err.None?
    requires IntakePath(f.name) in fs && ["data", "loaded"] in fs && fs[["data", "loaded"]] == Dir
    ensures var r := IngestFile(s, fs, f);
      && r.err.None? && r.s.committed == RecordRows(s.committed, f.rows, |f.rows|).db
      && ArchivePath(f.name) in r.fs && IntakePath(f.name) !in r.fs
  {
    IngestFileCommits(s, fs, f);
    assert Parent(ArchivePath(f.name)) == ["data", "loaded"];
    assert IntakePath(f.name) != ArchivePath(f.name) by {
      assert IntakePath(f.name)[1] != ArchivePath(f.name)[1];
    }
  }

  // ------------------------------------------------------------ static data

  datatype Applied = Applied(db: Db) | Rejected(index: nat)

  /** The first n inserts of a batch applied in order; Rejected(i) names
      the first insert the schema refuses, every earlier one being admitted. */
  function ApplyAll(db: Db, batch: seq<Action>, n: nat): Applied
    requires n <= |batch|
  {
    if n == 0 then Applied(db)
    else
      match ApplyAll(db, batch, n - 1)
      case Rejected(i) => Rejected(i)
      case Applied(d) =>
        match Execute(d, batch[n - 1])
        case None => Rejected(n - 1)
        case Some(x) => Applied(x.db)
  }

  /** A rejected batch names its first refused insert: every insert
      before it was admitted. */
  lemma {:induction false} ApplyAllRejected(db: Db, batch: seq<Action>, n: nat)
    requires n <= |batch| && ApplyAll(db, batch, n).Rejected?
    ensures var j := ApplyAll(db, batch, n).index;
      && j < n && ApplyAll(db, batch, j).Applied?
      && Execute(ApplyAll(db, batch, j).db, batch[j]).None?
  {
    if ApplyAll(db, batch, n - 1).Rejected? {
      ApplyAllRejected(db, batch, n - 1);
    }
  }

  /** A batch's inserts keep the schema's invariants. */
  lemma {:induction false} ApplyAllKeepsValid(db: Db, batch: seq<Action>, n: nat)
    requires n <= |batch| && Valid(db)
    ensures ApplyAll(db, batch, n).Applied? ==> Valid(ApplyAll(db, batch, n).db)
  {
    if n > 0 {
      ApplyAllKeepsValid(db, batch, n - 1);
      var r := ApplyAll(db, batch, n - 1);
      if r.Applied? && Execute(r.db, batch[n - 1]).Some? {
        ExecuteKeepsValid(r.db, batch[n - 1]);
      }
    }
  }

  /** One insert of a batch on a session that is not stale. */
  lemma InsertRowOutcome(t: Session, a: Action, i: nat)
    requires !(t.connected && t.conn != Open)
    ensures match Execute(WorkingView(t), a)
      case None =>
        InsertRow(t, a, i) ==
          Run(Session(true, Closed, t.committed, t.committed), Some(Failure(Gateway(IntegrityError), Some(i))))
      case Some(x) => InsertRow(t, a, i) == Run(Session(true, Open, t.committed, x.db), None)
  {
  }

  /** What the first n inserts of a batch leave behind, according to what
      applying them to the working data gives: nothing yet, all of them
      pending on an open connection, or a closed connection, nothing
      committed and the index of the first rejected insert. */
  function Pending(s: Session, a: Applied, n: nat): Run {
    match a
    case Applied(d) => if n == 0 then Run(s, None) else Run(Session(true, Open, s.committed, d), None)
    case Rejected(j) =>
      Run(Session(true, Closed, s.committed, s.committed), Some(Failure(Gateway(IntegrityError), Some(j))))
  }

  lemma InsertRowsUnfold(s: Session, batch: seq<Action>, n: nat)
    requires 0 < n <= |batch|
    ensures var r := InsertRows(s, batch, n - 1);
      InsertRows(s, batch, n) == if r.err.Some? then r else InsertRow(r.s, batch[n - 1], n - 1)
  {
  }

  lemma ApplyAllUnfold(db: Db, batch: seq<Action>, n: nat)
    requires 0 < n <= |batch|
    ensures ApplyAll(db, batch, n).Rejected? ==>
              ApplyAll(db, batch, n - 1).Rejected? || Execute(ApplyAll(db, batch, n - 1).db, batch[n - 1]).None?
    ensures ApplyAll(db, batch, n - 1).Rejected? ==> ApplyAll(db, batch, n) == ApplyAll(db, batch, n - 1)
    ensures ApplyAll(db, batch, n - 1).Applied? ==>
              var d := ApplyAll(db, batch, n - 1).db;
              ApplyAll(db, batch, n) ==
                if Execute(d, batch[n - 1]).None? then Rejected(n - 1) else Applied(Execute(d, batch[n - 1]).value.db)
  {
  }

  lemma PendingStep(s: Session, batch: seq<Action>, n: nat)
    requires 0 < n <= |batch| && !(s.connected && s.conn != Open)
    requires InsertRows(s, batch, n - 1) == Pending(s, ApplyAll(WorkingView(s), batch, n - 1), n - 1)
    ensures InsertRows(s, batch, n) == Pending(s, ApplyAll(WorkingView(s), batch, n), n)
  {
    InsertRowsUnfold(s, batch, n);
    ApplyAllUnfold(WorkingView(s), batch, n);
    var p := ApplyAll(WorkingView(s), batch, n - 1);
    var r := InsertRows(s, batch, n - 1);
    if p.Applied? {
      assert r.err.None?;
      if n == 1 {
        assert r.s == s && p.db == WorkingView(s);
      } else {
        assert r.s == Session(true, Open, s.committed, p.db);
      }
      InsertRowOutcome(r.s, batch[n - 1], n - 1);
    }
  }

  /** The insert loop of a batch: writes pile up on one open connection and
      nothing is committed; the first rejected insert discards them all. */
  lemma {:induction false} InsertRowsPending(s: Session, batch: seq<Action>, n: nat)
    requires n <= |batch| && !(s.connected && s.conn != Open)
    ensures InsertRows(s, batch, n) == Pending(s, ApplyAll(WorkingView(s), batch, n), n)
  {
    if n > 0 {
      InsertRowsPending(s, batch, n - 1);
      PendingStep(s, batch, n);
    }
  }

  /** One batch of _load_static_data on the committed data, by how the
      gateway stands when the batch begins. An empty batch commits on
      whatever handle there is: none ever assigned raises AttributeError and
      a closed one ProgrammingError. Otherwise a flag left set on a closed
      handle by an earlier rejected write makes the first insert fail with
      ProgrammingError; and on any other session the batch commits all its
      inserts or, at its first rejected insert, none of them. */
  function BatchOutcome(s: Session, batch: seq<Action>): Loaded {
    if batch == [] then
      match s.conn
      case Unopened => Loaded(s.committed, Some(Failure(Gateway(AttributeError), None)))
      case Closed => Loaded(s.committed, Some(Failure(Gateway(ProgrammingError), None)))
      case Open => Loaded(s.view, None)
    else if s.connected && s.conn != Open then
      Loaded(s.committed, Some(Failure(Gateway(ProgrammingError), Some(0))))
    else
      match ApplyAll(WorkingView(s), batch, |batch|)
      case Applied(d) => Loaded(d, None)
      case Rejected(j) => Loaded(s.committed, Some(Failure(Gateway(IntegrityError), Some(j))))
  }

  /** One batch of _load_static_data commits what BatchOutcome says and
      reports its error; after a success the connection is closed with the
      flag cleared. In particular a non-empty batch on a session that is not
      stalled is all or nothing. */
  lemma BatchAllOrNothing(s: Session, batch: seq<Action>)
    ensures var r := LoadBatch(s, batch);
      var o := BatchOutcome(s, batch);
      && r.s.committed == o.db && r.err == o.err
      && (o.err.None? ==> r.s == Session(false, Closed, o.db, o.db))
  {
    if batch == [] {
      assert InsertRows(s, [], 0) == Run(s, None);
    } else if s.connected && s.conn != Open {
      StepsNext(s, batch, 0, InsertRow);
      StepsStop(s, batch, 1, |batch|, InsertRow);
    } else {
      InsertRowsPending(s, batch, |batch|);
    }
  }

  /** An empty batch after an earlier one commits on the closed handle the
      earlier batch left behind, which raises ProgrammingError. */
  lemma EmptyBatchAfterBatch(db: Db)
    ensures var s := Session(false, Closed, db, db);
      LoadBatch(s, []) == Run(s, Some(Failure(Gateway(ProgrammingError), None)))
  {
    var s := Session(false, Closed, db, db);
    assert InsertRows(s, [], 0) == Run(s, None);
  }

  /**
   * _load_static_data: products, then states, then zips, each batch
   * committed on its own, so a failing batch leaves the earlier ones
   * committed and stops the load. The state and zip batches begin on the
   * connection the batch before them closed, so an empty states or zips
   * file stops the load with ProgrammingError at its commit.
   */
  lemma StaticLoadOrder(s: Session, ps: seq<ProductRecord>, ss: seq<StateRecord>, zs: seq<ZipRecord>)
    ensures var r := LoadStatic(s, ps, ss, zs);
      var p := BatchOutcome(s, ProductInserts(ps));
      var st := BatchOutcome(Session(false, Closed, p.db, p.db), StateInserts(ss));
      var z := BatchOutcome(Session(false, Closed, st.db, st.db), ZipInserts(zs));
      && (p.err.Some? ==> r.s.committed == p.db && r.err == p.err)
      && (p.err.None? && st.err.Some? ==> r.s.committed == st.db && r.err == st.err)
      && (p.err.None? && st.err.None? ==> r.s.committed == z.db && r.err == z.err)
      && (r.err.None? ==> r.s == Session(false, Closed, z.db, z.db))
      && (p.err.None? && ss == [] ==>
            r.s.committed == p.db && r.err == Some(Failure(Gateway(ProgrammingError), None)))
      && (p.err.None? && st.err.None? && zs == [] ==>
            r.s.committed == st.db && r.err == Some(Failure(Gateway(ProgrammingError), None)))
  {
    BatchAllOrNothing(s, ProductInserts(ps));
    var p := LoadBatch(s, ProductInserts(ps));
    if p.err.None? {
      BatchAllOrNothing(p.s, StateInserts(ss));
      var st := LoadBatch(p.s, StateInserts(ss));
      if st.err.None? {
        BatchAllOrNothing(st.s, ZipInserts(zs));
      }
    }
  }

  /** The product inserts of a batch that all went in add each record to
      tProd under its prod_id, with its description and price, keep every
      earlier product and change no other table. */
  lemma {:induction false} ApplyProducts(db: Db, ps: seq<ProductRecord>, n: nat)
    requires n <= |ps| && ApplyAll(db, ProductInserts(ps), n).Applied?
    ensures var d := ApplyAll(db, ProductInserts(ps), n).db;
      && d == db.(prods := d.prods) && db.prods <= d.prods
      && forall i :: 0 <= i < n ==> Row(ps[i].prodId, ProdKey(ps[i].prodDesc, ps[i].unitPrice)) in d.prods
  {
    if n > 0 {
      ApplyAllUnfold(db, ProductInserts(ps), n);
      ApplyProducts(db, ps, n - 1);
      var e := ApplyAll(db, ProductInserts(ps), n - 1).db;
      var r := Row(ps[n - 1].prodId, ProdKey(ps[n - 1].prodDesc, ps[n - 1].unitPrice));
      assert ApplyAll(db, ProductInserts(ps), n).db.prods == e.prods + [r];
    }
  }

  /** The state inserts of a batch that all went in map each code to its
      name, keep every earlier state and change no other table. */
  lemma {:induction false} ApplyStates(db: Db, ss: seq<StateRecord>, n: nat)
    requires n <= |ss| && ApplyAll(db, StateInserts(ss), n).Applied?
    ensures var d := ApplyAll(db, StateInserts(ss), n).db;
      && d == db.(states := d.states)
      && (forall c :: c in db.states ==> c in d.states && d.states[c] == db.states[c])
      && forall i :: 0 <= i < n ==> ss[i].stateId in d.states && d.states[ss[i].stateId] == ss[i].state
  {
    if n > 0 {
      ApplyAllUnfold(db, StateInserts(ss), n);
      ApplyStates(db, ss, n - 1);
      var e := ApplyAll(db, StateInserts(ss), n - 1).db;
      assert ss[n - 1].stateId !in e.states;
      assert ApplyAll(db, StateInserts(ss), n).db.states == e.states[ss[n - 1].stateId := ss[n - 1].state];
    }
  }

  /** The zip inserts of a batch that all went in map each zip to its city
      and state, keep every earlier zip and change no other table. */
  lemma {:induction false} ApplyZips(db: Db, zs: seq<ZipRecord>, n: nat)
    requires n <= |zs| && ApplyAll(db, ZipInserts(zs), n).Applied?
    ensures var d := ApplyAll(db, ZipInserts(zs), n).db;
      && d == db.(zips := d.zips)
      && (forall z :: z in db.zips ==> z in d.zips && d.zips[z] == db.zips[z])
      && forall i :: 0 <= i < n ==> zs[i].zip in d.zips && d.zips[zs[i].zip] == ZipInfo(zs[i].city, zs[i].stateId)
  {
    if n > 0 {
      ApplyAllUnfold(db, ZipInserts(zs), n);
      ApplyZips(db, zs, n - 1);
      var e := ApplyAll(db, ZipInserts(zs), n - 1).db;
      assert zs[n - 1].zip !in e.zips;
      assert ApplyAll(db, ZipInserts(zs), n).db.zips == e.zips[zs[n - 1].zip := ZipInfo(zs[n - 1].city, zs[n - 1].stateId)];
    }
  }

  /** A static load that succeeds has stored every record of the three
      files: each product under its prod_id with its description and price,
      each state code with its name, each zip with its city and state. The
      states and zips files were not empty. */
  lemma StaticLoadStores(s: Session, ps: seq<ProductRecord>, ss: seq<StateRecord>, zs: seq<ZipRecord>)
    requires LoadStatic(s, ps, ss, zs).err.None?
    ensures var d := LoadStatic(s, ps, ss, zs).s.committed;
      && ss != [] && zs != []
      && (forall i :: 0 <= i < |ps| ==> Row(ps[i].prodId, ProdKey(ps[i].prodDesc, ps[i].unitPrice)) in d.prods)
      && (forall i :: 0 <= i < |ss| ==> ss[i].stateId in d.states && d.states[ss[i].stateId] == ss[i].state)
      && (forall i :: 0 <= i < |zs| ==> zs[i].zip in d.zips && d.zips[zs[i].zip] == ZipInfo(zs[i].city, zs[i].stateId))
  {
    StaticLoadOrder(s, ps, ss, zs);
    var p := BatchOutcome(s, ProductInserts(ps));
    var st := BatchOutcome(Session(false, Closed, p.db, p.db), StateInserts(ss));
    if ps != [] {
      ApplyProducts(WorkingView(s), ps, |ps|);
    }
    ApplyStates(p.db, ss, |ss|);
    ApplyZips(st.db, zs, |zs|);
  }
}
