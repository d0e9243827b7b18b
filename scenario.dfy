/**
 * One sales file worked through end to end: a single sale in California of
 * one product, on a database seeded with that state, product and zip code.
 */
module Scenario {
  import opened Wrappers
  import opened Tables
  import opened Files
  import opened BaseDb
  import opened Dates
  import opened Store
  import opened Effects

  const Seeded := EmptyDb.(
    prods := [Row(1, ProdKey("Widget", 10))],
    states := map["CA" := "California"],
    zips := map["90001" := ZipInfo("Los Angeles", "CA")])

  const Stamp := "2024" + "-" + "03" + "-" + "05" + " " + "10:15"

  const Sale := SalesRow(Stamp, "CA", 1, "Widget", 10, "Ann", "Lee", "1 Main St", "90001", 3)

  /** The sale's date splits into its four pieces. */
  lemma SaleDate()
    ensures SplitDate(Sale.date) == Some(DateParts("2024", "03", "05", "10:15"))
  {
    assert Digits("2024") && Digits("03") && Digits("05");
    DateLayout("2024", "03", "05", "10:15");
  }

  /** Day, month and year are stored as the numbers 5, 3 and 2024. */
  lemma SaleInvoiceKey()
    ensures InvoiceKey(1, DateParts("2024", "03", "05", "10:15")) == InvKey(1, Int(5), Int(3), Int(2024), "10:15")
  {
    DecimalOfTwo('0', '5');
    DecimalOfTwo('0', '3');
    DecimalOfFour('2', '0', '2', '4');
  }

  /** The sale creates customer 1, invoice 1 on 2024-03-05 at 10:15, and
      one line item for product 1 with quantity 3. */
  lemma SaleRecorded()
    ensures var d := DateParts("2024", "03", "05", "10:15");
      Record(Seeded, Sale, d, CheckState) == Recorded(Stored, None)
  {
    var d := DateParts("2024", "03", "05", "10:15");
    SaleInvoiceKey();
    var c := Seeded.(custs := [Row(1, CustKey("Ann", "Lee", "1 Main St", "90001"))], custSeq := 1);
    assert Matches(Seeded, Customer(CustomerKey(Sale))) == [];
    assert NextId(Seeded.custs, 0) == 1;
    assert CustomerKey(Sale).zip in Seeded.zips && Seeded.custSeq == 0;
    assert Seeded.custs + [Row(1, CustomerKey(Sale))] == c.custs;
    assert Execute(Seeded, InsertCustomer(CustomerKey(Sale))) == Some(Inserted(c, 1));
    assert GetOrCreate(Seeded, Customer(CustomerKey(Sale))) == Some(Inserted(c, 1));
    var key := InvKey(1, Int(5), Int(3), Int(2024), "10:15");
    var v := c.(invs := [Row(1, key)], invSeq := 1);
    assert c.custs[0].id == 1;
    assert Matches(c, Invoice(key)) == [];
    assert NextId(c.invs, 0) == 1;
    assert InvoiceOk(c, key) && c.invSeq == 0;
    assert c.invs + [Row(1, key)] == v.invs;
    assert Execute(c, InsertInvoice(key)) == Some(Inserted(v, 1));
    assert GetOrCreate(c, Invoice(key)) == Some(Inserted(v, 1));
    assert v.invs[0].id == 1 && v.prods[0].id == 1;
    assert !HasPair(v.details, 1, 1);
    assert Record(v, Sale, d, AddLine(1)) == Recorded(v.(details := [Detail(1, 1, 3)]), None);
    assert Record(c, Sale, d, FindInvoice(key)) == Record(v, Sale, d, AddLine(1));
    assert Record(Seeded, Sale, d, FindCustomer) == Record(c, Sale, d, FindInvoice(key));
    assert Matching(Seeded.prods, ProdKey("Widget", 10)) == [1];
    assert Record(Seeded, Sale, d, CheckState) == Record(Seeded, Sale, d, FindCustomer);
  }

  const Stored := Seeded.(
    custs := [Row(1, CustKey("Ann", "Lee", "1 Main St", "90001"))], custSeq := 1,
    invs := [Row(1, InvKey(1, Int(5), Int(3), Int(2024), "10:15"))], invSeq := 1,
    details := [Detail(1, 1, 3)])

  lemma SaleRows()
    ensures RecordRows(Seeded, [Sale], 1) == Loaded(Stored, None)
  {
    SaleDate();
    SaleRecorded();
    assert RecordRows(Seeded, [Sale], 0) == Loaded(Seeded, None);
    assert RecordRow(Seeded, Sale, 0) == Loaded(Stored, None);
  }

  /** Sales_001.csv, loaded on a fresh session over the seeded database,
      stores that sale and is moved to data/loaded. */
  lemma SampleFileLoaded(fs: FileSystem)
    requires IntakePath("Sales_001.csv") in fs
    requires ["data", "loaded"] in fs && fs[["data", "loaded"]] == Dir
    ensures var r := IngestFile(Session(false, Unopened, Seeded, Seeded), fs, SalesFile("Sales_001.csv", [Sale]));
      && r.err.None? && r.s.committed == Stored
      && ArchivePath("Sales_001.csv") in r.fs && IntakePath("Sales_001.csv") !in r.fs
  {
    SaleRows();
    FileArchived(Session(false, Unopened, Seeded, Seeded), fs, SalesFile("Sales_001.csv", [Sale]));
  }
}
