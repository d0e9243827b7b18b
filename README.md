# HardwareStore_Database loader, modelled in Dafny

This project models the loader of a hardware store's SQLite database. The
loader has two layers.

- `BaseDB` is a thin database gateway. It wraps one connection handle and a
  `_connected` flag with `run_query`, `run_action`, `_connect`, `_close`, and
  a `_check_exists` walk over the database path.
- `StoreDB` builds on it and fills the six tables:
  - The reference data goes in as three batches: products, states, then zip
    codes. Each batch is one transaction, so it is all or nothing. The commit
    that ends a batch runs on whatever handle is left, so an empty states or
    zips file makes the load fail there.
  - Then each sales file is read row by row. A row's date is cut into pieces.
    Its state and product are checked against the reference data. Its customer
    and invoice are looked up by natural key, or created. One line item is
    added. Every write is committed as it is made.
  - A file moves from `data/to_load` to `data/loaded` only when all of its
    rows went in. A failed move raises `os.rename`'s error:
    NotADirectoryError when `data/loaded` is a regular file, and
    FileNotFoundError otherwise.

The project has these modules:

- `Tables` holds the six tables as values. The schema's CHECK, PRIMARY KEY,
  FOREIGN KEY and AUTOINCREMENT clauses become `Admits` and `Execute`. Every
  SELECT becomes `Select`.
- `Files` is the filesystem, as a map from paths to directories and files.
  The class `Disk` provides `os.path.exists`, `os.mkdir` and `os.rename`.
- `BaseDb` makes the gateway a state machine over a `Session`:
  - the `_connected` flag;
  - the handle, which is never opened, open, or closed;
  - the committed data;
  - the data the open connection sees.

  Each operation is a step function. The class `BaseDB` updates the same
  fields in place, and each of its methods is proved to follow its step
  function.
- `Dates` gives Python's `str.split` semantics and the date split the loader
  performs. The time is the piece between the first and second space
  (`split(' ')[1]`), as the code takes it, so a date with a second space
  keeps only part of its time.
- `Store` holds the loader as step functions over the session, plus the class
  `StoreDB`. Its methods are loops and calls on a `BaseDB`, proved equal to
  those functions.
- `Effects` says what the loader does to the committed data alone:
  - how a row's customer, invoice and line item are chosen;
  - what a failure leaves behind;
  - re-running a row;
  - the all-or-nothing static batches.

  Its lemmas tie this to the session-level functions.
- `Scenario` works one sales file through end to end.

## Model

| member | source | states |
|---|---|---|
| Tables.Execute | store.py:38-98 | An INSERT succeeds exactly when the schema admits it. Admission means: the primary key is free; the state code has 2 characters and the zip 5; day is an integer in 1..31, month in 1..12, and year has 4 characters; and every foreign key names an existing row (foreign keys are switched on at base_db.py:69). On success the table grows by exactly that row. A customer or invoice gets an AUTOINCREMENT id above all ids handed out before, and that id is the returned rowid. |
| Tables.ExecuteKeepsValid | store.py:38-98 | Every admitted INSERT preserves the schema's invariants: key lengths, unique keys and unique (invoice, product) pairs, and foreign keys that resolve. |
| Tables.NextId | store.py:72 | An AUTOINCREMENT id is above the last one handed out and above every id in the table, so it is new. |
| Tables.Select | store.py:166-170 | A loader SELECT returns nothing exactly when no row of the table has the searched columns. This holds for the state code, the (description, price) pair, the customer's four columns and the invoice's five. |
| Tables.MatchingFirst | store.py:224 | The first id returned by a search, which `iloc[0]` picks, belongs to the first row in storage order having the key. |
| Tables.MatchingIds | store.py:259 | Every id a search returns belongs to a row with the searched key. |
| Tables.MatchingAppend | store.py:213-216 | Appending a row adds its id to the end of a search's result when it has the key, and leaves the result alone otherwise. |
| Tables.MatchingConcat | store.py:209 | Searching a table that grew at its end gives the matches of the old rows first, then those of the new rows. |
| Dates.Split | store.py:158 | `s.split(sep)` returns at least one piece. No piece contains the separator, and the pieces joined with it give back s. |
| Dates.SplitJoin | store.py:158 | Splitting pieces that were joined with a separator they do not contain gives back those pieces. |
| Dates.FirstToken | store.py:161 | `s.split()[0]` is the run of non-whitespace that starts right after the leading whitespace and ends at the next whitespace or at the end of s. It is missing, which is an IndexError, exactly when s is all whitespace. |
| Dates.DateLayout | store.py:158-162 | A date `YYYY-MM-DD HH:MM` splits into exactly its year, month, day and time. |
| Dates.DateWithoutTime | store.py:162 | A date with no space has no time piece, so the row raises IndexError. |
| Dates.SplitDate | store.py:158-162 | The definition of the four pieces. Its properties are stated by `DateLayout`, `DateWithoutTime` and `Split`. |
| Files.Moved | store.py:276-278 | `os.rename` succeeds exactly when the source exists and the target's directory is an existing directory. The entry then moves and nothing else changes. |
| Files.RenameFault | store.py:278 | A failed rename reports ENOTDIR when the target's directory is a regular file, since that is resolved before the source is looked up. Otherwise it reports ENOENT, and then the source or the target's directory is missing. |
| Files.ProvisionedSpec | base_db.py:85-96 | Walking the path with creation allowed makes every prefix exist and keeps existing entries. A missing prefix becomes a directory, or the database file when it is the whole path. |
| Files.ProvisionedStep | base_db.py:86-96 | One more turn of the walk creates the next prefix exactly when it was missing before the walk began. |
| Files.Disk.Rename | store.py:278 | The disk's entries become `Moved` of the old entries. When the rename fails they stay the same, and the error is `RenameFault`'s. |
| BaseDb.ConnectStep | base_db.py:63-72 | A new connection is open, flagged, and sees only committed data, so the session it leaves is coherent: no pending writes off an open handle, no flag without a handle. |
| BaseDb.ConnectIdempotent | base_db.py:63-72 | Connecting twice is connecting once. |
| BaseDb.CloseStep | base_db.py:74-78 | Closing drops uncommitted writes and clears the flag, leaving a coherent session. Closing a handle that was never assigned raises AttributeError and changes nothing. |
| BaseDb.CloseIdempotent | base_db.py:74-78 | Closing a handle that is already closed changes nothing and raises nothing, which the final `_close` at store.py:280 relies on. |
| BaseDb.ConnectCloseDiscards | base_db.py:63-78 | A connection opened and closed without a commit leaves exactly the committed data. |
| BaseDb.CommitStep | store.py:114 | A commit makes the connection's writes durable, so afterwards the committed data is what the connection sees, and coherence is kept. It raises ProgrammingError on a closed handle and AttributeError when no handle was ever opened. |
| BaseDb.CommitThenClose | store.py:114-115 | A commit followed by `_close` keeps every write the connection made. |
| BaseDb.QueryStep | base_db.py:18-31 | `run_query` returns what the committed data holds. It always ends with the connection closed and the flag cleared, dropping writes an earlier action had left pending. |
| BaseDb.ActionStep | base_db.py:33-60 | `run_action` reuses the handle when the flag is set and fails with ProgrammingError, changing nothing, if that handle is closed. An admitted write is durable exactly when commit is set, and the connection stays open exactly when keep_open is set. A rejected write discards every write since the last commit and closes the handle, but leaves the flag set. |
| BaseDb.RejectedWriteStalls | base_db.py:51-54 | After a rejected write, every later `run_action` fails with ProgrammingError, until a `run_query` clears the flag. |
| BaseDb.BaseDB.Connect | base_db.py:63-72 | The object's fields change as `ConnectStep` says. |
| BaseDb.BaseDB.Close | base_db.py:74-78 | The object's fields change as `CloseStep` says. |
| BaseDb.BaseDB.Commit | store.py:114 | The object's fields change as `CommitStep` says. |
| BaseDb.BaseDB.RunQuery | base_db.py:18-31 | The returned rows and the new fields are those of `QueryStep`. |
| BaseDb.BaseDB.RunAction | base_db.py:33-60 | The rowid, the error and the new fields are those of `ActionStep`. |
| BaseDb.BaseDB.CheckExists | base_db.py:80-97 | `_existed` is false exactly when some prefix of the path was missing. Without create, nothing changes, and the walk stops at the first missing prefix, which it names. With create, the filesystem becomes `Provisioned`, and a connection is opened and closed exactly when the database file itself was missing. |
| BaseDb.BaseDB.VisitPrefix | base_db.py:86-96 | One turn of the walk: a missing prefix clears `_existed` and, with create, is made a directory or, when it is the whole path, the database file. |
| Store.Affinity | store.py:228-230 | A date piece stored in an INTEGER column becomes a number exactly when it is a non-empty run of digits, and that number is its decimal value. Otherwise it stays as text. |
| Store.StepsStop | store.py:157 | Once a pass of a loader loop fails, later elements are never processed. |
| Store.LoadBatch | store.py:108-115 | The definition of one static batch. Its properties are stated by `Effects.BatchAllOrNothing`. |
| Store.LoadStatic | store.py:100-149 | The definition of `_load_static_data`. Its properties are stated by `Effects.StaticLoadOrder` and `Effects.StaticLoadStores`. |
| Store.Reconcile | store.py:209-259 | The definition of lookup-or-create. Its properties are stated by `ReconcileSpec` and `Effects.ReconcileCommits`. |
| Store.ReconcileSpec | store.py:209-259 | Lookup-or-create: when a stored row has the key, the first such row's id is used, nothing is written and the connection is closed. Otherwise exactly one row is inserted and committed, and its new id is used. If the schema rejects that row, the error is IntegrityError, nothing is committed, and the flag is left set on a closed handle. |
| Store.Advance | store.py:164-274 | The definition of a row's stages. Its properties are stated by `Effects.AdvanceCommits`. |
| Store.IngestRow | store.py:157-274 | The definition of one row. Its properties are stated by `Effects.IngestRowCommits`. |
| Store.IngestFile | store.py:157-278 | The definition of one file. Its properties are stated by `IngestFileSpec` and `Effects.IngestFileCommits`. |
| Store.IngestFileSpec | store.py:157-278 | A file's session is that of its rows. It is archived exactly when every row succeeded and the rename is possible, and on any error the filesystem is unchanged. A failed rename raises `os.rename`'s error, NotADirectoryError when data/loaded is a regular file. |
| Store.IngestFilesStop | store.py:153 | Once a file fails, later files are never processed. |
| Store.LoadContinuous | store.py:151-282 | The definition of `_load_continuous_data`. Its properties are stated by `IngestFilesStop`, `IngestFileSpec` and `Effects.IngestFileCommits`. |
| Store.StoreDB.LoadStaticData | store.py:100-149 | The method ends in the session and error given by `LoadStatic`. |
| Store.StoreDB.InsertBatch | store.py:108-115 | One batch's method ends as `LoadBatch` says: its rows, then a commit and a close. |
| Store.StoreDB.InsertAll | store.py:108-112 | The insert loop ends as `InsertRows` says. It stops at the first rejected row, whose index it reports. |
| Store.StoreDB.LookupOrCreate | store.py:209-224 | The id, the error and the new session are those of `Reconcile`. |
| Store.StoreDB.ProcessRow | store.py:157-274 | One row ends in the session and error given by `IngestRow`. |
| Store.StoreDB.ValidateRow | store.py:164-191 | The state check, then the product check, then the rest of the row, exactly as `Advance` from its first stage. |
| Store.StoreDB.RecordSale | store.py:193-274 | The customer lookup-or-create, then the rest of the row, exactly as `Advance` from the customer stage. |
| Store.StoreDB.RecordInvoice | store.py:226-274 | Invoice lookup-or-create, then the line item, exactly as `Advance` from the invoice stage. |
| Store.StoreDB.IngestAll | store.py:157-274 | The row loop ends as `IngestRows` says, stopping at the first failing row. |
| Store.StoreDB.IngestFileData | store.py:154-278 | A file's rows, then the rename, giving the session, filesystem and error of `IngestFile`. |
| Store.StoreDB.LoadContinuousData | store.py:151-282 | Every file, stopping at the first failure, then `_close`, giving the session, filesystem and error of `LoadContinuous`. |
| Effects.ReconcileCommits | store.py:209-259 | Lookup-or-create through the gateway commits exactly what `GetOrCreate` says on the committed data alone. After a success the next action starts on committed data. |
| Effects.GetOrCreate | store.py:209-259 | The definition of lookup-or-create on the committed data. Its properties are stated by `GetOrCreateSpec`, `GetOrCreateAgain` and `GetOrCreateStable`. |
| Effects.Record | store.py:164-274 | The definition of a row on the committed data. Its properties are stated by `RecordChecks`, `RecordSuccess`, `RecordRerun`, `RecordExtends`, `RecordKeepsEarlierWrites` and `RecordKeepsValid`. |
| Effects.AdvanceCommits | store.py:164-274 | A row's stages through the gateway store exactly what `Record` says and report its error with the row's index. After a success the connection is closed. |
| Effects.IngestRowCommits | store.py:157-274 | A row whose date lacks a piece stops the load with IndexError, before anything is read or written. Any other row commits what `Record` says. |
| Effects.GetOrCreateSpec | store.py:209-259 | GetOrCreate reuses the first row with the key and writes nothing. Otherwise it appends exactly one row under an id above the last one handed out, or fails exactly when the schema rejects the row. Either way the returned id is then the first match for the key. |
| Effects.GetOrCreateAgain | store.py:209-224 | Reconciling the same key a second time finds the first call's row and writes nothing. |
| Effects.MatchesExtends | store.py:209-224 | When rows are only appended, the first match for a key stays the first match. |
| Effects.GetOrCreateStable | store.py:209-259 | Once a customer or invoice is stored, every later lookup-or-create on its key reuses its id and writes nothing, after any rows that only appended. |
| Effects.RecordChecks | store.py:172-191 | An unknown state raises the state error and changes nothing. A known state with no product of that description and price raises the product error and changes nothing. Otherwise the row goes on to its customer. |
| Effects.RecordSuccess | store.py:193-274 | After a successful row, the reference tables are unchanged and the row's customer and invoice both exist. tInvDetail has grown by exactly one line, carrying the invoice found for the row's customer and date, and the row's own prod_id and qty. |
| Effects.RecordRerun | store.py:261-274 | Running a successful row again reuses its customer and invoice. The line item is then rejected by the (invoice_id, prod_id) primary key, and nothing is written. |
| Effects.RecordExtends | store.py:217-274 | A row, whatever its fate, only appends to tCust, tInv and tInvDetail, and leaves the reference tables unchanged. |
| Effects.RecordKeepsEarlierWrites | store.py:209-259 | The writes of a row's stages stay committed when a later stage fails. Once the row has passed its checks and its customer was found or created, that customer is the first match for its key in what the row leaves. The same holds for the invoice once it was found or created. |
| Effects.RecordKeepsValid | store.py:38-98 | Every row, whatever its fate, keeps the schema's invariants. |
| Effects.IngestRowsCommits | store.py:157-274 | A file's rows through the gateway store what `RecordRows` says on the committed data, and report its error. |
| Effects.RecordRowsExtends | store.py:218 | Everything the first k rows stored stays stored after later rows, even after one of them failed, since each write was committed as it was made. |
| Effects.RecordRowsReuse | store.py:209-259 | A customer or invoice stored by the first k rows of a file is reused under the same id by every later lookup on its key, after any later rows, failed or not. |
| Effects.IngestFileCommits | store.py:157-278 | A file stores what `RecordRows` says. It is moved to data/loaded exactly when every row succeeded and the rename is possible, and otherwise stays where it was. |
| Effects.FileArchived | store.py:276-278 | A file whose rows all succeed, when data/loaded is a directory, ends up in data/loaded and no longer in data/to_load. |
| Effects.ApplyAllRejected | store.py:108-112 | Applying a batch's inserts in order: a rejected batch names its first refused insert, and every insert before it was admitted. |
| Effects.ApplyAllKeepsValid | store.py:100-149 | The static inserts keep the schema's invariants. |
| Effects.InsertRowsPending | store.py:108-112 | The batch's inserts pile up uncommitted on one open connection. The first rejected insert discards all of them and reports its row index. |
| Effects.BatchAllOrNothing | store.py:108-115 | One batch commits what `BatchOutcome` says, and after a success the connection is closed with the flag cleared. On a session that is not stalled, a non-empty batch commits all its rows or none of them, and reports its first rejected row. After a rejected write has left the flag set, the first insert fails with ProgrammingError. An empty batch commits on whatever handle there is: with none it raises AttributeError, on a closed one ProgrammingError. |
| Effects.EmptyBatchAfterBatch | store.py:130 | An empty batch after another batch commits on the closed handle that batch left, which raises ProgrammingError. |
| Effects.StaticLoadOrder | store.py:100-149 | Products, then states, then zips, as `BatchOutcome` says of each. A failing batch leaves the earlier batches committed and stops the load. An empty states or zips file fails at its commit with ProgrammingError, on the handle the batch before it closed. |
| Effects.ApplyProducts | store.py:103-112 | A product batch that went in stores each record under its prod_id, with its description and price. It keeps earlier products and changes no other table. |
| Effects.ApplyStates | store.py:119-128 | A state batch that went in maps each code to its name. It keeps earlier states and changes no other table. |
| Effects.ApplyZips | store.py:136-145 | A zip batch that went in maps each zip to its city and state. It keeps earlier zips and changes no other table. |
| Effects.StaticLoadStores | store.py:100-149 | A static load that succeeds has stored every product, state and zip record of its three files, and its states and zips files were not empty. |
| Scenario.SaleDate | store.py:158-162 | The date `2024-03-05 10:15` splits into year 2024, month 03, day 05 and time 10:15. |
| Scenario.SaleInvoiceKey | store.py:226-232 | Those pieces are stored as the numbers 5, 3 and 2024. |
| Scenario.SaleRecorded | store.py:164-274 | On a database seeded with state CA, product (1, Widget, 10) and zip 90001, the sale creates customer 1, invoice 1 for 2024-03-05 at 10:15, and the line item (1, 1, 3). |
| Scenario.SampleFileLoaded | store.py:151-278 | Sales_001.csv with that one sale stores exactly those rows and is moved to data/loaded. |

## Left out

- Reading the CSV files with pandas is not modelled; a file is its sequence
  of already-typed records. The `np.int64` adapter is also not modelled, and
  zip is kept as text, as `astype(str)` makes it.
- `glob` is not modelled: the files to load are a parameter, in whatever order
  the caller gives.
- `os.path.normpath` and `os.sep` splitting are not modelled: the path is a
  sequence of components.
- `print` and the exact wording of error messages are not modelled. Errors
  keep their kind, and the row index when the source adds one.
- The DDL and `StoreDB.__init__` wiring are not modelled: the tables exist
  from the start with the schema's constraints, and `_create_tables` is
  represented by those constraints.
- The `_check_exists` call inside `__init__` is not modelled as a wiring step:
  `CheckExists` is a method of its own.
- NULL values and NOT NULL constraints are not modelled, since every record
  field has a value. SQLite type affinity is modelled only where the loader
  depends on it: day, month and year go into INTEGER columns and are compared
  there. Only ASCII digits count as a number.
- Failures of `sqlite3.connect`, `os.mkdir` and a SELECT are not modelled:
  these operations always succeed.
- Renaming onto an existing directory is not modelled: `Moved` lets the file
  replace whatever is at the target.
- Files.RenameFault: only ENOENT and ENOTDIR are modelled. Other reasons
  `os.rename` can fail, such as permissions, are not.
- Tables.Execute: the rowid returned for tables without an integer key
  is 0. The loader never reads it.
- Tables.NextId: AUTOINCREMENT's overflow at 2^63 is not modelled, because
  ids are unbounded.
- Concurrency, and a database changed by another process, are out of scope.
