/**
 * The database gateway: one connection handle plus the `connected` flag,
 * the data committed to the database file, and the data the open
 * connection sees (committed data plus uncommitted writes). Each operation
 * is first a step function on a Session value; the class BaseDB updates its
 * fields as the gateway does and is proved to follow the steps.
 */
module BaseDb {
  import opened Wrappers
  import opened Tables
  import opened Files

  /** The kinds of error the gateway raises. */
  datatype DbError =
    | IntegrityError    // a constraint rejected an INSERT
    | ProgrammingError  // a statement was sent over a closed connection
    | AttributeError    // no connection was ever opened

  /** The connection handle: never assigned, open, or closed. */
  datatype Conn = Unopened | Open | Closed

  datatype Session = Session(connected: bool, conn: Conn, committed: Db, view: Db)

  /** Uncommitted writes live only on an open connection, an open connection
      is flagged as connected, and the flag implies a handle exists. The
      flag may stay set on a closed connection. */
  ghost predicate Coherent(s: Session) {
    && (s.connected ==> s.conn != Unopened)
    && (s.conn == Open ==> s.connected)
    && (s.conn != Open ==> s.view == s.committed)
  }

  /** The data an action works on: the current connection's if the flag
      says one is open, a fresh connection's otherwise. */
  function WorkingView(s: Session): Db {
    if s.connected then s.view else s.committed
  }

  /** A new connection sees only committed data; the handle it replaces is
      dropped together with its uncommitted writes. */
  function ConnectStep(s: Session): (r: Session)
    ensures r.connected && r.conn == Open && r.view == r.committed == s.committed
    ensures Coherent(r)
  {
    Session(true, Open, s.committed, s.committed)
  }

  datatype Done = Done(s: Session, err: Option<DbError>)

  /** Closing without a commit drops the uncommitted writes and clears the
      flag; closing a handle that was never assigned raises AttributeError. */
  function CloseStep(s: Session): (r: Done)
    ensures r.err.Some? <==> s.conn == Unopened
    ensures r.err.Some? ==> r.s == s && r.err == Some(AttributeError)
    ensures r.err.None? ==> !r.s.connected && r.s.conn == Closed && r.s.view == r.s.committed == s.committed
    ensures Coherent(s) ==> Coherent(r.s)
    ensures r.err.None? ==> Coherent(r.s)
  {
    if s.conn == Unopened then Done(s, Some(AttributeError))
    else Done(Session(false, Closed, s.committed, s.committed), None)
  }

  /** A commit on the handle makes every write the connection made durable. */
  function CommitStep(s: Session): (r: Done)
    ensures r.err == Some(AttributeError) <==> s.conn == Unopened
    ensures r.err == Some(ProgrammingError) <==> s.conn == Closed
    ensures r.err.Some? ==> r.s == s
    ensures r.err.None? ==> r.s == s.(committed := s.view)
    ensures Coherent(s) ==> Coherent(r.s)
    ensures r.err.None? ==> r.s.view == r.s.committed
  {
    match s.conn
    case Unopened => Done(s, Some(AttributeError))
    case Closed => Done(s, Some(ProgrammingError))
    case Open => Done(s.(committed := s.view), None)
  }

  /** Connecting twice is connecting once: the second handle again sees
      only the committed data. */
  lemma ConnectIdempotent(s: Session)
    ensures ConnectStep(ConnectStep(s)) == ConnectStep(s)
  {
  }

  /** Closing a handle that was closed before changes nothing and raises
      nothing, so the loader may call _close after a step that already
      closed the connection. */
  lemma CloseIdempotent(s: Session)
    requires s.conn != Unopened
    ensures CloseStep(CloseStep(s).s) == CloseStep(s)
  {
  }

  /** A connection opened and closed without a commit leaves exactly the
      committed data, whatever was pending before. */
  lemma ConnectCloseDiscards(s: Session)
    ensures CloseStep(ConnectStep(s)) == Done(Session(false, Closed, s.committed, s.committed), None)
  {
  }

  /** After a commit, closing keeps every write: the data committed is the
      data the connection saw. */
  lemma CommitThenClose(s: Session)
    requires CommitStep(s).err.None?
    ensures CloseStep(CommitStep(s).s) == Done(Session(false, Closed, s.view, s.view), None)
  {
  }

  datatype Queried = Queried(s: Session, rows: seq<Value>)

  /** run_query: reads committed data on a connection of its own and always
      ends with the connection closed and the flag cleared, even when an
      action's connection had been kept open. */
  function QueryStep(s: Session, q: Query): (r: Queried)
    ensures r.rows == Select(s.committed, q)
    ensures !r.s.connected && r.s.conn == Closed
    ensures r.s.committed == r.s.view == s.committed
  {
    var c := ConnectStep(s);
    var rows := Select(c.view, q);
    Queried(CloseStep(c).s, rows)
  }

  datatype Acted = Acted(s: Session, rowid: int, err: Option<DbError>)

  /**
   * run_action: opens a connection only when the flag is clear and otherwise
   * sends the statement over the current handle (which fails if that handle
   * is closed). On success the write is durable when commit is set and
   * pending otherwise, and the connection stays open exactly when keepOpen
   * is set. On a rejected write every write since the last commit is
   * discarded and the connection closed, but the flag stays set.
   */
  function ActionStep(s: Session, a: Action, commit: bool, keepOpen: bool): (r: Acted)
    ensures r.err != Some(AttributeError)
    ensures r.err == Some(ProgrammingError) <==> s.connected && s.conn != Open
    ensures r.err == Some(ProgrammingError) ==> r.s == s
    ensures r.err == Some(IntegrityError) <==>
              !(s.connected && s.conn != Open) && Execute(WorkingView(s), a).None?
    ensures r.err == Some(IntegrityError) ==> r.s == Session(true, Closed, s.committed, s.committed)
    ensures r.err.None? ==> Execute(WorkingView(s), a).Some?
    ensures r.err.None? ==>
              var x := Execute(WorkingView(s), a).value;
              && r.rowid == x.rowid
              && r.s.committed == (if commit then x.db else s.committed)
              && r.s.connected == keepOpen
              && r.s.conn == (if keepOpen then Open else Closed)
              && r.s.view == (if keepOpen then x.db else r.s.committed)
    ensures Coherent(s) ==> Coherent(r.s)
  {
    var c := if !s.connected then ConnectStep(s) else s;
    if c.conn != Open then Acted(c, 0, Some(ProgrammingError))
    else
      match Execute(c.view, a)
      case None => Acted(Session(c.connected, Closed, c.committed, c.committed), 0, Some(IntegrityError))
      case Some(x) =>
        var w := Session(true, Open, if commit then x.db else c.committed, x.db);
        Acted(if keepOpen then w else CloseStep(w).s, x.rowid, None)
  }

  /** A rejected write leaves the flag set on a closed handle: every later
      run_action fails with ProgrammingError and changes nothing, until a
      run_query (which always reconnects and closes) clears the flag. */
  lemma RejectedWriteStalls(s: Session, a: Action, commit: bool, keepOpen: bool,
                            b: Action, commit': bool, keepOpen': bool, q: Query)
    requires ActionStep(s, a, commit, keepOpen).err == Some(IntegrityError)
    ensures var f := ActionStep(s, a, commit, keepOpen).s;
      && ActionStep(f, b, commit', keepOpen') == Acted(f, 0, Some(ProgrammingError))
      && ActionStep(QueryStep(f, q).s, b, commit', keepOpen').err != Some(ProgrammingError)
  {
  }

  /** The gateway object, BaseDB. */
  class BaseDB {
    const path: Path
    const disk: Disk
    var connected: bool
    var conn: Conn
    var committed: Db
    var view: Db
    var existed: bool

    function State(): Session
      reads this
    {
      Session(connected, conn, committed, view)
    }

    /** The fields `__init__` sets before it walks the path; stored is what
        the database file at path holds. The walk is CheckExists. */
    constructor (path: Path, disk: Disk, stored: Db)
      ensures this.path == path && this.disk == disk && existed
      ensures State() == Session(false, Unopened, stored, stored)
    {
      this.path := path;
      this.disk := disk;
      connected := false;
      conn := Unopened;
      committed := stored;
      view := stored;
      existed := true;
    }

    /** _connect (the PRAGMA that turns foreign keys on is why every
        Execute checks them). */
    method Connect()
      modifies this
      ensures State() == ConnectStep(old(State())) && existed == old(existed)
    {
      conn := Open;
      view := committed;
      connected := true;
    }

    /** _close */
    method Close() returns (err: Option<DbError>)
      modifies this
      ensures Done(State(), err) == CloseStep(old(State())) && existed == old(existed)
    {
      if conn == Unopened {
        return Some(AttributeError);
      }
      conn := Closed;
      view := committed;
      connected := false;
      err := None;
    }

    /** self._conn.commit() */
    method Commit() returns (err: Option<DbError>)
      modifies this
      ensures Done(State(), err) == CommitStep(old(State())) && existed == old(existed)
    {
      if conn == Unopened {
        return Some(AttributeError);
      } else if conn == Closed {
        return Some(ProgrammingError);
      }
      committed := view;
      err := None;
    }

    method RunQuery(q: Query) returns (rows: seq<Value>)
      modifies this
      ensures Queried(State(), rows) == QueryStep(old(State()), q) && existed == old(existed)
    {
      Connect();
      rows := Select(view, q);
      var _ := Close();
    }

    method RunAction(a: Action, commit: bool, keepOpen: bool) returns (rowid: int, err: Option<DbError>)
      modifies this
      ensures Acted(State(), rowid, err) == ActionStep(old(State()), a, commit, keepOpen)
      ensures existed == old(existed)
    {
      if !connected {
        Connect();
      }
      if conn != Open {
        // the statement, and then the rollback, fail on the closed handle
        return 0, Some(ProgrammingError);
      }
      var x := Execute(view, a);
      if x.None? {
        view := committed;  // rollback
        conn := Closed;     // the handle is closed, the flag is left set
        return 0, Some(IntegrityError);
      }
      view := x.value.db;
      if commit {
        committed := view;
      }
      if !keepOpen {
        var _ := Close();
      }
      rowid, err := x.value.rowid, None;
    }

    /**
     * _check_exists: walks the prefixes of path in order. `existed` ends up
     * false exactly when some prefix was missing. Without create the walk
     * stops with FileNotFoundError at the first missing prefix; with create
     * a missing intermediate prefix becomes a directory and a missing final
     * prefix becomes the database file, by opening and closing a connection.
     */
    method CheckExists(create: bool) returns (missing: Option<Path>)
      modifies this, disk
      ensures existed <==> AllPrefixesExist(old(disk.entries), path)
      ensures !create ==> disk.entries == old(disk.entries) && State() == old(State())
      ensures !create ==> (missing.None? <==> AllPrefixesExist(old(disk.entries), path))
      ensures !create && missing.Some? ==>
                exists k :: 0 <= k < |path| && missing.value == Prefix(path, k) && Prefix(path, k) !in old(disk.entries)
                            && forall j :: 0 <= j < k ==> Prefix(path, j) in old(disk.entries)
      ensures create ==> missing.None? && disk.entries == Provisioned(old(disk.entries), path, |path|)
      ensures create ==>
                State() == if path != [] && path !in old(disk.entries) then CloseStep(ConnectStep(old(State()))).s
                           else old(State())
    {
      ghost var fs0 := disk.entries;
      ghost var s0 := State();
      existed := true;
      var n := |path|;
      var i := 0;
      while i < n
        invariant 0 <= i <= n
        invariant existed <==> forall j :: 0 <= j < i ==> Prefix(path, j) in fs0
        invariant !create ==> disk.entries == fs0 && existed
        invariant create ==> disk.entries == Provisioned(fs0, path, i)
        invariant State() == if create && i == n && n > 0 && path !in fs0 then CloseStep(ConnectStep(s0)).s else s0
      {
        var part := Prefix(path, i);
        if create {
          ProvisionedStep(fs0, path, i);
        }
        var absent := VisitPrefix(part, i == n - 1, create);
        if absent && !create {
          return Some(part);
        }
        assert i == n - 1 ==> part == path;
        i := i + 1;
      }
      assert n > 0 ==> Prefix(path, n - 1) == path;
      missing := None;
    }

    /** One turn of _check_exists's loop: a missing prefix clears `existed`,
        and with create becomes the database file when it is the whole path
        and a directory otherwise. */
    method VisitPrefix(part: Path, last: bool, create: bool) returns (absent: bool)
      modifies this, disk
      ensures absent <==> part !in old(disk.entries)
      ensures existed == (old(existed) && !absent)
      ensures disk.entries == if absent && create then old(disk.entries)[part := if last then File else Dir]
                              else old(disk.entries)
      ensures State() == if absent && create && last then CloseStep(ConnectStep(old(State()))).s else old(State())
    {
      var present := disk.Exists(part);
      absent := !present;
      if absent {
        existed := false;
        if create {
          if last {
            Connect();
            var _ := Close();
            disk.CreateFile(part);
          } else {
            disk.Mkdir(part);
          }
        }
      }
    }
  }
}
