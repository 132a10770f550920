/** The SQLite store behind the backend (`DatabaseService`): a `users` and
    a `transactions` table with AUTOINCREMENT ids, modelled in memory.
    Storage faults of the driver are an input (`fault`) of each call. */
module Store {
  import opened Wrappers
  import Seqs

  datatype Role = Psp | Dev
  datatype Status = Pending | Completed | Failed

  /** The text the schema stores for a status. */
  function StatusName(s: Status): string {
    match s
    case Pending => "pending"
    case Completed => "completed"
    case Failed => "failed"
  }

  /** A password as bcrypt sees it: the text a user typed, or a salted
      digest of some credential with a cost factor. Digests are opaque
      terms, equal only when built from equal parts. */
  datatype Credential = Plain(text: string) | Digest(source: Credential, rounds: nat)

  /** `bcrypt.compare(candidate, stored)`: holds exactly when `stored` is a
      digest of the text `candidate`, whatever its cost factor. */
  predicate BcryptCompare(candidate: string, stored: Credential) {
    stored.Digest? && stored.source == Plain(candidate)
  }

  /** Cost factor `createUser` hashes with. */
  const UserHashRounds: nat := 12

  /** At most this many rows come back from `getUserTransactions`. */
  const HistoryLimit: nat := 50

  datatype User = User(id: nat, email: string, password: Credential, role: Role, createdAt: nat)

  datatype Transaction = Transaction(
    id: nat, userId: nat, recipient: string, amount: int, currency: string,
    status: Status, timestamp: nat)

  /** The row object the transaction controller passes to its store. */
  datatype NewTransaction = NewTransaction(
    userId: nat, recipient: string, amount: int, currency: string,
    status: Status, timestamp: nat)

  datatype StoreError = UniqueViolation(column: string) | NoSuchRow | IoFault

  /** The message of the error the driver rejects with. */
  function ErrorMessage(e: StoreError): string {
    match e
    case UniqueViolation(column) => "SQLITE_CONSTRAINT: " + "UNIQUE constraint failed" + ": " + column
    case NoSuchRow => "No such transaction"
    case IoFault => "SQLITE_IOERR: disk I/O error"
  }

  /** The `Error` a rejected store promise throws to its caller. */
  function StoreThrown(e: StoreError): Thrown {
    ErrorObject(ErrorMessage(e))
  }

  // ---------------------------------------------------------------------
  // queries, as functions of the tables

  /** The first row that satisfies `p`, as `db.get` returns the first row
      of its `WHERE` clause. */
  function FirstUser(users: seq<User>, p: User -> bool): (r: Option<User>)
    ensures r.Some? ==> r.value in users && p(r.value)
    ensures r.None? <==> forall i :: 0 <= i < |users| ==> !p(users[i])
  {
    if users == [] then None
    else if p(users[0]) then Some(users[0])
    else FirstUser(users[1..], p)
  }

  /** When `u` is the only row that satisfies `p`, the lookup finds it. */
  lemma {:induction false} FirstUserOnly(users: seq<User>, p: User -> bool, u: User)
    requires u in users && p(u)
    requires forall i :: 0 <= i < |users| && p(users[i]) ==> users[i] == u
    ensures FirstUser(users, p) == Some(u)
  {
    if users[0] != u {
      assert u in users[1..];
      forall i | 0 <= i < |users[1..]| && p(users[1..][i]) ensures users[1..][i] == u {
        assert users[1..][i] == users[i + 1];
      }
      FirstUserOnly(users[1..], p, u);
    }
  }

  /** `SELECT * FROM users WHERE email = ?`. */
  function UserWithEmail(users: seq<User>, email: string): (r: Option<User>)
    ensures r.Some? ==> r.value in users && r.value.email == email
    ensures r.None? <==> forall i :: 0 <= i < |users| ==> users[i].email != email
  {
    FirstUser(users, (v: User) => v.email == email)
  }

  /** `SELECT * FROM users WHERE id = ?`. */
  function UserWithId(users: seq<User>, id: nat): (r: Option<User>)
    ensures r.Some? ==> r.value in users && r.value.id == id
    ensures r.None? <==> forall i :: 0 <= i < |users| ==> users[i].id != id
  {
    FirstUser(users, (v: User) => v.id == id)
  }

  /** The UNIQUE constraint on `users.email`. */
  predicate EmailsUnique(users: seq<User>) {
    forall i, j :: 0 <= i < j < |users| ==> users[i].email != users[j].email
  }

  /** Under the UNIQUE constraint, looking a stored user up by email finds
      exactly that user. */
  lemma LookupByEmailFinds(users: seq<User>, u: User)
    requires EmailsUnique(users) && u in users
    ensures UserWithEmail(users, u.email) == Some(u)
  {
    var k :| 0 <= k < |users| && users[k] == u;
    forall i | 0 <= i < |users| && users[i].email == u.email ensures users[i] == u {
      assert i == k;
    }
    FirstUserOnly(users, (v: User) => v.email == u.email, u);
  }

  /** Ids in increasing order: looking a stored user up by id finds exactly
      that user. */
  lemma LookupByIdFinds(users: seq<User>, u: User)
    requires forall i, j :: 0 <= i < j < |users| ==> users[i].id < users[j].id
    requires u in users
    ensures UserWithId(users, u.id) == Some(u)
  {
    var k :| 0 <= k < |users| && users[k] == u;
    forall i | 0 <= i < |users| && users[i].id == u.id ensures users[i] == u {
      assert i == k;
    }
    FirstUserOnly(users, (v: User) => v.id == u.id, u);
  }

  /** Position of the transaction row with this id. */
  function RowOf(rows: seq<Transaction>, id: nat): (r: Option<nat>)
    ensures r.Some? ==> r.value < |rows| && rows[r.value].id == id
    ensures r.None? <==> forall i :: 0 <= i < |rows| ==> rows[i].id != id
  {
    if rows == [] then None
    else if rows[0].id == id then Some(0)
    else match RowOf(rows[1..], id)
      case None => None
      case Some(k) => Some(k + 1)
  }

  function TimestampKey(t: Transaction): int {
    t.timestamp
  }

  predicate OwnedBy(userId: nat, t: Transaction) {
    t.userId == userId
  }

  /** `SELECT * FROM transactions WHERE user_id = ? ORDER BY timestamp DESC
      LIMIT 50`. The query has no tie-breaker, so SQLite leaves open the
      order of rows with equal timestamps and which of them make the 50;
      this model chooses to keep them in table order. */
  function History(rows: seq<Transaction>, userId: nat): (h: seq<Transaction>)
    ensures |h| <= HistoryLimit
  {
    Seqs.Take(Seqs.SortDesc(Seqs.Filter(rows, t => OwnedBy(userId, t)), TimestampKey), HistoryLimit)
  }

  /** The history holds only the user's own rows, newest first, at most 50
      of them, all 50 when the user has that many, and no row of the user
      left out is newer than one shown. */
  lemma HistoryIsNewestOwnRows(rows: seq<Transaction>, userId: nat)
    ensures var h := History(rows, userId);
            var own := Seqs.Filter(rows, t => OwnedBy(userId, t));
            && |h| == (if |own| <= HistoryLimit then |own| else HistoryLimit)
            && (forall i :: 0 <= i < |h| ==> h[i] in rows && h[i].userId == userId)
            && (forall i, j :: 0 <= i < j < |h| ==> h[i].timestamp >= h[j].timestamp)
            && (forall t, i :: t in own && t !in h && 0 <= i < |h| ==> h[i].timestamp >= t.timestamp)
  {
    var own := Seqs.Filter(rows, t => OwnedBy(userId, t));
    Seqs.FilterMembers(rows, t => OwnedBy(userId, t));
    var sorted := Seqs.SortDesc(own, TimestampKey);
    var h := History(rows, userId);
    assert h == sorted[..|h|];
    NewestPrefix(own, sorted, h);
  }

  /** A prefix of a newest-first arrangement of `own` holds rows of `own`,
      newest first, and none of the rows it leaves out is newer. */
  lemma NewestPrefix(own: seq<Transaction>, sorted: seq<Transaction>, h: seq<Transaction>)
    requires multiset(sorted) == multiset(own) && Seqs.SortedDesc(sorted, TimestampKey)
    requires |h| <= |sorted| && h == sorted[..|h|]
    ensures forall i :: 0 <= i < |h| ==> h[i] in own
    ensures forall i, j :: 0 <= i < j < |h| ==> h[i].timestamp >= h[j].timestamp
    ensures forall t, i :: t in own && t !in h && 0 <= i < |h| ==> h[i].timestamp >= t.timestamp
  {
    forall i | 0 <= i < |h| ensures h[i] in own {
      assert h[i] in multiset(sorted);
    }
    forall i, j | 0 <= i < j < |h| ensures h[i].timestamp >= h[j].timestamp {
      assert TimestampKey(sorted[i]) >= TimestampKey(sorted[j]);
    }
    forall t, i | t in own && t !in h && 0 <= i < |h| ensures h[i].timestamp >= t.timestamp {
      assert t in multiset(sorted);
      var k :| 0 <= k < |sorted| && sorted[k] == t;
      assert TimestampKey(sorted[i]) >= TimestampKey(sorted[k]);
    }
  }

  // ---------------------------------------------------------------------
  // the store object

  class Database {
    var users: seq<User>
    var transactions: seq<Transaction>
    /** Last id handed out for each table (SQLite's `sqlite_sequence`). */
    var lastUserId: nat
    var lastTransactionId: nat
    /** Every `updateTransactionStatus` call made, as (id, status). */
    ghost var statusWrites: seq<(nat, Status)>

    /** The schema's constraints: ids are positive, increasing and never
        above the sequence; `users.email` is UNIQUE. */
    predicate Valid()
      reads this
    {
      && (forall i :: 0 <= i < |users| ==> 0 < users[i].id <= lastUserId)
      && (forall i, j :: 0 <= i < j < |users| ==> users[i].id < users[j].id)
      && EmailsUnique(users)
      && (forall i :: 0 <= i < |transactions| ==> 0 < transactions[i].id <= lastTransactionId)
      && (forall i, j :: 0 <= i < j < |transactions| ==> transactions[i].id < transactions[j].id)
    }

    /** The tables `initialize` creates in a new database file. */
    constructor ()
      ensures Valid()
      ensures users == [] && transactions == []
      ensures lastUserId == 0 && lastTransactionId == 0
      ensures statusWrites == []
    {
      users, transactions := [], [];
      lastUserId, lastTransactionId := 0, 0;
      statusWrites := [];
    }

    /** `createUser`: hashes the given password with cost 12 and inserts
        the row; a second row with the same email violates UNIQUE. */
    method CreateUser(email: string, password: Credential, role: Role, now: nat, fault: bool)
      returns (r: Result<User, StoreError>)
      requires Valid()
      modifies this
      ensures Valid()
      ensures fault ==> r == Err(IoFault)
      ensures !fault && UserWithEmail(old(users), email).Some? ==> r == Err(UniqueViolation("users.email"))
      ensures !fault && UserWithEmail(old(users), email).None? ==>
                r == Ok(User(old(lastUserId) + 1, email, Digest(password, UserHashRounds), role, now))
      ensures r.Ok? ==> users == old(users) + [r.value] && lastUserId == r.value.id
      ensures r.Err? ==> users == old(users) && lastUserId == old(lastUserId)
      ensures transactions == old(transactions) && lastTransactionId == old(lastTransactionId)
      ensures statusWrites == old(statusWrites)
    {
      var hashed := Digest(password, UserHashRounds);
      if fault {
        return Err(IoFault);
      }
      if UserWithEmail(users, email).Some? {
        return Err(UniqueViolation("users.email"));
      }
      var user := User(lastUserId + 1, email, hashed, role, now);
      users := users + [user];
      lastUserId := lastUserId + 1;
      r := Ok(user);
    }

    /** `findUserByEmail`: the row with that email, or null. */
    method FindUserByEmail(email: string, fault: bool) returns (r: Result<Option<User>, StoreError>)
      ensures fault <==> r.Err?
      ensures r.Err? ==> r.error == IoFault
      ensures r.Ok? ==> r.value == UserWithEmail(users, email)
    {
      if fault {
        return Err(IoFault);
      }
      r := Ok(UserWithEmail(users, email));
    }

    /** `findUserById`: the row with that id, or null. */
    method FindUserById(id: nat, fault: bool) returns (r: Result<Option<User>, StoreError>)
      ensures fault <==> r.Err?
      ensures r.Err? ==> r.error == IoFault
      ensures r.Ok? ==> r.value == UserWithId(users, id)
    {
      if fault {
        return Err(IoFault);
      }
      r := Ok(UserWithId(users, id));
    }

    /** `createTransaction(userId, recipient, amount, currency)`: inserts
        the row with status 'completed', whatever the caller passed. */
    method CreateTransaction(userId: nat, recipient: string, amount: int, currency: string,
                             now: nat, fault: bool)
      returns (r: Result<Transaction, StoreError>)
      requires Valid()
      modifies this
      ensures Valid()
      ensures fault <==> r.Err?
      ensures r.Err? ==> r.error == IoFault
      ensures r.Ok? ==> r.value == Transaction(old(lastTransactionId) + 1, userId, recipient, amount,
                                               currency, Completed, now)
      ensures r.Ok? ==> transactions == old(transactions) + [r.value] && lastTransactionId == r.value.id
      ensures r.Err? ==> transactions == old(transactions) && lastTransactionId == old(lastTransactionId)
      ensures users == old(users) && lastUserId == old(lastUserId)
      ensures statusWrites == old(statusWrites)
    {
      if fault {
        return Err(IoFault);
      }
      var t := Transaction(lastTransactionId + 1, userId, recipient, amount, currency, Completed, now);
      transactions := transactions + [t];
      lastTransactionId := lastTransactionId + 1;
      r := Ok(t);
    }

    /** The object-form insert the transaction controller calls: the row
        keeps the status and timestamp it is given. */
    method InsertTransaction(row: NewTransaction, fault: bool) returns (r: Result<Transaction, StoreError>)
      requires Valid()
      modifies this
      ensures Valid()
      ensures fault <==> r.Err?
      ensures r.Err? ==> r.error == IoFault
      ensures r.Ok? ==> r.value == Transaction(old(lastTransactionId) + 1, row.userId, row.recipient,
                                               row.amount, row.currency, row.status, row.timestamp)
      ensures r.Ok? ==> transactions == old(transactions) + [r.value] && lastTransactionId == r.value.id
      ensures r.Err? ==> transactions == old(transactions) && lastTransactionId == old(lastTransactionId)
      ensures users == old(users) && lastUserId == old(lastUserId)
      ensures statusWrites == old(statusWrites)
    {
      if fault {
        return Err(IoFault);
      }
      var t := Transaction(lastTransactionId + 1, row.userId, row.recipient, row.amount,
                           row.currency, row.status, row.timestamp);
      transactions := transactions + [t];
      lastTransactionId := lastTransactionId + 1;
      r := Ok(t);
    }

    /** `updateTransactionStatus(id, status)`: overwrites the status of the
        row with that id, without looking at its current status, and
        returns the updated row. */
    method UpdateTransactionStatus(id: nat, status: Status, fault: bool)
      returns (r: Result<Transaction, StoreError>)
      requires Valid()
      modifies this
      ensures Valid()
      ensures fault ==> r == Err(IoFault) && transactions == old(transactions)
      ensures !fault && RowOf(old(transactions), id).None? ==>
                r == Err(NoSuchRow) && transactions == old(transactions)
      ensures !fault && RowOf(old(transactions), id).Some? ==>
                var k := RowOf(old(transactions), id).value;
                && r == Ok(old(transactions)[k].(status := status))
                && transactions == old(transactions)[k := r.value]
      ensures users == old(users) && lastUserId == old(lastUserId)
      ensures lastTransactionId == old(lastTransactionId)
      ensures statusWrites == old(statusWrites) + [(id, status)]
    {
      statusWrites := statusWrites + [(id, status)];
      if fault {
        return Err(IoFault);
      }
      match RowOf(transactions, id)
      case None =>
        r := Err(NoSuchRow);
      case Some(k) =>
        var t := transactions[k].(status := status);
        transactions := transactions[k := t];
        r := Ok(t);
    }

    /** `getUserTransactions`: the user's newest 50 rows, newest first. */
    method GetUserTransactions(userId: nat, fault: bool) returns (r: Result<seq<Transaction>, StoreError>)
      ensures fault <==> r.Err?
      ensures r.Err? ==> r.error == IoFault
      ensures r.Ok? ==> r.value == History(transactions, userId)
    {
      if fault {
        return Err(IoFault);
      }
      r := Ok(History(transactions, userId));
    }
  }

  /** The one place `DatabaseService.getInstance` keeps its instance. */
  class Registry {
    var instance: Database?

    constructor ()
      ensures instance == null
    {
      instance := null;
    }

    /** `getInstance`: creates the store on the first call and returns that
        same object on every later call. */
    method GetInstance() returns (db: Database)
      modifies this
      ensures instance == db
      ensures old(instance) != null ==> db == old(instance)
      ensures old(instance) == null ==> fresh(db) && db.Valid() && db.users == [] && db.transactions == []
    {
      if instance == null {
        instance := new Database();
      }
      db := instance;
    }
  }

  /** Two calls of `getInstance` give the same object. */
  method GetInstanceIsShared() returns (same: bool)
    ensures same
  {
    var registry := new Registry();
    var first := registry.GetInstance();
    var second := registry.GetInstance();
    same := first == second;
  }

  /** Inserting twice with one email: the first succeeds, the second is
      refused by the UNIQUE constraint and leaves the table as it was. */
  method DuplicateEmailRejected(email: string, p1: Credential, p2: Credential, now: nat)
    returns (first: Result<User, StoreError>, second: Result<User, StoreError>, rows: nat)
    ensures first.Ok? && first.value.id == 1
    ensures second == Err(UniqueViolation("users.email"))
    ensures rows == 1
  {
    var db := new Database();
    first := db.CreateUser(email, p1, Psp, now, false);
    second := db.CreateUser(email, p2, Dev, now, false);
    rows := |db.users|;
  }
}
