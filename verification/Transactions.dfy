/** Transactions and statements at the grain of single SQL statements, any number of them interleaved,
    and the proof that they behave as if run one at a time in commit order.

    A wallet transaction works on one wallet row. SELECT ... FOR UPDATE takes the row lock and reads the
    row version committed last; UPDATE and INSERT stay private until COMMIT, which publishes the row,
    the new ledger rows and whatever else the transaction wrote. Inserting a usage record claims its job
    id in the unique index: a second insert waits for the first transaction to end. Updating the job row
    locks it. Any transaction may roll back at any moment. */
module Transactions {
  import opened Credits
  import opened Settlement

  /** What a transaction writes after its ledger entries: an audit row, or a usage record and the status
      of its job. */
  datatype Tail = Nothing | Audit(row: Adjustment) | Record(usage: Usage)

  /** A whole transaction: its addLedger calls on one wallet, and its tail. */
  datatype Work = Work(wallet: nat, ops: seq<Op>, tail: Tail)

  /** Where a transaction stands inside the current addLedger call, */
  datatype Stage = Idle | Selected(balance: int, reserved: int) | Updated

  /** and in its tail. */
  datatype Written = Unwritten | Inserted | Marked

  /** `balance` and `reserved` are the transaction's own version of the locked row. */
  datatype Tx = Tx(work: Work, done: nat, stage: Stage, balance: int, reserved: int, inserted: seq<Entry>,
                   written: Written)

  /** `locks` are the locked wallet rows, `claims` the job ids of uncommitted usage records. */
  datatype Db = Db(tables: Tables, locks: map<nat, nat>, claims: map<nat, nat>, txs: map<nat, Tx>)

  /** Statements that are a transaction of their own. A registration counts as one: nobody sees its
      wallet before it commits. */
  datatype Single =
    | SignUp(email: string, grant: int)
    | OpenWallet
    | NewJob(id: nat, inputTokens: int, outputTokens: int)
    | SetStatus(job: nat, status: JobStatus)

  datatype Label =
    | Begin(t: nat, work: Work)
    | SelectForUpdate(t: nat)
    | Update(t: nat)
    | Insert(t: nat)
    | WriteTail(t: nat)
    | MarkSucceeded(t: nat)
    | Commit(t: nat)
    | Rollback(t: nat)
    | Execute(statement: Single)

  predicate Holds(db: Db, t: nat) {
    t in db.txs && db.txs[t].work.wallet in db.locks && db.locks[db.txs[t].work.wallet] == t
  }

  /** The job id the transaction has claimed. */
  function Claim(tx: Tx): Option<nat> {
    if tx.work.tail.Record? && tx.written != Unwritten then Some(tx.work.tail.usage.job) else None
  }

  /** COMMIT or ROLLBACK ends the transaction and frees its lock and its claim. */
  function End(db: Db, t: nat): Db
    requires t in db.txs
  {
    db.(txs := db.txs - {t},
        locks := if Holds(db, t) then db.locks - {db.txs[t].work.wallet} else db.locks,
        claims := if Claim(db.txs[t]).Some? then db.claims - {Claim(db.txs[t]).value} else db.claims)
  }

  function SetTx(db: Db, t: nat, tx: Tx): Db {
    db.(txs := db.txs[t := tx])
  }

  predicate CanSelect(db: Db, t: nat) {
    && t in db.txs
    && !db.txs[t].stage.Updated?
    && db.txs[t].done < |db.txs[t].work.ops|
    && db.txs[t].work.wallet < |db.tables.accounts|
    && (db.txs[t].work.wallet in db.locks ==> db.locks[db.txs[t].work.wallet] == t)
  }

  /** The lock is taken if it is free; a second SELECT reads the transaction's own version. */
  function DoSelect(db: Db, t: nat): Db
    requires CanSelect(db, t)
  {
    var tx := db.txs[t];
    var row := if Holds(db, t) then (tx.balance, tx.reserved)
               else (db.tables.accounts[tx.work.wallet].balance, db.tables.accounts[tx.work.wallet].reserved);
    SetTx(db, t, tx.(stage := Selected(row.0, row.1), balance := row.0, reserved := row.1))
      .(locks := db.locks[tx.work.wallet := t])
  }

  predicate CanUpdate(db: Db, t: nat) {
    t in db.txs && db.txs[t].stage.Selected? && db.txs[t].done < |db.txs[t].work.ops|
  }

  /** The sums are computed from the values read; a negative one makes the transaction roll back. */
  function DoUpdate(db: Db, t: nat): Db
    requires CanUpdate(db, t)
  {
    var tx := Updating(db.txs[t]);
    if tx.None? then End(db, t) else SetTx(db, t, tx.value)
  }

  function Updating(tx: Tx): Option<Tx>
    requires tx.stage.Selected? && tx.done < |tx.work.ops|
  {
    var op := tx.work.ops[tx.done];
    var balance := Wrap64(tx.stage.balance + op.amount);
    var reserved := Wrap64(tx.stage.reserved + op.reservedDelta);
    if balance < 0 || reserved < 0 then None
    else Some(tx.(stage := Updated, balance := balance, reserved := reserved))
  }

  predicate CanInsert(db: Db, t: nat) {
    t in db.txs && db.txs[t].stage.Updated? && db.txs[t].done < |db.txs[t].work.ops|
  }

  function DoInsert(db: Db, t: nat): Db
    requires CanInsert(db, t)
  {
    var tx := db.txs[t];
    var entry := Entry(tx.work.ops[tx.done], tx.balance, tx.reserved);
    SetTx(db, t, tx.(stage := Idle, done := tx.done + 1, inserted := tx.inserted + [entry]))
  }

  /** All ledger entries are written. */
  predicate LedgerDone(tx: Tx) {
    tx.stage.Idle? && tx.done == |tx.work.ops|
  }

  /** A value that does not fit is refused at once; an insert that meets an uncommitted claim waits. */
  predicate CanWriteTail(db: Db, t: nat) {
    && t in db.txs && LedgerDone(db.txs[t]) && db.txs[t].written == Unwritten && !db.txs[t].work.tail.Nothing?
    && (db.txs[t].work.tail.Record? && FitsUsage(db.txs[t].work.tail.usage.measured) ==>
          db.txs[t].work.tail.usage.job !in db.claims)
  }

  predicate RecordAllowed(tables: Tables, u: Usage) {
    FitsUsage(u.measured) && UsageAllowed(tables, u.job)
  }

  function DoWriteTail(db: Db, t: nat): Db
    requires CanWriteTail(db, t)
  {
    var tx := db.txs[t];
    match tx.work.tail
    case Audit(_) => SetTx(db, t, tx.(written := Inserted))
    case Record(u) =>
      if !RecordAllowed(db.tables, u) then End(db, t)
      else SetTx(db, t, tx.(written := Inserted)).(claims := db.claims[u.job := t])
    case Nothing => db
  }

  /** UPDATE inference_jobs by a transaction that inserted the usage record. */
  predicate CanMark(db: Db, t: nat) {
    t in db.txs && db.txs[t].work.tail.Record? && db.txs[t].written == Inserted
  }

  predicate TailDone(tx: Tx) {
    match tx.work.tail
    case Nothing => true
    case Audit(_) => tx.written != Unwritten
    case Record(_) => tx.written == Marked
  }

  predicate CanCommit(db: Db, t: nat) {
    t in db.txs && LedgerDone(db.txs[t]) && TailDone(db.txs[t])
  }

  /** The tail on committed tables. */
  function WithTail(tables: Tables, tail: Tail): Tables {
    match tail
    case Nothing => tables
    case Audit(row) => tables.(audit := tables.audit + [row])
    case Record(u) => MarkJob(tables.(usage := tables.usage + [u]), u.job, Succeeded)
  }

  /** Publishing overwrites the wallet row and appends the ledger rows to whatever is committed by then. */
  function DoCommit(db: Db, t: nat): Db
    requires CanCommit(db, t)
  {
    var tx := db.txs[t];
    var w := tx.work.wallet;
    var accounts :=
      if Holds(db, t) && w < |db.tables.accounts| then
        db.tables.accounts[w := Account(tx.balance, tx.reserved, db.tables.accounts[w].ledger + tx.inserted)]
      else db.tables.accounts;
    End(db, t).(tables := WithTail(db.tables.(accounts := accounts), tx.work.tail))
  }

  /** A statement waits for the row lock of a transaction that has updated the job. */
  predicate CanExecute(db: Db, q: Single) {
    q.SetStatus? && q.job in db.claims && db.claims[q.job] in db.txs ==> db.txs[db.claims[q.job]].written != Marked
  }

  /** None is an error: nothing is changed. */
  function Perform(tables: Tables, q: Single): Option<Tables> {
    match q
    case SignUp(email, grant) => Accepted(Register(tables, email, grant))
    case OpenWallet => Some(tables.(accounts := tables.accounts + [NEW_ACCOUNT]))
    case NewJob(id, inputTokens, outputTokens) => Accepted(CreateJob(tables, id, inputTokens, outputTokens))
    case SetStatus(job, status) => Some(MarkJob(tables, job, status))
  }

  function Accepted<T>(r: Result<T>): Option<T> {
    if r.Ok? then Some(r.value) else None
  }

  function DoExecute(db: Db, q: Single): Db {
    var r := Perform(db.tables, q);
    if r.Some? then db.(tables := r.value) else db
  }

  /** One step; a label that is not enabled changes nothing (the transaction waits). */
  function Next(db: Db, l: Label): Db {
    match l
    case Begin(t, work) => if t in db.txs then db else SetTx(db, t, Tx(work, 0, Idle, 0, 0, [], Unwritten))
    case SelectForUpdate(t) => if CanSelect(db, t) then DoSelect(db, t) else db
    case Update(t) => if CanUpdate(db, t) then DoUpdate(db, t) else db
    case Insert(t) => if CanInsert(db, t) then DoInsert(db, t) else db
    case WriteTail(t) => if CanWriteTail(db, t) then DoWriteTail(db, t) else db
    case MarkSucceeded(t) => if CanMark(db, t) then SetTx(db, t, db.txs[t].(written := Marked)) else db
    case Commit(t) => if CanCommit(db, t) then DoCommit(db, t) else db
    case Rollback(t) => if t in db.txs then End(db, t) else db
    case Execute(q) => if CanExecute(db, q) then DoExecute(db, q) else db
  }

  function Run(db: Db, ls: seq<Label>): Db {
    if ls == [] then db else Next(Run(db, ls[..|ls| - 1]), ls[|ls| - 1])
  }

  // ---- The atomic form ----

  datatype Item = Whole(work: Work) | Alone(statement: Single)

  function WithOps(accounts: seq<Account>, w: nat, ops: seq<Op>): Option<seq<Account>> {
    if ops == [] then Some(accounts)
    else if w >= |accounts| then None
    else
      var r := RunOps(accounts[w], ops);
      if r.None? then None else Some(accounts[w := r.value])
  }

  /** A whole transaction or statement in one step on the committed tables. */
  function Atomic(tables: Tables, item: Item): Option<Tables> {
    match item
    case Alone(q) => Perform(tables, q)
    case Whole(work) =>
      var r := WithOps(tables.accounts, work.wallet, work.ops);
      if r.None? then None
      else if work.tail.Record? && !RecordAllowed(tables, work.tail.usage) then None
      else Some(WithTail(tables.(accounts := r.value), work.tail))
  }

  /** Whole transactions and statements one after the other; every one of them must be accepted. */
  function Serial(tables: Tables, items: seq<Item>): Option<Tables> {
    if items == [] then Some(tables)
    else
      var r := Serial(tables, items[..|items| - 1]);
      if r.None? then None else Atomic(r.value, items[|items| - 1])
  }

  /** What a step commits. */
  function Commits(db: Db, l: Label): seq<Item> {
    if l.Commit? && CanCommit(db, l.t) then [Whole(db.txs[l.t].work)]
    else if l.Execute? && CanExecute(db, l.statement) && Perform(db.tables, l.statement).Some? then [Alone(l.statement)]
    else []
  }

  /** What a run commits, in the order it commits it. */
  function CommitOrder(db: Db, ls: seq<Label>): seq<Item> {
    if ls == [] then []
    else CommitOrder(db, ls[..|ls| - 1]) + Commits(Run(db, ls[..|ls| - 1]), ls[|ls| - 1])
  }

  // ---- The invariant ----

  /** What the transaction would publish now. */
  function View(accounts: seq<Account>, tx: Tx): Account
    requires tx.work.wallet < |accounts|
  {
    Account(tx.balance, tx.reserved, accounts[tx.work.wallet].ledger + tx.inserted)
  }

  /** A lock holder has run a prefix of its operations on the committed row. */
  predicate HolderOk(accounts: seq<Account>, tx: Tx) {
    && tx.work.wallet < |accounts|
    && tx.done <= |tx.work.ops|
    && var prefix := RunOps(accounts[tx.work.wallet], tx.work.ops[..tx.done]);
       match tx.stage
       case Idle => prefix == Some(View(accounts, tx))
       case Selected(b, r) =>
         && tx.done < |tx.work.ops|
         && prefix == Some(View(accounts, tx)) && b == tx.balance && r == tx.reserved
       case Updated =>
         && tx.done < |tx.work.ops|
         && prefix.Some?
         && var op := tx.work.ops[tx.done];
            AddLedger(prefix.value, op) ==
            Some(View(accounts, tx.(inserted := tx.inserted + [Entry(op, tx.balance, tx.reserved)])))
  }

  /** A transaction without the lock has not started on its ledger entries. */
  predicate WaiterOk(tx: Tx) {
    tx.done == 0 && tx.stage.Idle? && tx.inserted == []
  }

  predicate LedgerOk(accounts: seq<Account>, tx: Tx, holds: bool) {
    if holds then HolderOk(accounts, tx) else WaiterOk(tx)
  }

  /** A tail is written after the ledger entries, and a usage record only under a claim to a job that no
      committed record names. */
  predicate TailOk(tables: Tables, claims: map<nat, nat>, t: nat, tx: Tx) {
    && (tx.written != Unwritten ==> LedgerDone(tx))
    && (Claim(tx).Some? ==>
          && Claim(tx).value in claims && claims[Claim(tx).value] == t
          && RecordAllowed(tables, tx.work.tail.usage))
  }

  ghost predicate LocksOk(db: Db) {
    && (forall w :: w in db.locks ==> db.locks[w] in db.txs && db.txs[db.locks[w]].work.wallet == w)
    && (forall t :: t in db.txs ==> LedgerOk(db.tables.accounts, db.txs[t], Holds(db, t)))
  }

  ghost predicate ClaimsOk(db: Db) {
    && (forall j :: j in db.claims ==> db.claims[j] in db.txs && Claim(db.txs[db.claims[j]]) == Some(j))
    && (forall t :: t in db.txs ==> TailOk(db.tables, db.claims, t, db.txs[t]))
  }

  ghost predicate Inv(db: Db) {
    LocksOk(db) && ClaimsOk(db)
  }

  predicate Start(db: Db) {
    db.locks == map[] && db.claims == map[] && db.txs == map[]
  }

  lemma EndKeepsInv(db: Db, t: nat)
    requires Inv(db) && t in db.txs
    ensures Inv(End(db, t))
  {
    hide LedgerOk, TailOk, Claim;
    var n := End(db, t);
    forall u | u in n.txs
      ensures LedgerOk(n.tables.accounts, n.txs[u], Holds(n, u))
    {
      assert Holds(n, u) == Holds(db, u);
    }
    forall u | u in n.txs
      ensures TailOk(n.tables, n.claims, u, n.txs[u])
    {
      EndKeepsTail(db, t, u);
    }
  }

  lemma EndKeepsTail(db: Db, t: nat, u: nat)
    requires Inv(db) && t in db.txs && u in db.txs && u != t
    ensures TailOk(End(db, t).tables, End(db, t).claims, u, db.txs[u])
  {
    hide LocksOk, RecordAllowed;
    assert TailOk(db.tables, db.claims, u, db.txs[u]) && TailOk(db.tables, db.claims, t, db.txs[t]);
  }

  /** A step of one transaction on its ledger entries only has to look at that transaction. */
  lemma HolderStepKeepsInv(db: Db, t: nat, tx: Tx)
    requires Inv(db) && Holds(db, t)
    requires tx.work == db.txs[t].work && tx.written == db.txs[t].written == Unwritten
    requires HolderOk(db.tables.accounts, tx)
    ensures Inv(SetTx(db, t, tx))
  {
    hide HolderOk, RecordAllowed;
    var n := SetTx(db, t, tx);
    forall u | u in n.txs
      ensures LedgerOk(n.tables.accounts, n.txs[u], Holds(n, u)) && TailOk(n.tables, n.claims, u, n.txs[u])
    {
      assert Holds(n, u) == Holds(db, u);
      assert u != t ==> TailOk(db.tables, db.claims, u, db.txs[u]);
    }
  }

  lemma SelectKeepsInv(db: Db, t: nat)
    requires Inv(db) && CanSelect(db, t)
    ensures Inv(DoSelect(db, t))
  {
    var tx := db.txs[t];
    var next := DoSelect(db, t).txs[t];
    assert LedgerOk(db.tables.accounts, tx, Holds(db, t)) && TailOk(db.tables, db.claims, t, tx);
    if Holds(db, t) {
      assert DoSelect(db, t) == SetTx(db, t, next);
      hide Inv;
      HolderStepKeepsInv(db, t, next);
    } else {
      FirstSelect(db.tables.accounts, next);
      hide Inv, HolderOk;
      AcquireKeepsInv(db, t, next);
    }
  }

  /** Taking a free lock. */
  lemma AcquireKeepsInv(db: Db, t: nat, tx: Tx)
    requires Inv(db) && t in db.txs && tx.work == db.txs[t].work && tx.work.wallet !in db.locks
    requires tx.written == db.txs[t].written == Unwritten && HolderOk(db.tables.accounts, tx)
    ensures Inv(SetTx(db, t, tx).(locks := db.locks[tx.work.wallet := t]))
  {
    hide HolderOk, RecordAllowed;
    var n := SetTx(db, t, tx).(locks := db.locks[tx.work.wallet := t]);
    forall u | u in n.txs
      ensures LedgerOk(n.tables.accounts, n.txs[u], Holds(n, u)) && TailOk(n.tables, n.claims, u, n.txs[u])
    {
      assert u != t ==> Holds(n, u) == Holds(db, u);
      assert u != t ==> TailOk(db.tables, db.claims, u, db.txs[u]);
    }
  }

  lemma FirstSelect(accounts: seq<Account>, tx: Tx)
    requires tx.work.wallet < |accounts| && tx.done == 0 && 0 < |tx.work.ops| && tx.inserted == []
    requires tx.balance == accounts[tx.work.wallet].balance && tx.reserved == accounts[tx.work.wallet].reserved
    requires tx.stage == Selected(tx.balance, tx.reserved)
    ensures HolderOk(accounts, tx)
  {
    assert accounts[tx.work.wallet].ledger + [] == accounts[tx.work.wallet].ledger;
    assert tx.work.ops[..0] == [];
  }

  lemma UpdatedIsOk(accounts: seq<Account>, tx: Tx)
    requires HolderOk(accounts, tx) && tx.stage.Selected? && Updating(tx).Some?
    ensures HolderOk(accounts, Updating(tx).value)
  {
    hide Wrap64;
    var op := tx.work.ops[tx.done];
    var next := AddLedger(View(accounts, tx), op).value;
    var e := Entry(op, next.balance, next.reserved);
    assert (accounts[tx.work.wallet].ledger + tx.inserted) + [e]
        == accounts[tx.work.wallet].ledger + (tx.inserted + [e]);
  }

  lemma UpdateKeepsInv(db: Db, t: nat)
    requires Inv(db) && CanUpdate(db, t)
    ensures Inv(DoUpdate(db, t))
  {
    hide Wrap64;
    var tx := db.txs[t];
    assert LedgerOk(db.tables.accounts, tx, Holds(db, t)) && TailOk(db.tables, db.claims, t, tx);
    var updated := Updating(tx);
    if updated.Some? {
      UpdatedIsOk(db.tables.accounts, tx);
      hide Inv, HolderOk, Updating;
      HolderStepKeepsInv(db, t, updated.value);
    } else {
      hide Inv, HolderOk, Updating;
      EndKeepsInv(db, t);
    }
  }

  lemma InsertedIsOk(accounts: seq<Account>, tx: Tx)
    requires HolderOk(accounts, tx) && tx.stage.Updated? && tx.done < |tx.work.ops|
    ensures HolderOk(accounts, tx.(stage := Idle, done := tx.done + 1,
                                   inserted := tx.inserted + [Entry(tx.work.ops[tx.done], tx.balance, tx.reserved)]))
  {
    hide AddLedger;
    assert tx.work.ops[..tx.done + 1][..tx.done] == tx.work.ops[..tx.done];
  }

  lemma InsertKeepsInv(db: Db, t: nat)
    requires Inv(db) && CanInsert(db, t)
    ensures Inv(DoInsert(db, t))
  {
    var tx := db.txs[t];
    assert LedgerOk(db.tables.accounts, tx, Holds(db, t)) && TailOk(db.tables, db.claims, t, tx);
    InsertedIsOk(db.tables.accounts, tx);
    hide Inv, HolderOk;
    HolderStepKeepsInv(db, t, DoInsert(db, t).txs[t]);
  }

  /** A step of one transaction in its tail. */
  predicate TailStep(db: Db, t: nat, tx: Tx, claims: map<nat, nat>) {
    && t in db.txs && LedgerDone(tx)
    && tx == db.txs[t].(written := tx.written) && tx.written != Unwritten
    && claims == (if Claim(tx).Some? then db.claims[Claim(tx).value := t] else db.claims)
    && (Claim(tx).Some? ==>
          && RecordAllowed(db.tables, tx.work.tail.usage)
          && (Claim(tx).value in db.claims ==> db.claims[Claim(tx).value] == t))
  }

  lemma TailStepKeepsLocks(db: Db, t: nat, tx: Tx, claims: map<nat, nat>)
    requires Inv(db) && TailStep(db, t, tx, claims)
    ensures LocksOk(SetTx(db, t, tx).(claims := claims))
  {
    hide ClaimsOk, RecordAllowed, Claim;
    var n := SetTx(db, t, tx).(claims := claims);
    forall u | u in n.txs
      ensures LedgerOk(n.tables.accounts, n.txs[u], Holds(n, u))
    {
      assert Holds(n, u) == Holds(db, u);
      assert LedgerOk(db.tables.accounts, db.txs[u], Holds(db, u));
    }
  }

  lemma TailStepKeepsTail(db: Db, t: nat, tx: Tx, claims: map<nat, nat>, u: nat)
    requires ClaimsOk(db) && TailStep(db, t, tx, claims) && u in db.txs && u != t
    ensures TailOk(db.tables, claims, u, db.txs[u])
  {
    hide RecordAllowed, LedgerDone;
    assert TailOk(db.tables, db.claims, u, db.txs[u]);
  }

  lemma TailStepKeepsClaims(db: Db, t: nat, tx: Tx, claims: map<nat, nat>)
    requires Inv(db) && TailStep(db, t, tx, claims)
    ensures ClaimsOk(SetTx(db, t, tx).(claims := claims))
  {
    hide LocksOk, RecordAllowed, LedgerDone;
    var n := SetTx(db, t, tx).(claims := claims);
    assert TailOk(db.tables, db.claims, t, db.txs[t]);
    forall u | u in n.txs
      ensures TailOk(n.tables, n.claims, u, n.txs[u])
    {
      if u != t {
        TailStepKeepsTail(db, t, tx, claims, u);
      }
    }
  }

  lemma TailStepKeepsInv(db: Db, t: nat, tx: Tx, claims: map<nat, nat>)
    requires Inv(db) && TailStep(db, t, tx, claims)
    ensures Inv(SetTx(db, t, tx).(claims := claims))
  {
    hide TailStep, LocksOk, ClaimsOk;
    TailStepKeepsLocks(db, t, tx, claims);
    TailStepKeepsClaims(db, t, tx, claims);
  }

  lemma WriteTailKeepsInv(db: Db, t: nat)
    requires Inv(db) && CanWriteTail(db, t)
    ensures Inv(DoWriteTail(db, t))
  {
    hide Inv;
    var tx := db.txs[t].(written := Inserted);
    match tx.work.tail
    case Audit(_) => TailStepKeepsInv(db, t, tx, db.claims);
    case Record(u) =>
      if RecordAllowed(db.tables, u) {
        TailStepKeepsInv(db, t, tx, db.claims[u.job := t]);
      } else {
        EndKeepsInv(db, t);
      }
    case Nothing =>
  }

  lemma MarkKeepsInv(db: Db, t: nat)
    requires Inv(db) && CanMark(db, t)
    ensures Inv(SetTx(db, t, db.txs[t].(written := Marked)))
  {
    var tx := db.txs[t];
    assert TailOk(db.tables, db.claims, t, tx);
    hide Inv;
    TailStepKeepsInv(db, t, tx.(written := Marked), db.claims);
  }

  // ---- Steps that change the committed tables ----

  /** Committed tables may move on as long as locked wallets and claimed jobs do not. */
  ghost predicate Undisturbed(db: Db, tables: Tables) {
    && |tables.accounts| >= |db.tables.accounts|
    && (forall w :: w in db.locks && w < |db.tables.accounts| ==> tables.accounts[w] == db.tables.accounts[w])
    && (forall t :: t in db.txs && Claim(db.txs[t]).Some? ==> RecordAllowed(tables, db.txs[t].work.tail.usage))
  }

  lemma UndisturbedKeepsInv(db: Db, tables: Tables)
    requires Inv(db) && Undisturbed(db, tables)
    ensures Inv(db.(tables := tables))
  {
    hide RecordAllowed;
    var n := db.(tables := tables);
    forall t | t in n.txs
      ensures LedgerOk(tables.accounts, n.txs[t], Holds(n, t)) && TailOk(tables, n.claims, t, n.txs[t])
    {
      assert LedgerOk(db.tables.accounts, db.txs[t], Holds(db, t)) && TailOk(db.tables, db.claims, t, db.txs[t]);
    }
  }

  lemma ExecuteKeepsInv(db: Db, q: Single)
    requires Inv(db)
    ensures Inv(DoExecute(db, q))
  {
    var r := Perform(db.tables, q);
    if r.Some? {
      forall t | t in db.txs && Claim(db.txs[t]).Some?
        ensures RecordAllowed(r.value, db.txs[t].work.tail.usage)
      {
        assert TailOk(db.tables, db.claims, t, db.txs[t]);
      }
      hide Inv, RecordAllowed, AddLedger;
      UndisturbedKeepsInv(db, r.value);
    }
  }

  /** COMMIT is the atomic transaction. */
  lemma CommitIsAtomic(db: Db, t: nat)
    requires Inv(db) && CanCommit(db, t)
    ensures Atomic(db.tables, Whole(db.txs[t].work)) == Some(DoCommit(db, t).tables)
  {
    hide RecordAllowed;
    var tx := db.txs[t];
    var w, accounts := tx.work.wallet, db.tables.accounts;
    assert tx.work.ops[..|tx.work.ops|] == tx.work.ops;
    assert LedgerOk(accounts, tx, Holds(db, t)) && TailOk(db.tables, db.claims, t, tx);
    if Holds(db, t) && tx.work.ops == [] {
      assert accounts[w := View(accounts, tx)] == accounts;
    }
  }

  lemma CommitKeepsInv(db: Db, t: nat)
    requires Inv(db) && CanCommit(db, t)
    ensures Inv(DoCommit(db, t))
  {
    var n := End(db, t);
    EndKeepsInv(db, t);
    var tables := DoCommit(db, t).tables;
    forall u | u in n.txs && Claim(n.txs[u]).Some?
      ensures RecordAllowed(tables, n.txs[u].work.tail.usage)
    {
      ClaimsDiffer(db, t, u);
    }
    hide Inv, RecordAllowed, Claim;
    UndisturbedKeepsInv(n, tables);
  }

  /** The record a transaction commits is not for a job another one has claimed. */
  lemma ClaimsDiffer(db: Db, t: nat, u: nat)
    requires Inv(db) && CanCommit(db, t) && u in db.txs && u != t && Claim(db.txs[u]).Some?
    ensures RecordAllowed(DoCommit(db, t).tables, db.txs[u].work.tail.usage)
  {
    hide LedgerOk, FitsUsage;
    assert TailOk(db.tables, db.claims, t, db.txs[t]) && TailOk(db.tables, db.claims, u, db.txs[u]);
  }

  lemma NextKeepsInv(db: Db, l: Label)
    requires Inv(db)
    ensures Inv(Next(db, l))
    ensures Commits(db, l) == [] ==> Next(db, l).tables == db.tables
  {
    hide Inv, HolderOk, RecordAllowed, Perform;
    match l
    case Begin(t, work) => if t !in db.txs { BeginKeepsInv(db, t, work); }
    case SelectForUpdate(t) => if CanSelect(db, t) { SelectKeepsInv(db, t); }
    case Update(t) => if CanUpdate(db, t) { UpdateKeepsInv(db, t); }
    case Insert(t) => if CanInsert(db, t) { InsertKeepsInv(db, t); }
    case WriteTail(t) => if CanWriteTail(db, t) { WriteTailKeepsInv(db, t); }
    case MarkSucceeded(t) => if CanMark(db, t) { MarkKeepsInv(db, t); }
    case Commit(t) => if CanCommit(db, t) { CommitKeepsInv(db, t); }
    case Rollback(t) => if t in db.txs { EndKeepsInv(db, t); }
    case Execute(q) => ExecuteKeepsInv(db, q);
  }

  lemma BeginKeepsInv(db: Db, t: nat, work: Work)
    requires Inv(db) && t !in db.txs
    ensures Inv(SetTx(db, t, Tx(work, 0, Idle, 0, 0, [], Unwritten)))
  {
    hide HolderOk, RecordAllowed;
    var n := SetTx(db, t, Tx(work, 0, Idle, 0, 0, [], Unwritten));
    forall u | u in n.txs
      ensures LedgerOk(n.tables.accounts, n.txs[u], Holds(n, u)) && TailOk(n.tables, n.claims, u, n.txs[u])
    {
      assert u != t ==> Holds(n, u) == Holds(db, u);
      assert u != t ==> TailOk(db.tables, db.claims, u, db.txs[u]);
    }
  }

  /** One step of the run is at most one step of the serial execution. */
  lemma NextIsSerial(tables: Tables, log: seq<Item>, db: Db, l: Label)
    requires Inv(db) && Serial(tables, log) == Some(db.tables)
    ensures Serial(tables, log + Commits(db, l)) == Some(Next(db, l).tables)
  {
    hide Inv, DoCommit, RecordAllowed, WithTail;
    NextKeepsInv(db, l);
    var item := Commits(db, l);
    if item == [] {
      assert log + [] == log;
    } else {
      assert (log + item)[..|log|] == log;
      if l.Commit? {
        CommitIsAtomic(db, l.t);
      }
    }
  }

  /** Serializability: whatever the interleaving, all committed tables (wallets with their ledgers, usage
      records, job rows, users and audit rows) are those of running the committed transactions and
      statements one at a time in commit order, each of them accepted. No update is lost, no job gets a
      second usage record, and a transaction that rolled back leaves no trace. */
  lemma {:induction false} RunsAreSerial(db: Db, ls: seq<Label>)
    requires Start(db)
    ensures Inv(Run(db, ls))
    ensures Serial(db.tables, CommitOrder(db, ls)) == Some(Run(db, ls).tables)
  {
    if ls != [] {
      hide Next, Inv, Commits, Atomic;
      var init, l := ls[..|ls| - 1], ls[|ls| - 1];
      RunsAreSerial(db, init);
      NextKeepsInv(Run(db, init), l);
      NextIsSerial(db.tables, CommitOrder(db, init), Run(db, init), l);
    }
  }

  /** A job row that an unfinished transaction has updated is locked: no step of anyone else changes it. */
  lemma MarkedRowsAreLocked(db: Db, t: nat, l: Label)
    requires Inv(db) && t in db.txs && db.txs[t].work.tail.Record? && db.txs[t].written == Marked && l != Commit(t)
    requires db.txs[t].work.tail.usage.job < |db.tables.status|
    ensures var j := db.txs[t].work.tail.usage.job; var n := Next(db, l).tables.status;
            j < |n| && n[j] == db.tables.status[j]
  {
    hide LocksOk, LedgerOk, RecordAllowed, Register, CreateJob;
    var j := db.txs[t].work.tail.usage.job;
    assert TailOk(db.tables, db.claims, t, db.txs[t]);
    assert db.claims[j] == t;
    match l
    case Commit(u) =>
      if CanCommit(db, u) {
        assert TailOk(db.tables, db.claims, u, db.txs[u]);
      }
    case Execute(q) => ExecuteKeepsStatus(db, q, j);
    case _ =>
  }

  lemma ExecuteKeepsStatus(db: Db, q: Single, j: nat)
    requires j < |db.tables.status|
    requires !(q.SetStatus? && q.job == j && CanExecute(db, q))
    ensures var n := Next(db, Execute(q)).tables.status; j < |n| && n[j] == db.tables.status[j]
  {
    hide Post;
  }

  // ---- Progress ----

  predicate CanMove(db: Db, t: nat) {
    || CanSelect(db, t) || CanUpdate(db, t) || CanInsert(db, t)
    || CanWriteTail(db, t) || CanMark(db, t) || CanCommit(db, t)
  }

  /** Whom a transaction waits for: the holder of its wallet's lock, or of the claim to its job. */
  function Blocker(db: Db, t: nat): Option<nat>
    requires t in db.txs
  {
    var tx := db.txs[t];
    if !LedgerDone(tx) then
      if tx.work.wallet in db.locks then Some(db.locks[tx.work.wallet]) else None
    else if tx.work.tail.Record? && tx.work.tail.usage.job in db.claims then Some(db.claims[tx.work.tail.usage.job])
    else None
  }

  predicate CanMoveOrWait(db: Db, t: nat, patience: nat)
    decreases patience
  {
    CanMove(db, t) ||
    (patience > 0 && t in db.txs && Blocker(db, t).Some? && CanMoveOrWait(db, Blocker(db, t).value, patience - 1))
  }

  lemma ClaimantMoves(db: Db, t: nat)
    requires Inv(db) && t in db.txs && Claim(db.txs[t]).Some?
    ensures CanMove(db, t)
  {
    hide LocksOk, RecordAllowed;
    assert TailOk(db.tables, db.claims, t, db.txs[t]);
  }

  lemma HolderMovesOrWaits(db: Db, t: nat)
    requires Inv(db) && t in db.txs && (Holds(db, t) || LedgerDone(db.txs[t]))
    ensures CanMoveOrWait(db, t, 1)
  {
    hide RecordAllowed;
    var tx := db.txs[t];
    assert LedgerOk(db.tables.accounts, tx, Holds(db, t)) && TailOk(db.tables, db.claims, t, tx);
    if LedgerDone(tx) && !CanMove(db, t) {
      var c := Blocker(db, t).value;
      hide Inv, CanMove;
      assert db.claims[tx.work.tail.usage.job] == c;
      ClaimHolder(db, tx.work.tail.usage.job);
    }
  }

  lemma ClaimHolder(db: Db, j: nat)
    requires Inv(db) && j in db.claims
    ensures CanMove(db, db.claims[j])
  {
    hide CanMove, LocksOk, TailOk;
    ClaimantMoves(db, db.claims[j]);
  }

  /** Nothing deadlocks: in every reachable state an unfinished transaction on an existing wallet can
      move, or the holder of the lock it waits for can, or the holder of the claim that one waits for. */
  lemma NoDeadlock(db: Db, ls: seq<Label>, t: nat)
    requires Start(db)
    requires var s := Run(db, ls); t in s.txs && s.txs[t].work.wallet < |s.tables.accounts|
    ensures CanMoveOrWait(Run(db, ls), t, 2)
  {
    RunsAreSerial(db, ls);
    var s := Run(db, ls);
    var tx := s.txs[t];
    var w := tx.work.wallet;
    hide Run;
    if w in s.locks && s.locks[w] != t && !LedgerDone(tx) {
      assert Holds(s, s.locks[w]);
      hide Inv, CanMove;
      HolderMovesOrWaits(s, s.locks[w]);
    } else if Holds(s, t) || LedgerDone(tx) {
      hide Inv, CanMove;
      HolderMovesOrWaits(s, t);
    } else {
      assert LedgerOk(s.tables.accounts, tx, false);
    }
  }

  /** Statements a transaction still has to execute before COMMIT. */
  function Remaining(tx: Tx): int {
    3 * (|tx.work.ops| - tx.done) - (match tx.stage case Idle => 0 case Selected(_, _) => 1 case Updated => 2)
    + (match tx.written case Unwritten => 2 case Inserted => 1 case Marked => 0)
  }

  /** The next statement of a transaction in the code's order. */
  function OwnStep(t: nat, tx: Tx): Label {
    match tx.stage
    case Selected(_, _) => Update(t)
    case Updated => Insert(t)
    case Idle =>
      if tx.done < |tx.work.ops| then SelectForUpdate(t)
      else if tx.written == Unwritten then WriteTail(t)
      else MarkSucceeded(t)
  }

  /** Every statement that is executed brings its transaction closer to COMMIT or ends it, so no
      transaction that keeps moving runs for ever. */
  lemma StatementsMakeProgress(db: Db, t: nat)
    requires Inv(db) && t in db.txs && CanMove(db, t) && !CanCommit(db, t)
    ensures var n := Next(db, OwnStep(t, db.txs[t]));
            t in n.txs ==> 0 <= Remaining(n.txs[t]) < Remaining(db.txs[t])
  {
    var tx := db.txs[t];
    assert LedgerOk(db.tables.accounts, tx, Holds(db, t)) && TailOk(db.tables, db.claims, t, tx);
    hide Inv, RecordAllowed, Wrap64, RunOps, AddLedger;
    if tx.stage == Idle && tx.done == |tx.work.ops| {
      TailMakesProgress(db, t);
    }
  }

  lemma TailMakesProgress(db: Db, t: nat)
    requires t in db.txs && LedgerDone(db.txs[t]) && CanMove(db, t) && !CanCommit(db, t)
    ensures var n := Next(db, OwnStep(t, db.txs[t]));
            t in n.txs ==> 0 <= Remaining(n.txs[t]) < Remaining(db.txs[t])
  {
    hide RecordAllowed;
  }
}
