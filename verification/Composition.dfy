/** Requests at the grain of single statements: each request begins its transactions, waits for their
    locks, and moves on when they commit or roll back. Every such run is a run of the protocol. */
module Composition {
  import opened Credits
  import opened Settlement
  import opened Refinement
  import G = Guarantees
  import P = Protocol
  import T = Transactions

  /** On whose behalf a wallet transaction runs. */
  datatype Call = OfRequest(i: nat) | OfAdministrator(wallet: nat, amount: int, reason: string)

  /** The database with its running transactions, what the protocol knows besides its tables, and the
      caller of each running transaction. */
  datatype State = State(db: T.Db, hub: P.H.State, jobs: seq<P.Job>, granted: int, adjusted: int,
                         pending: map<nat, Call>)

  const EMPTY_DB := T.Db(EMPTY, map[], map[], map[])
  const INIT := State(EMPTY_DB, P.H.EMPTY, [], 0, 0, map[])

  /** `Statement` is one statement of a running transaction, `Plain` a step of the protocol without a
      wallet transaction. */
  datatype Label = Begin(t: nat, call: Call) | Statement(l: T.Label) | Plain(step: P.Label)

  /** What has been committed is the state of the protocol. */
  function View(s: State): P.State {
    P.State(s.db.tables, s.hub, s.jobs, s.granted, s.adjusted)
  }

  function Moved(v: P.State, db: T.Db, pending: map<nat, Call>): State {
    State(db, v.hub, v.jobs, v.granted, v.adjusted, pending)
  }

  /** The step of the protocol a call stands for: a request's next transaction is decided by its phase,
      and its reward goes to its own wallet. */
  function StepOf(v: P.State, call: Call, ok: bool): Option<P.Label> {
    match call
    case OfAdministrator(w, amount, reason) => Some(P.Adjust(w, amount, reason, ok))
    case OfRequest(i) =>
      if i >= |v.jobs| then None
      else match v.jobs[i].phase
        case Created => Some(P.ReserveCredits(i, ok))
        case Releasing(_) => Some(P.ReleaseCredits(i, ok))
        case Settling(_) => Some(P.Finalize(i, v.jobs[i].wallet, ok))
        case _ => None
  }

  function CallOperation(v: P.State, call: Call): Option<Operation> {
    var l := StepOf(v, call, true);
    if l.None? then None else OperationOf(v, l.value)
  }

  /** A request waits for the answer of its transaction before it does anything else. */
  predicate Busy(pending: map<nat, Call>, call: Call) {
    call.OfRequest? && call in pending.Values
  }

  /** A transaction that is not proper is refused before it begins. */
  function DoBegin(s: State, t: nat, call: Call): State
    requires CallOperation(View(s), call).Some?
  {
    var o := CallOperation(View(s), call).value;
    if Proper(o) then Moved(View(s), T.Next(s.db, T.Begin(t, ItemOf(o).work)), s.pending[t := call])
    else Moved(P.Next(View(s), StepOf(View(s), call, true).value), s.db, s.pending)
  }

  predicate CanBegin(s: State, t: nat, call: Call) {
    t !in s.db.txs && !Busy(s.pending, call) && CallOperation(View(s), call).Some?
  }

  /** The transaction a statement belongs to. */
  function Owner(l: T.Label): Option<nat> {
    match l
    case Begin(_, _) => None
    case Execute(_) => None
    case SelectForUpdate(t) => Some(t)
    case Update(t) => Some(t)
    case Insert(t) => Some(t)
    case WriteTail(t) => Some(t)
    case MarkSucceeded(t) => Some(t)
    case Commit(t) => Some(t)
    case Rollback(t) => Some(t)
  }

  /** The transaction t of a caller has ended. */
  predicate Ends(s: State, t: nat, after: T.Db) {
    t in s.pending && t !in after.txs && StepOf(View(s), s.pending[t], true).Some?
  }

  /** The caller moves on when its transaction has committed, or has ended otherwise. */
  function DoStatement(s: State, l: T.Label): State
    requires Owner(l).Some?
  {
    var t, after := Owner(l).value, T.Next(s.db, l);
    if Ends(s, t, after) then
      Moved(P.Next(View(s), StepOf(View(s), s.pending[t], l.Commit?).value), after, s.pending - {t})
    else s.(db := after)
  }

  /** Steps that run no wallet transaction. */
  predicate IsPlain(l: P.Label) {
    !l.Adjust? && !l.ReserveCredits? && !l.ReleaseCredits? && !l.Finalize?
  }

  function DoPlain(s: State, l: P.Label): State
    requires IsPlain(l)
  {
    var o := OperationOf(View(s), l);
    if o.None? then Moved(P.Next(View(s), l), s.db, s.pending)
    else if !T.CanExecute(s.db, o.value.statement) then s
    else Moved(P.Next(View(s), l), T.Next(s.db, T.Execute(o.value.statement)), s.pending)
  }

  /** One step; a label that is not enabled changes nothing (the caller waits). */
  function Next(s: State, l: Label): State {
    match l
    case Begin(t, call) => if CanBegin(s, t, call) then DoBegin(s, t, call) else s
    case Statement(q) => if Owner(q).Some? then DoStatement(s, q) else s
    case Plain(step) => if IsPlain(step) then DoPlain(s, step) else s
  }

  function Run(s: State, ls: seq<Label>): State {
    if ls == [] then s else Next(Run(s, ls[..|ls| - 1]), ls[|ls| - 1])
  }

  // ---- What a run is for the protocol and for the database ----

  /** The step of the protocol that becomes visible. */
  function Visible(s: State, l: Label): seq<P.Label> {
    match l
    case Begin(t, call) =>
      if CanBegin(s, t, call) && !Proper(CallOperation(View(s), call).value) then [StepOf(View(s), call, true).value]
      else []
    case Statement(q) =>
      if Owner(q).Some? && Ends(s, Owner(q).value, T.Next(s.db, q)) then
        [StepOf(View(s), s.pending[Owner(q).value], q.Commit?).value]
      else []
    case Plain(step) =>
      if !IsPlain(step) then []
      else
        var o := OperationOf(View(s), step);
        if o.Some? && !T.CanExecute(s.db, o.value.statement) then [] else [step]
  }

  /** The statement the database executes. */
  function Executed(s: State, l: Label): seq<T.Label> {
    match l
    case Begin(t, call) =>
      if CanBegin(s, t, call) && Proper(CallOperation(View(s), call).value) then
        [T.Begin(t, ItemOf(CallOperation(View(s), call).value).work)]
      else []
    case Statement(q) => if Owner(q).Some? then [q] else []
    case Plain(step) =>
      if IsPlain(step) && OperationOf(View(s), step).Some? then
        [T.Execute(OperationOf(View(s), step).value.statement)]
      else []
  }

  function ProtocolRun(ls: seq<Label>): seq<P.Label> {
    if ls == [] then []
    else ProtocolRun(ls[..|ls| - 1]) + Visible(Run(INIT, ls[..|ls| - 1]), ls[|ls| - 1])
  }

  function DatabaseRun(ls: seq<Label>): seq<T.Label> {
    if ls == [] then []
    else DatabaseRun(ls[..|ls| - 1]) + Executed(Run(INIT, ls[..|ls| - 1]), ls[|ls| - 1])
  }

  // ---- The invariant ----

  /** The transaction is the one its caller would begin now. */
  predicate PendingOk(v: P.State, work: T.Work, call: Call) {
    var o := CallOperation(v, call);
    o.Some? && Proper(o.value) && ItemOf(o.value) == T.Whole(work)
  }

  ghost predicate AllPendingOk(v: P.State, txs: map<nat, T.Tx>, pending: map<nat, Call>) {
    && (forall t :: t in pending <==> t in txs)
    && (forall t :: t in pending ==> PendingOk(v, txs[t].work, pending[t]))
  }

  /** No request has two transactions. */
  ghost predicate OneEach(pending: map<nat, Call>) {
    forall t, u | t in pending && u in pending && t != u :: pending[t].OfRequest? ==> pending[t] != pending[u]
  }

  ghost predicate Inv(s: State) {
    T.Inv(s.db) && AllPendingOk(View(s), s.db.txs, s.pending) && OneEach(s.pending)
  }

  /** One step is at most one step of the protocol and one statement, and the statement commits what the
      step of the protocol performs. */
  ghost predicate Refines(s: State, n: State, ps: seq<P.Label>, ts: seq<T.Label>) {
    && |ps| <= 1 && |ts| <= 1
    && View(n) == (if ps == [] then View(s) else P.Next(View(s), ps[0]))
    && n.db == (if ts == [] then s.db else T.Next(s.db, ts[0]))
    && (if ts == [] then [] else T.Commits(s.db, ts[0])) == (if ps == [] then [] else Items(View(s), ps[0]))
    && (ps != [] ==> CodesReward(View(s), ps[0]))
  }

  /** No work changes and no transaction but t ends. */
  ghost predicate KeepsWork(txs: map<nat, T.Tx>, txs': map<nat, T.Tx>, t: nat) {
    && (forall u :: u in txs' ==> u in txs && txs'[u].work == txs[u].work)
    && (forall u :: u in txs && u != t ==> u in txs')
  }

  lemma StatementKeepsWork(db: T.Db, l: T.Label, t: nat)
    requires Owner(l) == Some(t)
    ensures KeepsWork(db.txs, T.Next(db, l).txs, t)
  {
    hide T.RecordAllowed, T.WithTail;
  }

  /** What a pending transaction depends on. */
  lemma PendingStays(v: P.State, n: P.State, work: T.Work, call: Call)
    requires PendingOk(v, work, call)
    requires call.OfRequest? ==> call.i < |n.jobs| && (call.i < |v.jobs| ==> n.jobs[call.i] == v.jobs[call.i])
    ensures PendingOk(n, work, call)
  {
    hide ItemOf, Proper;
  }

  /** The phases in which a request has a transaction of its own to run. */
  predicate Transacting(p: P.Phase) {
    p.Created? || p.Releasing? || p.Settling?
  }

  lemma PendingIsTransacting(v: P.State, work: T.Work, call: Call)
    requires PendingOk(v, work, call) && call.OfRequest?
    ensures call.i < |v.jobs| && Transacting(v.jobs[call.i].phase)
  {
    hide ItemOf, Proper;
  }

  lemma PlainLeaves(v: P.State, l: P.Label, i: nat)
    requires IsPlain(l) && i < |v.jobs| && Transacting(v.jobs[i].phase)
    ensures i < |P.Next(v, l).jobs| && P.Next(v, l).jobs[i] == v.jobs[i]
  {
    if G.ActsOn(l, i) {
      hide P.DoMark, P.AfterDispatch;
    } else {
      hide P.Next;
      G.OthersLeave(v, l, i);
    }
  }

  /** The step of a call leaves the requests of other calls as they are. */
  lemma CallLeaves(v: P.State, call: Call, ok: bool, i: nat)
    requires StepOf(v, call, ok).Some? && i < |v.jobs| && call != OfRequest(i)
    ensures var n := P.Next(v, StepOf(v, call, ok).value); i < |n.jobs| && n.jobs[i] == v.jobs[i]
  {
    hide P.Next;
    G.OthersLeave(v, StepOf(v, call, ok).value, i);
  }

  // ---- Each kind of step ----

  lemma PlainRefines(s: State, l: P.Label)
    requires Inv(s) && IsPlain(l)
    ensures Refines(s, Next(s, Plain(l)), Visible(s, Plain(l)), Executed(s, Plain(l)))
  {
    hide P.Next, Inv, T.Perform;
    StepIsOperation(View(s), l);
  }

  /** The callers that stay are as they were. */
  ghost predicate SameCallers(v: P.State, n: P.State, pending: map<nat, Call>) {
    forall t :: t in pending && pending[t].OfRequest? ==>
      var i := pending[t].i; i < |v.jobs| ==> i < |n.jobs| && n.jobs[i] == v.jobs[i]
  }

  lemma AllPendingStay(v: P.State, n: P.State, txs: map<nat, T.Tx>, txs': map<nat, T.Tx>, pending: map<nat, Call>,
                       pending': map<nat, Call>)
    requires AllPendingOk(v, txs, pending) && SameCallers(v, n, pending')
    requires forall t :: t in pending' <==> t in txs'
    requires forall t :: t in pending' ==>
               t in pending && pending'[t] == pending[t] && t in txs && txs'[t].work == txs[t].work
    ensures AllPendingOk(n, txs', pending')
  {
    hide PendingOk;
    forall t | t in pending'
      ensures PendingOk(n, txs'[t].work, pending'[t])
    {
      assert PendingOk(v, txs[t].work, pending[t]);
      if pending[t].OfRequest? {
        PendingIsTransacting(v, txs[t].work, pending[t]);
      }
      PendingStays(v, n, txs[t].work, pending[t]);
    }
  }

  lemma PlainKeepsCallers(s: State, l: P.Label)
    requires AllPendingOk(View(s), s.db.txs, s.pending) && IsPlain(l)
    ensures SameCallers(View(s), P.Next(View(s), l), s.pending)
  {
    hide PendingOk, P.Next;
    forall t | t in s.pending && s.pending[t].OfRequest? && s.pending[t].i < |s.jobs|
      ensures var n, i := P.Next(View(s), l), s.pending[t].i; i < |n.jobs| && n.jobs[i] == s.jobs[i]
    {
      assert PendingOk(View(s), s.db.txs[t].work, s.pending[t]);
      PendingIsTransacting(View(s), s.db.txs[t].work, s.pending[t]);
      PlainLeaves(View(s), l, s.pending[t].i);
    }
  }

  lemma ExecuteKeepsTxs(db: T.Db, q: T.Single)
    requires T.Inv(db)
    ensures T.Next(db, T.Execute(q)).txs == db.txs && T.Inv(T.Next(db, T.Execute(q)))
  {
    T.NextKeepsInv(db, T.Execute(q));
    hide T.Inv, T.Perform;
  }

  lemma PlainKeepsTxs(s: State, l: P.Label)
    requires T.Inv(s.db) && IsPlain(l)
    ensures var n := Next(s, Plain(l)); n.pending == s.pending && n.db.txs == s.db.txs && T.Inv(n.db)
  {
    var o := OperationOf(View(s), l);
    if o.Some? {
      ExecuteKeepsTxs(s.db, o.value.statement);
    }
    hide P.Next, T.Next, T.Inv, T.CanExecute;
  }

  lemma PlainMoves(s: State, l: P.Label)
    requires Inv(s) && IsPlain(l)
    ensures View(Next(s, Plain(l))) == View(s) || View(Next(s, Plain(l))) == P.Next(View(s), l)
  {
    PlainRefines(s, l);
    hide Inv, Next, P.Next, T.Next, OperationOf, Items, T.Commits, CodesReward, T.CanExecute, Executed, View;
  }

  lemma PlainKeepsInv(s: State, l: P.Label)
    requires Inv(s) && IsPlain(l)
    ensures Inv(Next(s, Plain(l)))
  {
    PlainKeepsTxs(s, l);
    PlainMoves(s, l);
    PlainKeepsCallers(s, l);
    hide P.Next, Next, PendingOk, SameCallers, T.Inv;
    if View(Next(s, Plain(l))) != View(s) {
      AllPendingStay(View(s), P.Next(View(s), l), s.db.txs, s.db.txs, s.pending, s.pending);
    }
  }

  lemma CallFacts(v: P.State, call: Call)
    requires CallOperation(v, call).Some?
    ensures var o := CallOperation(v, call).value; ItemOf(o).Whole? && (!Proper(o) ==> Outcome(v.db, o).None?)
    ensures CodesReward(v, StepOf(v, call, true).value) && !StepOf(v, call, true).value.HubStep?
  {
    OperationIsAtomic(v.db, CallOperation(v, call).value);
    hide FinalizeAccounts, FitsUsage, UsageAllowed, ReserveForUser, Release, AdminAdjust, FinalizeOps;
  }

  lemma BeginRefines(s: State, t: nat, call: Call)
    requires Inv(s) && CanBegin(s, t, call)
    ensures Refines(s, Next(s, Begin(t, call)), Visible(s, Begin(t, call)), Executed(s, Begin(t, call)))
  {
    CallFacts(View(s), call);
    StepIsOperation(View(s), StepOf(View(s), call, true).value);
    hide P.Next, Inv, Outcome, Proper, ItemOf, OperationOf, CodesReward, StepOf;
  }

  lemma BegunIsPending(v: P.State, txs: map<nat, T.Tx>, pending: map<nat, Call>, t: nat, tx: T.Tx, call: Call)
    requires AllPendingOk(v, txs, pending) && t !in txs && PendingOk(v, tx.work, call)
    ensures AllPendingOk(v, txs[t := tx], pending[t := call])
  {
    hide PendingOk;
  }

  lemma BegunKeepsInv(s: State, t: nat, call: Call)
    requires Inv(s) && CanBegin(s, t, call) && Proper(CallOperation(View(s), call).value)
    ensures Inv(Next(s, Begin(t, call)))
  {
    CallFacts(View(s), call);
    var o := CallOperation(View(s), call).value;
    hide P.Next, StepOf, OperationOf, Outcome, CodesReward, T.Inv, ItemOf, Proper, T.Next, AllPendingOk;
    T.NextKeepsInv(s.db, T.Begin(t, ItemOf(o).work));
    BeginsIdle(s.db, t, ItemOf(o).work);
    BegunIsPending(View(s), s.db.txs, s.pending, t, T.Tx(ItemOf(o).work, 0, T.Idle, 0, 0, [], T.Unwritten), call);
  }

  lemma BeginsIdle(db: T.Db, t: nat, work: T.Work)
    requires t !in db.txs
    ensures var n := T.Next(db, T.Begin(t, work));
            n.txs == db.txs[t := T.Tx(work, 0, T.Idle, 0, 0, [], T.Unwritten)] && n.tables == db.tables
  {
  }

  /** A call that no pending transaction has in its name. */
  lemma CallKeepsCallers(s: State, call: Call, ok: bool, pending: map<nat, Call>)
    requires StepOf(View(s), call, ok).Some? && !Busy(pending, call)
    ensures SameCallers(View(s), P.Next(View(s), StepOf(View(s), call, ok).value), pending)
  {
    hide P.Next, StepOf;
    forall t | t in pending && pending[t].OfRequest? && pending[t].i < |s.jobs|
      ensures var n, i := P.Next(View(s), StepOf(View(s), call, ok).value), pending[t].i;
              i < |n.jobs| && n.jobs[i] == s.jobs[i]
    {
      CallLeaves(View(s), call, ok, pending[t].i);
    }
  }

  lemma RefusedKeepsInv(s: State, t: nat, call: Call)
    requires Inv(s) && CanBegin(s, t, call) && !Proper(CallOperation(View(s), call).value)
    ensures Inv(Next(s, Begin(t, call)))
  {
    BeginRefines(s, t, call);
    CallKeepsCallers(s, call, true, s.pending);
    hide P.Next, StepOf, OperationOf, Outcome, CodesReward, T.Inv, ItemOf, Proper, PendingOk, SameCallers;
    var n := P.Next(View(s), StepOf(View(s), call, true).value);
    AllPendingStay(View(s), n, s.db.txs, s.db.txs, s.pending, s.pending);
  }

  lemma CommitsOperation(s: State, t: nat)
    requires T.Inv(s.db) && t in s.db.txs && t in s.pending && PendingOk(View(s), s.db.txs[t].work, s.pending[t])
    requires t !in T.Next(s.db, T.Commit(t)).txs
    ensures var o := CallOperation(View(s), s.pending[t]).value;
            && Outcome(s.db.tables, o) == Some(T.Next(s.db, T.Commit(t)).tables)
            && T.Commits(s.db, T.Commit(t)) == [ItemOf(o)]
  {
    T.CommitIsAtomic(s.db, t);
    hide T.Inv, Outcome, T.Atomic, ItemOf, Proper, CallOperation, T.WithTail;
    OperationIsAtomic(s.db.tables, CallOperation(View(s), s.pending[t]).value);
  }

  lemma Aborted(v: P.State, call: Call)
    requires StepOf(v, call, false).Some?
    ensures OperationOf(v, StepOf(v, call, false).value) == None
    ensures CodesReward(v, StepOf(v, call, false).value)
  {
  }

  lemma CommitRefines(s: State, t: nat)
    requires T.Inv(s.db) && t in s.db.txs && t in s.pending && PendingOk(View(s), s.db.txs[t].work, s.pending[t])
    requires t !in T.Next(s.db, T.Commit(t)).txs
    ensures var step := StepOf(View(s), s.pending[t], true).value; var n := T.Next(s.db, T.Commit(t));
            P.Next(View(s), step).db == n.tables && Items(View(s), step) == T.Commits(s.db, T.Commit(t))
  {
    StepIsOperation(View(s), StepOf(View(s), s.pending[t], true).value);
    hide T.Inv, P.Next, Proper, T.Next, T.CanCommit, Outcome, ItemOf;
    CommitsOperation(s, t);
  }

  lemma AbortRefines(s: State, l: T.Label, call: Call)
    requires T.Inv(s.db) && Owner(l).Some? && !l.Commit? && StepOf(View(s), call, false).Some?
    ensures var step := StepOf(View(s), call, false).value;
            P.Next(View(s), step).db == T.Next(s.db, l).tables && Items(View(s), step) == T.Commits(s.db, l)
  {
    StepIsOperation(View(s), StepOf(View(s), call, false).value);
    Aborted(View(s), call);
    hide T.Inv, P.Next, T.Next, Outcome, ItemOf;
    T.NextKeepsInv(s.db, l);
  }

  /** The transaction of a caller ends: its commit is what the step of the protocol does, and any other end
      is the step aborted. */
  lemma EndRefines(s: State, l: T.Label, t: nat, after: T.Db, step: P.Label)
    requires Inv(s) && after == T.Next(s.db, l) && Owner(l) == Some(t) && Ends(s, t, after)
    requires StepOf(View(s), s.pending[t], l.Commit?) == Some(step)
    ensures P.Next(View(s), step).db == after.tables && Items(View(s), step) == T.Commits(s.db, l)
    ensures CodesReward(View(s), step)
  {
    var call := s.pending[t];
    assert PendingOk(View(s), s.db.txs[t].work, call);
    CallFacts(View(s), call);
    hide T.Inv, P.Next, T.Next, T.Commits, Items, PendingOk;
    if l.Commit? {
      CommitRefines(s, t);
    } else {
      Aborted(View(s), call);
      AbortRefines(s, l, call);
    }
  }

  /** A statement that ends no caller's transaction commits nothing. */
  lemma RunningCommitsNothing(s: State, l: T.Label, t: nat)
    requires Inv(s) && Owner(l) == Some(t) && !Ends(s, t, T.Next(s.db, l))
    ensures T.Commits(s.db, l) == [] && T.Next(s.db, l).tables == s.db.tables
  {
    hide T.Inv, T.RecordAllowed, T.WithTail, P.Next, ItemOf, Proper, OperationOf, StepOf, OneEach;
    T.NextKeepsInv(s.db, l);
    if l.Commit? && T.CanCommit(s.db, t) {
      CommitEnds(s.db, t);
      WaitingCallSteps(View(s), s.db.txs, s.pending, t);
      assert false;
    }
    hide T.Next;
  }

  lemma CommitEnds(db: T.Db, t: nat)
    requires T.CanCommit(db, t)
    ensures t !in T.Next(db, T.Commit(t)).txs
  {
    hide T.RecordAllowed, T.WithTail;
  }

  lemma WaitingCallSteps(v: P.State, txs: map<nat, T.Tx>, pending: map<nat, Call>, t: nat)
    requires AllPendingOk(v, txs, pending) && t in txs
    ensures t in pending && StepOf(v, pending[t], true).Some?
  {
    hide ItemOf, Proper, OperationOf, StepOf;
    assert t in pending;
    assert PendingOk(v, txs[t].work, pending[t]);
  }

  lemma AbortedToo(v: P.State, call: Call)
    requires StepOf(v, call, true).Some?
    ensures StepOf(v, call, false).Some?
  {
  }

  lemma StatementRefines(s: State, l: T.Label)
    requires Inv(s) && Owner(l).Some?
    ensures Refines(s, Next(s, Statement(l)), Visible(s, Statement(l)), Executed(s, Statement(l)))
  {
    hide P.Next, Inv, T.Next, T.Commits, Items, CodesReward, StepOf;
    var t, after := Owner(l).value, T.Next(s.db, l);
    if Ends(s, t, after) {
      AbortedToo(View(s), s.pending[t]);
      EndRefines(s, l, t, after, StepOf(View(s), s.pending[t], l.Commit?).value);
    } else {
      RunningCommitsNothing(s, l, t);
    }
  }

  lemma EndedKeepsPending(s: State, t: nat, after: T.Db, n: P.State)
    requires AllPendingOk(View(s), s.db.txs, s.pending) && OneEach(s.pending) && Ends(s, t, after)
    requires KeepsWork(s.db.txs, after.txs, t) && SameCallers(View(s), n, s.pending - {t})
    ensures AllPendingOk(n, after.txs, s.pending - {t}) && OneEach(s.pending - {t})
  {
    hide StepOf, SameCallers, PendingOk;
    AllPendingStay(View(s), n, s.db.txs, after.txs, s.pending, s.pending - {t});
  }

  lemma RunningKeepsPending(s: State, t: nat, after: T.Db)
    requires AllPendingOk(View(s), s.db.txs, s.pending) && !Ends(s, t, after)
    requires KeepsWork(s.db.txs, after.txs, t)
    ensures AllPendingOk(View(s), after.txs, s.pending)
  {
    if t in s.pending {
      assert PendingOk(View(s), s.db.txs[t].work, s.pending[t]);
    }
    hide StepOf, PendingOk;
    AllPendingStay(View(s), View(s), s.db.txs, after.txs, s.pending, s.pending);
  }

  lemma EndingIsFree(pending: map<nat, Call>, t: nat)
    requires OneEach(pending) && t in pending
    ensures !Busy(pending - {t}, pending[t])
  {
  }

  lemma StatementKeepsInv(s: State, l: T.Label)
    requires Inv(s) && Owner(l).Some?
    ensures Inv(Next(s, Statement(l)))
  {
    var t, after := Owner(l).value, T.Next(s.db, l);
    StatementKeepsWork(s.db, l, t);
    T.NextKeepsInv(s.db, l);
    if Ends(s, t, after) {
      AbortedToo(View(s), s.pending[t]);
      EndRefines(s, l, t, after, StepOf(View(s), s.pending[t], l.Commit?).value);
      EndingIsFree(s.pending, t);
      hide T.Inv, T.Next, P.Next, Items, T.Commits, AllPendingOk, OneEach, KeepsWork, SameCallers, StepOf, CodesReward;
      CallKeepsCallers(s, s.pending[t], l.Commit?, s.pending - {t});
      EndedKeepsPending(s, t, after, P.Next(View(s), StepOf(View(s), s.pending[t], l.Commit?).value));
    } else {
      RunningCommitsNothing(s, l, t);
      hide T.Inv, T.Next, AllPendingOk, OneEach, KeepsWork, Ends;
      RunningKeepsPending(s, t, after);
    }
  }

  lemma BeginIsFine(s: State, t: nat, call: Call)
    requires Inv(s) && CanBegin(s, t, call)
    ensures Inv(Next(s, Begin(t, call)))
    ensures Refines(s, Next(s, Begin(t, call)), Visible(s, Begin(t, call)), Executed(s, Begin(t, call)))
  {
    BeginRefines(s, t, call);
    hide Inv, Next, Visible, Executed, Proper, OperationOf, StepOf, Refines;
    if Proper(CallOperation(View(s), call).value) {
      BegunKeepsInv(s, t, call);
    } else {
      RefusedKeepsInv(s, t, call);
    }
  }

  lemma NextRefines(s: State, l: Label)
    requires Inv(s)
    ensures Inv(Next(s, l)) && Refines(s, Next(s, l), Visible(s, l), Executed(s, l))
  {
    hide Inv, DoBegin, DoStatement, DoPlain, Ends, CanBegin, Proper, OperationOf, StepOf, T.CanExecute, Refines;
    match l
    case Begin(t, call) =>
      if CanBegin(s, t, call) {
        BeginIsFine(s, t, call);
      } else {
        Stays(s);
      }
    case Statement(q) =>
      if Owner(q).Some? {
        StatementRefines(s, q);
        StatementKeepsInv(s, q);
      } else {
        Stays(s);
      }
    case Plain(step) =>
      if IsPlain(step) {
        PlainRefines(s, step);
        PlainKeepsInv(s, step);
      } else {
        Stays(s);
      }
  }

  lemma Stays(s: State)
    ensures Refines(s, s, [], [])
  {
  }

  // ---- Whole runs ----

  lemma InitIsEmpty()
    ensures Inv(INIT) && View(INIT) == P.INIT
  {
  }

  lemma AppendSteps(ls: seq<P.Label>, ps: seq<P.Label>, v: P.State, n: P.State)
    requires v == P.Run(P.INIT, ls) && CodesRewards(ls) && |ps| <= 1
    requires n == (if ps == [] then v else P.Next(v, ps[0])) && (ps != [] ==> CodesReward(v, ps[0]))
    ensures n == P.Run(P.INIT, ls + ps) && CodesRewards(ls + ps)
    ensures Trace(ls + ps) == Trace(ls) + if ps == [] then [] else Items(v, ps[0])
  {
    hide P.Next, Items, CodesReward;
    if ps == [] {
      assert ls + ps == ls;
      assert Trace(ls) + [] == Trace(ls);
    } else {
      assert (ls + ps)[..|ls|] == ls;
    }
  }

  lemma AppendStatements(fs: seq<T.Label>, ts: seq<T.Label>, db: T.Db, n: T.Db)
    requires db == T.Run(EMPTY_DB, fs) && |ts| <= 1
    requires n == (if ts == [] then db else T.Next(db, ts[0]))
    ensures n == T.Run(EMPTY_DB, fs + ts)
    ensures T.CommitOrder(EMPTY_DB, fs + ts) ==
            T.CommitOrder(EMPTY_DB, fs) + if ts == [] then [] else T.Commits(db, ts[0])
  {
    hide T.Next, T.Commits;
    if ts == [] {
      assert fs + ts == fs;
      assert T.CommitOrder(EMPTY_DB, fs) + [] == T.CommitOrder(EMPTY_DB, fs);
    } else {
      assert (fs + ts)[..|fs|] == fs;
    }
  }

  /** The composition: whatever the interleaving of the statements of all requests and administrators, the
      committed tables and the phases of the requests are those of a run of the protocol, and the database
      commits that run's operations in its order. All that is proved of runs of the protocol holds of the
      interleaved statements. */
  lemma {:induction false} StatementsRefineProtocol(ls: seq<Label>)
    ensures View(Run(INIT, ls)) == P.Run(P.INIT, ProtocolRun(ls)) && CodesRewards(ProtocolRun(ls))
    ensures Run(INIT, ls).db == T.Run(EMPTY_DB, DatabaseRun(ls))
    ensures T.CommitOrder(EMPTY_DB, DatabaseRun(ls)) == Trace(ProtocolRun(ls))
    ensures Inv(Run(INIT, ls))
  {
    if ls == [] {
      InitIsEmpty();
    } else {
      var init, l := ls[..|ls| - 1], ls[|ls| - 1];
      var s := Run(INIT, init);
      StatementsRefineProtocol(init);
      NextRefines(s, l);
      hide Inv, Next, Visible, Executed, P.Next, T.Next, T.Commits, Items, CodesReward, P.Run, T.Run, Trace,
        T.CommitOrder, CodesRewards;
      AppendSteps(ProtocolRun(init), Visible(s, l), View(s), View(Next(s, l)));
      AppendStatements(DatabaseRun(init), Executed(s, l), s.db, Next(s, l).db);
    }
  }

  /** For instance: at every moment of every interleaving the committed wallets replay their ledgers and
      add up to what was granted and adjusted less the margin of the committed usage records. */
  lemma InterleavedBooksBalance(ls: seq<Label>)
    ensures var s := Run(INIT, ls);
            && AllSound(s.db.tables.accounts)
            && Total(s.db.tables.accounts) == s.granted + s.adjusted - P.Margin(s.db.tables.usage)
  {
    StatementsRefineProtocol(ls);
    P.Reachable(ProtocolRun(ls));
    hide Run, ProtocolRun, P.Run, P.Requests, P.HubOk;
  }

  /** And no request is stuck in the database: its transaction can move, or the one it waits for can, or the
      one that one waits for. */
  lemma CallersCanMove(ls: seq<Label>, t: nat)
    requires var db := Run(INIT, ls).db; t in db.txs && db.txs[t].work.wallet < |db.tables.accounts|
    ensures T.CanMoveOrWait(Run(INIT, ls).db, t, 2)
  {
    StatementsRefineProtocol(ls);
    hide Run, T.Run, DatabaseRun, T.CanMoveOrWait;
    T.NoDeadlock(EMPTY_DB, DatabaseRun(ls), t);
  }
}
