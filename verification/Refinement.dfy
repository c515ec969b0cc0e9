/** From interleaved statements to the protocol: every wallet operation is one transaction of module
    Transactions, and a run of the protocol is what its transactions do in commit order. */
module Refinement {
  import opened Credits
  import opened Settlement
  import opened Text
  import opened Metering
  import Schedules
  import T = Transactions
  import P = Protocol

  // ---- Operations are transactions ----

  datatype Operation =
    | Reserving(wallet: nat, amount: int)
    | Releasing(wallet: nat, amount: int)
    | Adjusting(wallet: nat, amount: int, reason: string)
    | Settling(s: UsageSettlement)
    | Single(statement: T.Single)

  /** What the service computes; None is an error. */
  function Outcome(t: Tables, o: Operation): Option<Tables> {
    match o
    case Reserving(w, amount) => T.Accepted(ReserveForUser(t, w, amount))
    case Releasing(w, amount) => T.Accepted(Release(t, w, amount))
    case Adjusting(w, amount, reason) => T.Accepted(AdminAdjust(t, w, amount, reason))
    case Settling(s) => T.Accepted(FinalizeUsage(t, s))
    case Single(q) => T.Perform(t, q)
  }

  /** The service starts a transaction at all, and on one wallet. */
  predicate Proper(o: Operation) {
    match o
    case Reserving(_, amount) => amount > 0
    case Releasing(_, amount) => amount > 0
    case Adjusting(_, amount, reason) => amount != 0 && !Blank(reason)
    case Settling(s) => s.reserved >= 0 && s.cost >= 0 && s.reward >= 0 && s.rewardWallet == s.wallet
    case Single(_) => true
  }

  function If(positive: bool, op: Op): seq<Op> {
    if positive then [op] else []
  }

  function FinalizeOps(s: UsageSettlement): seq<Op> {
    If(s.reserved > 0, ReleasePosting(s).op) + If(s.cost > 0, DebitPosting(s).op) +
    If(s.reward > 0, RewardPosting(s).op)
  }

  /** The statements of the operation. */
  function ItemOf(o: Operation): T.Item {
    match o
    case Reserving(w, amount) => T.Whole(T.Work(w, [Op(Reserve, -amount, amount)], T.Nothing))
    case Releasing(w, amount) => T.Whole(T.Work(w, [Op(ReleaseReserve, amount, -amount)], T.Nothing))
    case Adjusting(w, amount, reason) =>
      T.Whole(T.Work(w, [Op(AdminAdjustment, amount, 0)], T.Audit(Adjustment(w, amount, TrimSpace(reason)))))
    case Settling(s) => T.Whole(T.Work(s.wallet, FinalizeOps(s), T.Record(RecordOf(s))))
    case Single(q) => T.Alone(q)
  }

  /** A posting after ops is ops and one more. */
  lemma PostIfIsWithOps(accounts: seq<Account>, w: nat, ops: seq<Op>, positive: bool, op: Op)
    requires w < |accounts|
    ensures T.WithOps(accounts, w, ops + If(positive, op)) ==
            var r := T.WithOps(accounts, w, ops);
            if r.None? then None else T.Accepted(PostIf(Ok(r.value), positive, Posting(w, op)))
  {
    assert accounts[w := accounts[w]] == accounts;
    if positive {
      assert (ops + [op])[..|ops|] == ops;
      var r := RunOps(accounts[w], ops);
      if r.Some? {
        var b := AddLedger(r.value, op);
        if b.Some? {
          assert accounts[w := r.value][w := b.value] == accounts[w := b.value];
        }
      }
    } else {
      assert ops + [] == ops;
    }
  }

  lemma OnePosting(accounts: seq<Account>, w: nat, op: Op)
    ensures T.WithOps(accounts, w, [op]) == T.Accepted(Post(accounts, Posting(w, op)))
  {
    if w < |accounts| {
      PostIfIsWithOps(accounts, w, [], true, op);
      assert [] + [op] == [op];
    }
  }

  lemma SettlingIsWithOps(accounts: seq<Account>, s: UsageSettlement)
    requires s.rewardWallet == s.wallet
    ensures T.WithOps(accounts, s.wallet, FinalizeOps(s)) == T.Accepted(FinalizeAccounts(accounts, s))
  {
    var w := s.wallet;
    if w < |accounts| {
      var o1 := If(s.reserved > 0, ReleasePosting(s).op);
      var o2 := o1 + If(s.cost > 0, DebitPosting(s).op);
      PostIfIsWithOps(accounts, w, [], s.reserved > 0, ReleasePosting(s).op);
      assert [] + o1 == o1;
      PostIfIsWithOps(accounts, w, o1, s.cost > 0, DebitPosting(s).op);
      PostIfIsWithOps(accounts, w, o2, s.reward > 0, RewardPosting(s).op);
    }
  }

  /** What the service computes for an operation is what its statements do as one atomic transaction, and
      an operation it refuses to start changes nothing. */
  lemma OperationIsAtomic(t: Tables, o: Operation)
    ensures Proper(o) ==> Outcome(t, o) == T.Atomic(t, ItemOf(o))
    ensures !Proper(o) && !o.Settling? ==> Outcome(t, o).None?
  {
    hide Post, Blank, TrimSpace, FitsUsage, UsageAllowed, T.Perform;
    match o
    case Reserving(w, amount) => OnePosting(t.accounts, w, Op(Reserve, -amount, amount));
    case Releasing(w, amount) => OnePosting(t.accounts, w, Op(ReleaseReserve, amount, -amount));
    case Adjusting(w, amount, reason) => OnePosting(t.accounts, w, Op(AdminAdjustment, amount, 0));
    case Settling(s) => if Proper(o) { SettlingIsAtomic(t, s); }
    case Single(_) =>
  }

  lemma SettlingIsAtomic(t: Tables, s: UsageSettlement)
    requires Proper(Settling(s))
    ensures T.Accepted(FinalizeUsage(t, s)) == T.Atomic(t, ItemOf(Settling(s)))
  {
    SettlingIsWithOps(t.accounts, s);
    hide FinalizeAccounts, FinalizeOps, T.WithOps, FitsUsage;
  }

  // ---- Runs of the protocol ----

  /** The operation a step of the protocol performs, if the database does not abort it. */
  function OperationOf(s: P.State, l: P.Label): Option<Operation> {
    match l
    case SignUp(email, grant, ok) => if ok && IsInt64(grant) then Some(Single(T.SignUp(email, grant))) else None
    case OpenProviderWallet => Some(Single(T.OpenWallet))
    case Adjust(w, amount, reason, ok) => if ok && IsInt64(amount) then Some(Adjusting(w, amount, reason)) else None
    case Create(id, _, terms) => Some(Single(T.NewJob(id, EstimateTokensFromChars(terms.inputChars), terms.maxTokens)))
    case ReserveCredits(i, ok) =>
      if ok && P.In(s, i, P.Created) then Some(Reserving(s.jobs[i].wallet, s.jobs[i].quote)) else None
    case MarkDispatched(i, ok) =>
      if ok && P.In(s, i, P.Reserved) then Some(Single(T.SetStatus(i, Dispatched))) else None
    case ReleaseCredits(i, ok) =>
      if ok && i < |s.jobs| && s.jobs[i].phase.Releasing? then Some(Releasing(s.jobs[i].wallet, s.jobs[i].quote))
      else None
    case Finalize(i, w, ok) =>
      if ok && i < |s.jobs| && s.jobs[i].phase.Settling? then Some(Settling(P.SettlementOf(s.jobs[i], i, w))) else None
    case MarkFailed(i, ok) =>
      if ok && (P.In(s, i, P.Refused) || P.In(s, i, P.Failing)) then Some(Single(T.SetStatus(i, Failed))) else None
    case _ => None
  }

  /** A step changes the tables by its operation and by nothing else. */
  lemma StepIsOperation(s: P.State, l: P.Label)
    ensures P.Next(s, l).db ==
            var o := OperationOf(s, l);
            if o.Some? && Outcome(s.db, o.value).Some? then Outcome(s.db, o.value).value else s.db
  {
    hide AdminAdjust, Register, ReserveForUser, Release, FinalizeUsage, CreateJob, MarkJob, P.H.Next;
  }

  /** The reward goes to the user's wallet, as in the code. */
  predicate CodesReward(s: P.State, l: P.Label) {
    l.Finalize? && l.i < |s.jobs| ==> l.rewardWallet == s.jobs[l.i].wallet
  }

  function Items(s: P.State, l: P.Label): seq<T.Item> {
    var o := OperationOf(s, l);
    if o.Some? && Outcome(s.db, o.value).Some? then [ItemOf(o.value)] else []
  }

  /** What a run of the protocol commits. */
  function Trace(ls: seq<P.Label>): seq<T.Item> {
    if ls == [] then [] else Trace(ls[..|ls| - 1]) + Items(P.Run(P.INIT, ls[..|ls| - 1]), ls[|ls| - 1])
  }

  ghost predicate CodesRewards(ls: seq<P.Label>) {
    ls == [] || (CodesRewards(ls[..|ls| - 1]) && CodesReward(P.Run(P.INIT, ls[..|ls| - 1]), ls[|ls| - 1]))
  }

  lemma StepIsSerial(s: P.State, l: P.Label, log: seq<T.Item>)
    requires CodesReward(s, l) && T.Serial(EMPTY, log) == Some(s.db)
    ensures T.Serial(EMPTY, log + Items(s, l)) == Some(P.Next(s, l).db)
  {
    StepIsOperation(s, l);
    var o := OperationOf(s, l);
    hide Outcome, ItemOf, P.Next, T.Atomic;
    if o.Some? && Outcome(s.db, o.value).Some? {
      OperationIsAtomic(s.db, o.value);
      SettlesProperly(s, l);
      assert (log + Items(s, l))[..|log|] == log;
    } else {
      assert log + [] == log;
    }
  }

  lemma SettlesProperly(s: P.State, l: P.Label)
    requires CodesReward(s, l) && OperationOf(s, l).Some? && Outcome(s.db, OperationOf(s, l).value).Some?
    ensures Proper(OperationOf(s, l).value)
  {
    OperationIsAtomic(s.db, OperationOf(s, l).value);
    hide FinalizeAccounts, UsageAllowed, FitsUsage, ReserveForUser, Release, AdminAdjust, T.Perform, Blank;
  }

  /** The tables of a run of the protocol are those of its transactions one after the other. */
  lemma {:induction false} TraceIsSerial(ls: seq<P.Label>)
    requires CodesRewards(ls)
    ensures T.Serial(EMPTY, Trace(ls)) == Some(P.Run(P.INIT, ls).db)
  {
    if ls != [] {
      hide P.Next, Items, CodesReward;
      TraceIsSerial(ls[..|ls| - 1]);
      StepIsSerial(P.Run(P.INIT, ls[..|ls| - 1]), ls[|ls| - 1], Trace(ls[..|ls| - 1]));
    }
  }

  /** Interleaved statements that commit what a run of the protocol commits, in its order, leave its tables. */
  lemma InterleavingsRefineProtocol(db: T.Db, fs: seq<T.Label>, ls: seq<P.Label>)
    requires T.Start(db) && db.tables == EMPTY && CodesRewards(ls)
    requires T.CommitOrder(db, fs) == Trace(ls)
    ensures T.Run(db, fs).tables == P.Run(P.INIT, ls).db
  {
    T.RunsAreSerial(db, fs);
    TraceIsSerial(ls);
  }

  /** There are such statements for every run of the protocol. */
  lemma ProtocolRunsAsStatements(ls: seq<P.Label>) returns (db: T.Db, fs: seq<T.Label>)
    requires CodesRewards(ls)
    ensures T.Start(db) && db.tables == EMPTY
    ensures T.CommitOrder(db, fs) == Trace(ls) && T.Run(db, fs).tables == P.Run(P.INIT, ls).db
  {
    db := T.Db(EMPTY, map[], map[], map[]);
    TraceIsSerial(ls);
    fs := Schedules.SerialOrdersRun(db, Trace(ls));
  }
}
