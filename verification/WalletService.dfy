/** WalletService and the job statements of the repository, statement by statement on one set of
    tables, each proved against its function in module Settlement. */
module WalletService {
  import opened Credits
  import opened Settlement
  import opened Text

  /** How a transaction may end: it committed exactly what the specification computes, or it failed
      and left every table as it was. Its own errors are those of the specification; a database
      fault may replace any outcome unless the database is reliable. */
  predicate Transacted(before: Tables, spec: Result<Tables>, after: Tables, err: Option<Error>, reliable: bool) {
    && (err.None? ==> spec == Ok(after))
    && (err.Some? ==> after == before)
    && (err.Some? && err.value != Fault ==> spec == Err(err.value))
    && (reliable ==> err != Some(Fault))
  }

  class Store {
    var accounts: seq<Account>
    var usage: seq<Usage>
    var status: seq<JobStatus>
    var ids: seq<nat>
    var emails: seq<string>
    var audit: seq<Adjustment>
    /** Statements that still succeed before the driver reports an error; negative: no error. */
    var faultIn: int

    constructor (t: Tables, faultIn: int)
      ensures Contents() == t && this.faultIn == faultIn
    {
      accounts, usage, status, ids, emails, audit := t.accounts, t.usage, t.status, t.ids, t.emails, t.audit;
      this.faultIn := faultIn;
    }

    ghost function Contents(): Tables
      reads this
    {
      Tables(accounts, usage, status, ids, emails, audit)
    }

    ghost predicate Reliable()
      reads this
    {
      faultIn < 0
    }

    /** The driver's part of one statement (or of BEGIN or COMMIT). */
    method Statement() returns (err: Option<Error>)
      modifies this`faultIn
      ensures err == None || err == Some(Fault)
      ensures old(Reliable()) ==> Reliable() && err == None
    {
      if faultIn == 0 {
        return Some(Fault);
      }
      faultIn := faultIn - 1;
      return None;
    }

    /** BEGIN: what a rollback will come back to. */
    method Begin() returns (saved: Tables, err: Option<Error>)
      modifies this`faultIn
      ensures saved == Contents() == old(Contents())
      ensures err == None || err == Some(Fault)
      ensures old(Reliable()) ==> Reliable() && err == None
    {
      saved := Tables(accounts, usage, status, ids, emails, audit);
      err := Statement();
    }

    /** InTx after its function: COMMIT, or the deferred rollback after any error. */
    method Finish(saved: Tables, err0: Option<Error>) returns (err: Option<Error>)
      modifies this`accounts, this`usage, this`status, this`emails, this`audit, this`faultIn
      requires saved.ids == ids
      ensures err.None? ==> err0.None? && Contents() == old(Contents())
      ensures err.Some? ==> Contents() == saved && (err == err0 || (err0.None? && err == Some(Fault)))
      ensures old(Reliable()) ==> Reliable() && (err0.None? ==> err == None)
    {
      err := err0;
      if err.None? {
        err := Statement();
      }
      if err.Some? {
        accounts, usage, status, emails, audit := saved.accounts, saved.usage, saved.status, saved.emails, saved.audit;
      }
    }

    /** Read the row, add, test, write the row, append the entry. */
    method AddLedger(w: nat, op: Op) returns (err: Option<Error>)
      modifies this`accounts, this`faultIn
      ensures err.None? ==> Post(old(accounts), Posting(w, op)) == Ok(accounts)
      ensures err.Some? && err.value != Fault ==> Post(old(accounts), Posting(w, op)) == Err(err.value)
      ensures old(Reliable()) ==> Reliable() && err != Some(Fault)
    {
      err := Statement();
      if err.Some? {
        return;
      }
      if w >= |accounts| {
        return Some(NotFound);
      }
      var balance, reserved := accounts[w].balance, accounts[w].reserved;
      balance := Wrap64(balance + op.amount);
      reserved := Wrap64(reserved + op.reservedDelta);
      if balance < 0 || reserved < 0 {
        return Some(InsufficientCredits);
      }
      err := Statement();
      if err.Some? {
        return;
      }
      accounts := accounts[w := accounts[w].(balance := balance, reserved := reserved)];
      err := Statement();
      if err.Some? {
        return;
      }
      accounts := accounts[w := accounts[w].(ledger := accounts[w].ledger + [Entry(op, balance, reserved)])];
      assert accounts == old(accounts)[w := Credits.AddLedger(old(accounts)[w], op).value];
    }

    /** A transaction made of one addLedger call. */
    method InTxAddLedger(w: nat, op: Op) returns (err: Option<Error>)
      modifies this`accounts, this`usage, this`status, this`emails, this`audit, this`faultIn
      ensures var r := Post(old(accounts), Posting(w, op));
              Transacted(old(Contents()), if r.Ok? then Ok(old(Contents()).(accounts := r.value)) else Err(r.error),
                         Contents(), err, old(Reliable()))
      ensures old(Reliable()) ==> Reliable()
    {
      var saved;
      saved, err := Begin();
      if err.None? {
        err := AddLedger(w, op);
      }
      err := Finish(saved, err);
    }

    method ReserveForUser(w: nat, amount: int) returns (err: Option<Error>)
      modifies this`accounts, this`usage, this`status, this`emails, this`audit, this`faultIn
      ensures Transacted(old(Contents()), Settlement.ReserveForUser(old(Contents()), w, amount),
                         Contents(), err, old(Reliable()))
      ensures old(Reliable()) ==> Reliable()
    {
      if amount <= 0 {
        return Some(InvalidInput);
      }
      err := InTxAddLedger(w, Op(Reserve, -amount, amount));
    }

    method Release(w: nat, amount: int) returns (err: Option<Error>)
      modifies this`accounts, this`usage, this`status, this`emails, this`audit, this`faultIn
      ensures Transacted(old(Contents()), Settlement.Release(old(Contents()), w, amount),
                         Contents(), err, old(Reliable()))
      ensures old(Reliable()) ==> Reliable()
    {
      if amount <= 0 {
        return Some(InvalidInput);
      }
      err := InTxAddLedger(w, Op(ReleaseReserve, amount, -amount));
    }

    method AdminAdjust(w: nat, amount: int, reason: string) returns (err: Option<Error>)
      modifies this`accounts, this`usage, this`status, this`emails, this`audit, this`faultIn
      ensures Transacted(old(Contents()), Settlement.AdminAdjust(old(Contents()), w, amount, reason),
                         Contents(), err, old(Reliable()))
      ensures old(Reliable()) ==> Reliable()
    {
      hide Blank, TrimSpace, Post;
      var trimmed := TrimSpace(reason);
      if amount == 0 || Blank(reason) {
        return Some(InvalidInput);
      }
      var saved;
      saved, err := Begin();
      if err.None? {
        err := Statement();  // the wallet of the user, locked
      }
      if err.None? {
        err := AddLedger(w, Op(AdminAdjustment, amount, 0));
      }
      if err.None? {
        err := Statement();
      }
      if err.None? {
        audit := audit + [Adjustment(w, amount, trimmed)];
        err := Statement();  // the wallet read back
      }
      err := Finish(saved, err);
    }

    /** `email` is the normalised address. */
    method Register(email: string, grant: int) returns (err: Option<Error>)
      modifies this`accounts, this`usage, this`status, this`emails, this`audit, this`faultIn
      ensures Transacted(old(Contents()), Settlement.Register(old(Contents()), email, grant),
                         Contents(), err, old(Reliable()))
      ensures old(Reliable()) ==> Reliable()
    {
      hide Post;
      var saved;
      saved, err := Begin();
      if err.None? {
        err := CreateUser(email);
      }
      if err.None? {
        err := Statement();
      }
      if err.None? {
        var w := |accounts|;
        accounts := accounts + [NEW_ACCOUNT];
        err := AddLedger(w, Op(Grant, grant, 0));
      }
      err := Finish(saved, err);
    }

    /** CountUsers and the insert of the user row, whose e-mail is unique. */
    method CreateUser(email: string) returns (err: Option<Error>)
      modifies this`emails, this`faultIn
      ensures err.None? ==> email !in old(emails) && emails == old(emails) + [email]
      ensures err.Some? && err.value != Fault ==> email in old(emails) && err == Some(ConstraintViolated)
      ensures old(Reliable()) ==> Reliable() && err != Some(Fault)
    {
      err := Statement();
      if err.None? {
        err := Statement();
      }
      if err.Some? {
        return;
      }
      if email in emails {
        return Some(ConstraintViolated);
      }
      emails := emails + [email];
    }

    /** The body of the FinalizeUsage transaction before its usage record. */
    method FinalizeLedger(s: UsageSettlement) returns (err: Option<Error>)
      modifies this`accounts, this`faultIn
      ensures err.None? ==> FinalizeAccounts(old(accounts), s) == Ok(accounts)
      ensures err.Some? && err.value != Fault ==> FinalizeAccounts(old(accounts), s) == Err(err.value)
      ensures old(Reliable()) ==> Reliable() && err != Some(Fault)
    {
      err := None;
      if s.reserved > 0 {
        err := AddLedger(s.wallet, Op(ReleaseReserve, s.reserved, -s.reserved));
        if err.Some? {
          return;
        }
      }
      if s.cost > 0 {
        err := AddLedger(s.wallet, Op(DebitUsage, -s.cost, 0));
        if err.Some? {
          return;
        }
      }
      if s.reward > 0 {
        err := AddLedger(s.rewardWallet, Op(CreditProviderReward, s.reward, 0));
      }
    }

    /** Three ledger entries, the usage record, the job row and the statistics in one transaction. */
    method FinalizeUsage(s: UsageSettlement) returns (err: Option<Error>)
      modifies this`accounts, this`usage, this`status, this`emails, this`audit, this`faultIn
      ensures Transacted(old(Contents()), Settlement.FinalizeUsage(old(Contents()), s),
                         Contents(), err, old(Reliable()))
      ensures old(Reliable()) ==> Reliable()
    {
      hide FinalizeAccounts, FitsUsage;
      if s.reserved < 0 || s.cost < 0 || s.reward < 0 {
        return Some(InvalidInput);
      }
      var saved;
      saved, err := Begin();
      if err.None? {
        err := FinalizeLedger(s);
      }
      if err.None? {
        err := InsertUsage(s);
      }
      if err.None? {
        err := Statement();
      }
      if err.None? {
        status := status[s.job := Succeeded];
        err := Statement();  // provider_stats
      }
      err := Finish(saved, err);
    }

    method InsertUsage(s: UsageSettlement) returns (err: Option<Error>)
      modifies this`usage, this`faultIn
      ensures err.None? ==>
                FitsUsage(s.measured) && UsageAllowed(old(Contents()), s.job) && usage == old(usage) + [RecordOf(s)]
      ensures err.Some? && err.value != Fault ==>
                err == Some(if !FitsUsage(s.measured) then OutOfRange else ConstraintViolated)
                && !(FitsUsage(s.measured) && UsageAllowed(old(Contents()), s.job))
      ensures old(Reliable()) ==> Reliable() && err != Some(Fault)
    {
      err := Statement();
      if err.Some? {
        return;
      }
      if !FitsUsage(s.measured) {
        return Some(OutOfRange);
      }
      if s.job >= |status| {
        return Some(ConstraintViolated);
      }
      for k := 0 to |usage|
        invariant forall m :: 0 <= m < k ==> usage[m].job != s.job
        invariant usage == old(usage)
      {
        if usage[k].job == s.job {
          return Some(ConstraintViolated);
        }
      }
      usage := usage + [RecordOf(s)];
    }

    method CreateJob(id: nat, inputTokens: int, outputTokens: int) returns (job: nat, err: Option<Error>)
      modifies this`status, this`ids, this`faultIn
      ensures Transacted(old(Contents()), Settlement.CreateJob(old(Contents()), id, inputTokens, outputTokens),
                         Contents(), err, old(Reliable()))
      ensures job == |old(status)|
      ensures old(Reliable()) ==> Reliable()
    {
      job := |status|;
      err := Statement();
      if err.Some? {
        return;
      }
      if !IsInt32(inputTokens) || !IsInt32(outputTokens) {
        return job, Some(OutOfRange);
      }
      if id in ids {
        return job, Some(ConstraintViolated);
      }
      status, ids := status + [Queued], ids + [id];
    }

    /** MarkJobDispatched and MarkJobFailed. */
    method MarkJob(job: nat, s: JobStatus) returns (err: Option<Error>)
      modifies this`status, this`faultIn
      ensures Contents() == if err.None? then Settlement.MarkJob(old(Contents()), job, s) else old(Contents())
      ensures err == None || err == Some(Fault)
      ensures old(Reliable()) ==> Reliable() && err.None?
    {
      err := Statement();
      if err.None? && job < |status| {
        status := status[job := s];
      }
    }
  }
}
