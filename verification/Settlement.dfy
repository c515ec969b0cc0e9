/** The wallet transactions of services.go as functions on the committed tables. Each either
    returns the new tables or an error, and an error means the transaction rolled back. */
module Settlement {
  import opened Credits
  import opened Text

  datatype JobStatus = Queued | Dispatched | Succeeded | Failed

  /** What a result measured: the token counts charged for and the provider's latency. */
  datatype Measured = Measured(inputTokens: int, outputTokens: int, latency: int)

  /** One row of usage_records. */
  datatype Usage = Usage(job: nat, cost: int, reward: int, measured: Measured)

  /** One wallet adjustment in audit_log. */
  datatype Adjustment = Adjustment(wallet: nat, amount: int, reason: string)

  /** Wallet ids are positions in `accounts`, job ids positions in `status` and `ids`; `ids` are the
      public ids of the jobs. */
  datatype Tables = Tables(
    accounts: seq<Account>, usage: seq<Usage>, status: seq<JobStatus>, ids: seq<nat>,
    emails: seq<string>, audit: seq<Adjustment>)

  const EMPTY := Tables([], [], [], [], [], [])

  /** OutOfRange stands for a value the column cannot hold, Fault for any error of the database itself,
      at any statement. */
  datatype Error = InvalidInput | InsufficientCredits | NotFound | OutOfRange | ConstraintViolated | Fault

  datatype Result<+T> = Ok(value: T) | Err(error: Error)

  // ---- Postings ----

  datatype Posting = Posting(wallet: nat, op: Op)

  function Post(accounts: seq<Account>, p: Posting): Result<seq<Account>> {
    if p.wallet >= |accounts| then Err(NotFound)
    else
      var r := AddLedger(accounts[p.wallet], p.op);
      if r.None? then Err(InsufficientCredits) else Ok(accounts[p.wallet := r.value])
  }

  /** A posting made only when its amount is positive, after an earlier one that may have failed. */
  function PostIf(r: Result<seq<Account>>, positive: bool, p: Posting): Result<seq<Account>> {
    if r.Err? || !positive then r else Post(r.value, p)
  }

  // ---- Transactions ----

  /** The registration transaction: a new user, a new wallet and its starting grant. */
  function Register(t: Tables, email: string, grant: int): Result<Tables> {
    if email in t.emails then Err(ConstraintViolated)
    else
      var accounts := t.accounts + [NEW_ACCOUNT];
      var r := Post(accounts, Posting(|t.accounts|, Op(Grant, grant, 0)));
      if r.Err? then Err(r.error) else Ok(t.(accounts := r.value, emails := t.emails + [email]))
  }

  function AdminAdjust(t: Tables, wallet: nat, amount: int, reason: string): Result<Tables> {
    if amount == 0 || Blank(reason) then Err(InvalidInput)
    else
      var r := Post(t.accounts, Posting(wallet, Op(AdminAdjustment, amount, 0)));
      if r.Err? then Err(r.error)
      else Ok(t.(accounts := r.value, audit := t.audit + [Adjustment(wallet, amount, TrimSpace(reason))]))
  }

  function ReserveForUser(t: Tables, wallet: nat, amount: int): Result<Tables> {
    if amount <= 0 then Err(InvalidInput)
    else
      var r := Post(t.accounts, Posting(wallet, Op(Reserve, -amount, amount)));
      if r.Err? then Err(r.error) else Ok(t.(accounts := r.value))
  }

  function Release(t: Tables, wallet: nat, amount: int): Result<Tables> {
    if amount <= 0 then Err(InvalidInput)
    else
      var r := Post(t.accounts, Posting(wallet, Op(ReleaseReserve, amount, -amount)));
      if r.Err? then Err(r.error) else Ok(t.(accounts := r.value))
  }

  /** `rewardWallet` is the wallet the reward is credited to. services.go passes the user's own
      wallet, README.md and the design name the provider's; the laws below hold for any choice. */
  datatype UsageSettlement = UsageSettlement(
    wallet: nat, rewardWallet: nat, reserved: int, cost: int, reward: int, job: nat, measured: Measured)

  function ReleasePosting(s: UsageSettlement): Posting {
    Posting(s.wallet, Op(ReleaseReserve, s.reserved, -s.reserved))
  }

  function DebitPosting(s: UsageSettlement): Posting {
    Posting(s.wallet, Op(DebitUsage, -s.cost, 0))
  }

  function RewardPosting(s: UsageSettlement): Posting {
    Posting(s.rewardWallet, Op(CreditProviderReward, s.reward, 0))
  }

  /** The ledger part of the settlement transaction. */
  function FinalizeAccounts(accounts: seq<Account>, s: UsageSettlement): Result<seq<Account>> {
    PostIf(PostIf(PostIf(Ok(accounts), s.reserved > 0, ReleasePosting(s)),
                  s.cost > 0, DebitPosting(s)),
           s.reward > 0, RewardPosting(s))
  }

  /** The INT columns of usage_records: both counts, their total and the latency. */
  predicate FitsUsage(m: Measured) {
    IsInt32(m.inputTokens) && IsInt32(m.outputTokens) && IsInt32(m.inputTokens + m.outputTokens) && IsInt32(m.latency)
  }

  function RecordOf(s: UsageSettlement): Usage {
    Usage(s.job, s.cost, s.reward, s.measured)
  }

  /** usage_records.job_id is unique and references inference_jobs. */
  predicate UsageAllowed(t: Tables, job: nat) {
    job < |t.status| && forall k :: 0 <= k < |t.usage| ==> t.usage[k].job != job
  }

  function FinalizeUsage(t: Tables, s: UsageSettlement): Result<Tables> {
    if s.reserved < 0 || s.cost < 0 || s.reward < 0 then Err(InvalidInput)
    else
      var r := FinalizeAccounts(t.accounts, s);
      if r.Err? then Err(r.error)
      else if !FitsUsage(s.measured) then Err(OutOfRange)
      else if !UsageAllowed(t, s.job) then Err(ConstraintViolated)
      else Ok(t.(accounts := r.value, usage := t.usage + [RecordOf(s)], status := t.status[s.job := Succeeded]))
  }

  // ---- Job rows ----

  /** INSERT INTO inference_jobs: the public id is unique and the estimates are INT columns. */
  function CreateJob(t: Tables, id: nat, inputTokens: int, outputTokens: int): Result<Tables> {
    if !IsInt32(inputTokens) || !IsInt32(outputTokens) then Err(OutOfRange)
    else if id in t.ids then Err(ConstraintViolated)
    else Ok(t.(status := t.status + [Queued], ids := t.ids + [id]))
  }

  /** MarkJobDispatched and MarkJobFailed; a missing row is no error. */
  function MarkJob(t: Tables, job: nat, status: JobStatus): Tables {
    if job < |t.status| then t.(status := t.status[job := status]) else t
  }

  // ---- Laws of postings ----

  ghost predicate AllInRange(accounts: seq<Account>) {
    forall w :: 0 <= w < |accounts| ==> InRange(accounts[w])
  }

  ghost predicate AllSound(accounts: seq<Account>) {
    forall w :: 0 <= w < |accounts| ==> Sound(accounts[w])
  }

  /** All credits in all wallets, spendable or reserved. */
  function Total(accounts: seq<Account>): int {
    if accounts == [] then 0
    else Total(accounts[..|accounts| - 1]) + accounts[|accounts| - 1].balance + accounts[|accounts| - 1].reserved
  }

  lemma {:induction false} TotalUpdate(accounts: seq<Account>, w: nat, a: Account)
    requires w < |accounts|
    ensures Total(accounts[w := a]) ==
            Total(accounts) - accounts[w].balance - accounts[w].reserved + a.balance + a.reserved
  {
    var n := |accounts| - 1;
    if w == n {
      assert accounts[w := a][..n] == accounts[..n];
    } else {
      assert accounts[w := a][..n] == accounts[..n][w := a];
      TotalUpdate(accounts[..n], w, a);
    }
  }

  /** A posting moves its own wallet by its deltas, no other wallet, and the total by their sum. */
  lemma PostEffect(accounts: seq<Account>, p: Posting)
    requires AllInRange(accounts) && IsOp(p.op) && Post(accounts, p).Ok?
    ensures var r := Post(accounts, p).value;
            && AllInRange(r)
            && Moved(accounts, r, p.wallet, p.op.amount, p.op.reservedDelta)
            && Total(r) == Total(accounts) + p.op.amount + p.op.reservedDelta
  {
    AddLedgerAccepts(accounts[p.wallet], p.op);
    TotalUpdate(accounts, p.wallet, AddLedger(accounts[p.wallet], p.op).value);
  }

  /** Every accepted posting leaves every ledger replayable. */
  lemma PostIfSound(r: Result<seq<Account>>, positive: bool, p: Posting)
    requires r.Ok? && AllSound(r.value)
    requires positive ==> IsOp(p.op)
    ensures PostIf(r, positive, p).Ok? ==> AllSound(PostIf(r, positive, p).value)
  {
    if positive && Post(r.value, p).Ok? {
      AddLedgerSound(r.value[p.wallet], p.op);
    }
  }

  /** `after` is `before` with wallet w moved by the two deltas; ledgers only grow. */
  ghost predicate Moved(before: seq<Account>, after: seq<Account>, w: nat, amount: int, reserved: int) {
    && |after| == |before| && w < |after|
    && after[w].balance == before[w].balance + amount
    && after[w].reserved == before[w].reserved + reserved
    && before[w].ledger <= after[w].ledger
    && forall v :: 0 <= v < |after| && v != w ==> after[v] == before[v]
  }

  /** PostEffect for a posting that may be absent, wallet by wallet. */
  lemma PostIfEffect(accounts: seq<Account>, positive: bool, p: Posting)
    requires AllInRange(accounts) && IsOp(p.op) && PostIf(Ok(accounts), positive, p).Ok?
    requires !positive ==> p.op.amount == p.op.reservedDelta == 0
    ensures var r := PostIf(Ok(accounts), positive, p).value;
            && AllInRange(r) && |r| == |accounts|
            && (positive ==> p.wallet < |accounts|)
            && (forall w :: 0 <= w < |r| ==>
                  && r[w].balance == accounts[w].balance + (if w == p.wallet then p.op.amount else 0)
                  && r[w].reserved == accounts[w].reserved + (if w == p.wallet then p.op.reservedDelta else 0))
            && Total(r) == Total(accounts) + p.op.amount + p.op.reservedDelta
  {
    if positive {
      PostEffect(accounts, p);
    }
  }

  // ---- Settlement ----

  predicate Int64Settlement(s: UsageSettlement) {
    IsInt64(s.reserved) && IsInt64(s.cost) && IsInt64(s.reward)
  }

  /** What a successful settlement does to the wallets, for any reward wallet. */
  lemma FinalizeEffect(t: Tables, s: UsageSettlement)
    requires AllInRange(t.accounts) && Int64Settlement(s)
    requires FinalizeUsage(t, s).Ok?
    ensures var r := FinalizeUsage(t, s).value;
            && AllInRange(r.accounts) && |r.accounts| == |t.accounts|
            && (forall w :: 0 <= w < |r.accounts| ==>
                  && r.accounts[w].balance == t.accounts[w].balance
                       + (if w == s.wallet then s.reserved - s.cost else 0)
                       + (if w == s.rewardWallet then s.reward else 0)
                  && r.accounts[w].reserved == t.accounts[w].reserved - if w == s.wallet then s.reserved else 0)
            && Total(r.accounts) == Total(t.accounts) - (s.cost - s.reward)
  {
    PostIfEffect(t.accounts, s.reserved > 0, ReleasePosting(s));
    var a1 := PostIf(Ok(t.accounts), s.reserved > 0, ReleasePosting(s)).value;
    PostIfEffect(a1, s.cost > 0, DebitPosting(s));
    var a2 := PostIf(Ok(a1), s.cost > 0, DebitPosting(s)).value;
    PostIfEffect(a2, s.reward > 0, RewardPosting(s));
  }

  lemma FinalizeSound(t: Tables, s: UsageSettlement)
    requires AllSound(t.accounts) && Int64Settlement(s) && FinalizeUsage(t, s).Ok?
    ensures AllSound(FinalizeUsage(t, s).value.accounts)
  {
    var r0: Result<seq<Account>> := Ok(t.accounts);
    PostIfSound(r0, s.reserved > 0, ReleasePosting(s));
    var r1 := PostIf(r0, s.reserved > 0, ReleasePosting(s));
    PostIfSound(r1, s.cost > 0, DebitPosting(s));
    PostIfSound(PostIf(r1, s.cost > 0, DebitPosting(s)), s.reward > 0, RewardPosting(s));
  }

  /** With the reservation still held and the cost capped at it, a settlement paid out to the user's
      wallet is refused only where a balance would pass the 64-bit range or a measured figure does not
      fit its column. */
  lemma FinalizeAccepts(t: Tables, s: UsageSettlement)
    requires AllInRange(t.accounts) && Int64Settlement(s)
    requires s.wallet == s.rewardWallet < |t.accounts| && UsageAllowed(t, s.job)
    requires 0 <= s.cost <= s.reserved && 0 <= s.reward && 0 < s.reserved <= t.accounts[s.wallet].reserved
    ensures FinalizeUsage(t, s).Ok? <==>
            && FitsUsage(s.measured)
            && t.accounts[s.wallet].balance + s.reserved <= MAX_INT64
            && t.accounts[s.wallet].balance + s.reserved - s.cost + s.reward <= MAX_INT64
    ensures var m := s.measured;
            FitsUsage(m) <==>
              && -0x8000_0000 <= m.inputTokens < 0x8000_0000 && -0x8000_0000 <= m.outputTokens < 0x8000_0000
              && -0x8000_0000 <= m.inputTokens + m.outputTokens < 0x8000_0000 && -0x8000_0000 <= m.latency < 0x8000_0000
  {
    AddLedgerAccepts(t.accounts[s.wallet], ReleasePosting(s).op);
    if Post(t.accounts, ReleasePosting(s)).Ok? {
      PostIfEffect(t.accounts, true, ReleasePosting(s));
      var a1 := Post(t.accounts, ReleasePosting(s)).value;
      AddLedgerAccepts(a1[s.wallet], DebitPosting(s).op);
      PostIfEffect(a1, s.cost > 0, DebitPosting(s));
      var a2 := PostIf(Ok(a1), s.cost > 0, DebitPosting(s)).value;
      AddLedgerAccepts(a2[s.wallet], RewardPosting(s).op);
    }
  }

  /** Credits can be reserved exactly when they are there, are some, and keep the reserved sum in range. */
  lemma ReserveAccepts(t: Tables, w: nat, amount: int)
    requires AllInRange(t.accounts) && IsInt64(amount)
    ensures ReserveForUser(t, w, amount).Ok? <==>
            w < |t.accounts| && 0 < amount <= t.accounts[w].balance && t.accounts[w].reserved + amount <= MAX_INT64
  {
    if w < |t.accounts| && amount > 0 {
      assert InRange(t.accounts[w]);
      AddLedgerAccepts(t.accounts[w], Op(Reserve, -amount, amount));
    }
  }

  /** A held reservation can be released unless the balance would pass the 64-bit range. */
  lemma ReleaseAccepts(t: Tables, w: nat, amount: int)
    requires AllInRange(t.accounts) && w < |t.accounts|
    requires IsInt64(amount) && 0 < amount <= t.accounts[w].reserved
    ensures Release(t, w, amount).Ok? <==> t.accounts[w].balance + amount <= MAX_INT64
  {
    AddLedgerAccepts(t.accounts[w], Op(ReleaseReserve, amount, -amount));
  }

  /** Settling a job again is refused, whatever amounts are offered: once a settlement succeeded no
      later one for the same job changes any table. */
  lemma SettlesOnce(t: Tables, s: UsageSettlement, again: UsageSettlement)
    requires FinalizeUsage(t, s).Ok? && again.job == s.job
    ensures FinalizeUsage(FinalizeUsage(t, s).value, again).Err?
  {
    var r := FinalizeUsage(t, s).value;
    assert r.usage[|t.usage|].job == s.job;
    assert !UsageAllowed(r, s.job);
  }

  /** Release undoes ReserveForUser: the row comes back, and only the ledger has grown. */
  lemma ReleaseUndoesReserve(t: Tables, w: nat, amount: int)
    requires AllInRange(t.accounts) && IsInt64(amount) && ReserveForUser(t, w, amount).Ok?
    ensures var held := ReserveForUser(t, w, amount).value;
            && Release(held, w, amount).Ok?
            && var r := Release(held, w, amount).value;
               && |r.accounts| == |t.accounts|
               && (forall v :: 0 <= v < |t.accounts| && v != w ==> r.accounts[v] == t.accounts[v])
               && r.accounts[w].balance == t.accounts[w].balance
               && r.accounts[w].reserved == t.accounts[w].reserved
               && t.accounts[w].ledger <= r.accounts[w].ledger
  {
    PostEffect(t.accounts, Posting(w, Op(Reserve, -amount, amount)));
    var held := ReserveForUser(t, w, amount).value;
    ReleaseAccepts(held, w, amount);
    PostEffect(held.accounts, Posting(w, Op(ReleaseReserve, amount, -amount)));
  }

  /** A release can be refused: an administrator may fill the wallet to the top of the 64-bit range
      while a reservation is out. */
  lemma ReleaseCanBeRefused() returns (t0: Tables, t1: Tables, t2: Tables)
    ensures Register(EMPTY, "a@b", 12) == Ok(t0)
    ensures ReserveForUser(t0, 0, 10) == Ok(t1)
    ensures AdminAdjust(t1, 0, MAX_INT64 - 5, "top up") == Ok(t2)
    ensures Release(t2, 0, 10) == Err(InsufficientCredits)
  {
    hide AddLedger, Blank, TrimSpace;
    NotBlank("top up");
    AddLedgerAccepts(NEW_ACCOUNT, Op(Grant, 12, 0));
    t0 := Register(EMPTY, "a@b", 12).value;
    var a0 := t0.accounts[0];
    AddLedgerAccepts(a0, Op(Reserve, -10, 10));
    t1 := ReserveForUser(t0, 0, 10).value;
    var a1 := t1.accounts[0];
    AddLedgerAccepts(a1, Op(AdminAdjustment, MAX_INT64 - 5, 0));
    t2 := AdminAdjust(t1, 0, MAX_INT64 - 5, "top up").value;
    var a2 := t2.accounts[0];
    AddLedgerAccepts(a2, Op(ReleaseReserve, 10, -10));
  }

  lemma NotBlank(s: string)
    requires s != "" && !IsSpace(s[0])
    ensures !Blank(s)
  {
    assert TrimLeft(s, IsSpace) == s;
    KeepsFirst(s);
  }

  lemma {:induction false} KeepsFirst(s: string)
    requires s != "" && !IsSpace(s[0])
    ensures TrimRight(s, IsSpace) != ""
  {
    if IsSpace(s[|s| - 1]) {
      KeepsFirst(s[..|s| - 1]);
    }
  }
}
