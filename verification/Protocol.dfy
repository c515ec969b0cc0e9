/** Any number of concurrent chat requests, administrator adjustments, registrations and provider
    messages: the request state machine of ChatCompletions over the wallet transactions of module
    Settlement and the hub of module Hub. Every transaction may be aborted by the database. */
module Protocol {
  import opened Credits
  import opened Metering
  import opened Settlement
  import opened Text
  import opened Billing
  import H = Hub

  /** Where a request stands between the statements of ChatCompletions. */
  datatype Phase =
    | Created
    | Refused
    | Reserved
    | Dispatching
    | Releasing(thenFail: bool)
    | Failing
    | Settling(bill: Bill)
    | Done

  /** A request and its job row. The last four fields count what happened to its reservation; `lost`
      counts releases that were refused or aborted, which the handler ignores. */
  datatype Job = Job(id: nat, wallet: nat, terms: Terms, quote: int, phase: Phase,
                     taken: nat, released: nat, settled: nat, lost: nat)

  /** Job i has its status in db.status[i] and is dispatched by goroutine i of the hub. `granted` and
      `adjusted` sum the starting grants and the adjustments that committed. */
  datatype State = State(db: Tables, hub: H.State, jobs: seq<Job>, granted: int, adjusted: int)

  const INIT := State(EMPTY, H.EMPTY, [], 0, 0)

  /** `ok` is false when the database aborts the step's transaction. */
  datatype Label =
    | SignUp(email: string, grant: int, ok: bool)
    | OpenProviderWallet
    | Adjust(wallet: nat, amount: int, reason: string, ok: bool)
    | Create(id: nat, wallet: nat, terms: Terms)
    | ReserveCredits(i: nat, ok: bool)
    | MarkDispatched(i: nat, ok: bool)
    | EndDispatch(i: nat)
    | ReleaseCredits(i: nat, ok: bool)
    | Finalize(i: nat, rewardWallet: nat, ok: bool)
    | MarkFailed(i: nat, ok: bool)
    | HubStep(l: H.Label)

  function Tx(ok: bool, r: Result<Tables>): Result<Tables> {
    if ok then r else Err(Fault)
  }

  function SetJob(s: State, i: nat, j: Job): State
    requires i < |s.jobs|
  {
    s.(jobs := s.jobs[i := j])
  }

  predicate In(s: State, i: nat, phase: Phase) {
    i < |s.jobs| && s.jobs[i].phase == phase
  }

  function DoSignUp(s: State, email: string, grant: int, ok: bool): State {
    var r := Tx(ok, Register(s.db, email, grant));
    if r.Ok? then s.(db := r.value, granted := s.granted + grant) else s
  }

  function DoAdjust(s: State, wallet: nat, amount: int, reason: string, ok: bool): State {
    var r := Tx(ok, AdminAdjust(s.db, wallet, amount, reason));
    if r.Ok? then s.(db := r.value, adjusted := s.adjusted + amount) else s
  }

  /** The job row is inserted before anything else; its public id is unique in the table. */
  function DoCreate(s: State, id: nat, wallet: nat, terms: Terms): State {
    var r := CreateJob(s.db, id, EstimateTokensFromChars(terms.inputChars), terms.maxTokens);
    if r.Ok? then
      s.(db := r.value, jobs := s.jobs + [Job(id, wallet, terms, Quote(terms), Created, 0, 0, 0, 0)])
    else s
  }

  function DoReserve(s: State, i: nat, ok: bool): State
    requires In(s, i, Created)
  {
    var j := s.jobs[i];
    var r := Tx(ok, ReserveForUser(s.db, j.wallet, j.quote));
    if r.Ok? then SetJob(s, i, j.(phase := Reserved, taken := j.taken + 1)).(db := r.value)
    else SetJob(s, i, j.(phase := Refused))
  }

  function DoMark(s: State, i: nat, phase: Phase, status: JobStatus, ok: bool): State
    requires i < |s.jobs|
  {
    var n := SetJob(s, i, s.jobs[i].(phase := phase));
    if ok then n.(db := MarkJob(s.db, i, status)) else n
  }

  /** A dispatch error and a provider error lead to a release, a result without error to a settlement. */
  function AfterDispatch(j: Job, o: H.Outcome): Phase
    requires IsInt64(j.quote)
  {
    if H.Usable(o) then Settling(Charge(j.terms, j.quote, o.result))
    else Releasing(true)
  }

  function AfterRelease(j: Job): Phase
    requires j.phase.Releasing?
  {
    if j.phase.thenFail then Failing else Done
  }

  function DoRelease(s: State, i: nat, ok: bool): State
    requires i < |s.jobs| && s.jobs[i].phase.Releasing?
  {
    var j := s.jobs[i];
    var r := Tx(ok, Release(s.db, j.wallet, j.quote));
    if r.Ok? then SetJob(s, i, j.(phase := AfterRelease(j), released := j.released + 1)).(db := r.value)
    else SetJob(s, i, j.(phase := AfterRelease(j), lost := j.lost + 1))
  }

  function SettlementOf(j: Job, i: nat, rewardWallet: nat): UsageSettlement
    requires j.phase.Settling?
  {
    UsageSettlement(j.wallet, rewardWallet, j.quote, j.phase.bill.cost, j.phase.bill.reward, i, j.phase.bill.measured)
  }

  function DoFinalize(s: State, i: nat, rewardWallet: nat, ok: bool): State
    requires i < |s.jobs| && s.jobs[i].phase.Settling?
  {
    var j := s.jobs[i];
    var r := Tx(ok, FinalizeUsage(s.db, SettlementOf(j, i, rewardWallet)));
    if r.Ok? then SetJob(s, i, j.(phase := Done, settled := j.settled + 1)).(db := r.value)
    else SetJob(s, i, j.(phase := Releasing(false)))
  }

  /** A goroutine enters Dispatch only from its request, with its own job id. */
  predicate HubMayStep(s: State, l: H.Label) {
    l.Lookup? ==> In(s, l.g, Dispatching) && l.job == s.jobs[l.g].id
  }

  predicate DispatchReturned(s: State, i: nat) {
    i in s.hub.dispatches && s.hub.dispatches[i].stage.Returned?
  }

  /** One atomic step; a label that is not enabled changes nothing. */
  function Next(s: State, l: Label): State {
    match l
    case SignUp(email, grant, ok) => if IsInt64(grant) then DoSignUp(s, email, grant, ok) else s
    case OpenProviderWallet => s.(db := s.db.(accounts := s.db.accounts + [NEW_ACCOUNT]))
    case Adjust(w, amount, reason, ok) => if IsInt64(amount) then DoAdjust(s, w, amount, reason, ok) else s
    case Create(id, w, terms) => DoCreate(s, id, w, terms)
    case ReserveCredits(i, ok) => if In(s, i, Created) then DoReserve(s, i, ok) else s
    case MarkDispatched(i, ok) => if In(s, i, Reserved) then DoMark(s, i, Dispatching, Dispatched, ok) else s
    case EndDispatch(i) =>
      if In(s, i, Dispatching) && DispatchReturned(s, i) && IsInt64(s.jobs[i].quote) then
        SetJob(s, i, s.jobs[i].(phase := AfterDispatch(s.jobs[i], s.hub.dispatches[i].stage.outcome)))
      else s
    case ReleaseCredits(i, ok) => if i < |s.jobs| && s.jobs[i].phase.Releasing? then DoRelease(s, i, ok) else s
    case Finalize(i, w, ok) => if i < |s.jobs| && s.jobs[i].phase.Settling? then DoFinalize(s, i, w, ok) else s
    case MarkFailed(i, ok) =>
      if In(s, i, Refused) || In(s, i, Failing) then DoMark(s, i, Done, Failed, ok) else s
    case HubStep(h) => if HubMayStep(s, h) then s.(hub := H.Next(s.hub, h)) else s
  }

  function Run(s: State, ls: seq<Label>): State {
    if ls == [] then s else Next(Run(s, ls[..|ls| - 1]), ls[|ls| - 1])
  }

  // ---- What holds in every reachable state ----

  predicate Unsettled(status: JobStatus) {
    status == Queued || status == Dispatched
  }

  /** The phase of a request tells what has happened to its reservation and its job row. */
  predicate JobOk(j: Job, status: JobStatus) {
    && IsInt64(j.quote)
    && (j.taken == 1 ==> j.quote > 0)
    && match j.phase
       case Created => j.taken == j.released == j.settled == j.lost == 0 && status == Queued
       case Refused => j.taken == j.released == j.settled == j.lost == 0 && status == Queued
       case Reserved => j.taken == 1 && j.released == j.settled == j.lost == 0 && status == Queued
       case Dispatching => j.taken == 1 && j.released == j.settled == j.lost == 0 && Unsettled(status)
       case Releasing(_) => j.taken == 1 && j.released == j.settled == j.lost == 0 && Unsettled(status)
       case Settling(b) =>
         && j.taken == 1 && j.released == j.settled == j.lost == 0 && Unsettled(status)
         && b.cost <= j.quote && IsInt64(b.cost) && IsInt64(b.reward)
       case Failing => j.taken == 1 && j.released + j.lost == 1 && j.settled == 0 && Unsettled(status)
       case Done =>
         && j.taken <= 1 && j.released + j.settled + j.lost == j.taken
         && (j.settled == 1 <==> status == Succeeded)
  }

  ghost predicate JobsOk(jobs: seq<Job>, status: seq<JobStatus>) {
    |jobs| == |status| && forall i :: 0 <= i < |jobs| ==> JobOk(jobs[i], status[i])
  }

  ghost predicate WalletsExist(jobs: seq<Job>, wallets: nat) {
    forall i :: 0 <= i < |jobs| && jobs[i].taken == 1 ==> jobs[i].wallet < wallets
  }

  ghost predicate IdsMatch(ids: seq<nat>, jobs: seq<Job>) {
    |ids| == |jobs| && forall i :: 0 <= i < |jobs| ==> ids[i] == jobs[i].id
  }

  ghost predicate DistinctIds(jobs: seq<Job>) {
    forall i, k | 0 <= i < k < |jobs| :: jobs[i].id != jobs[k].id
  }

  /** What a job still holds of its wallet's reserved credits: its quote until it is released or
      settled, for ever if its release was lost. */
  function Held(j: Job): int {
    if j.taken > j.released + j.settled then j.quote else 0
  }

  function HeldOf(j: Job, w: nat): int {
    if j.wallet == w then Held(j) else 0
  }

  function HeldSum(jobs: seq<Job>, w: nat): int {
    if jobs == [] then 0 else HeldSum(jobs[..|jobs| - 1], w) + HeldOf(jobs[|jobs| - 1], w)
  }

  ghost predicate ReservesMatch(accounts: seq<Account>, jobs: seq<Job>) {
    forall w :: 0 <= w < |accounts| ==> accounts[w].reserved == HeldSum(jobs, w)
  }

  /** Usage records name exactly the settled jobs, each once. */
  ghost predicate UsageMatches(usage: seq<Usage>, jobs: seq<Job>) {
    && (forall k :: 0 <= k < |usage| ==> usage[k].job < |jobs| && jobs[usage[k].job].settled == 1)
    && (forall k, m | 0 <= k < m < |usage| :: usage[k].job != usage[m].job)
    && (forall i :: 0 <= i < |jobs| && jobs[i].settled == 1 ==> exists k :: 0 <= k < |usage| && usage[k].job == i)
  }

  /** The difference between what users paid and what was paid out, over all settled jobs. */
  function Margin(usage: seq<Usage>): int {
    if usage == [] then 0
    else Margin(usage[..|usage| - 1]) + usage[|usage| - 1].cost - usage[|usage| - 1].reward
  }

  predicate BeforeDispatch(p: Phase) {
    p.Created? || p.Refused? || p.Reserved?
  }

  /** Each hub goroutine dispatches the job of its own request, after its reservation. */
  ghost predicate Linked(ds: map<nat, H.Dispatch>, jobs: seq<Job>) {
    forall g :: g in ds ==> g < |jobs| && ds[g].job == jobs[g].id && !BeforeDispatch(jobs[g].phase)
  }

  /** Only a consumed result without an error code leads to a settlement. */
  predicate GotResult(ds: map<nat, H.Dispatch>, i: nat) {
    i in ds && ds[i].stage.Returned? && H.Usable(ds[i].stage.outcome)
  }

  ghost predicate SettledByResult(ds: map<nat, H.Dispatch>, jobs: seq<Job>) {
    forall i :: 0 <= i < |jobs| && (jobs[i].phase.Settling? || jobs[i].settled >= 1) ==> GotResult(ds, i)
  }

  /** Wallets, reservations and usage records agree with each other and with what was granted. */
  ghost predicate Books(db: Tables, jobs: seq<Job>, granted: int, adjusted: int) {
    && AllSound(db.accounts)
    && ReservesMatch(db.accounts, jobs)
    && UsageMatches(db.usage, jobs)
    && Total(db.accounts) == granted + adjusted - Margin(db.usage)
  }

  /** Requests agree with their job rows and their dispatches. */
  ghost predicate Requests(jobs: seq<Job>, status: seq<JobStatus>, wallets: nat, ds: map<nat, H.Dispatch>) {
    && JobsOk(jobs, status)
    && WalletsExist(jobs, wallets)
    && DistinctIds(jobs)
    && Linked(ds, jobs)
    && SettledByResult(ds, jobs)
  }

  ghost predicate HubOk(hub: H.State) {
    H.Inv(hub) && H.DistinctJobs(hub.dispatches)
  }

  ghost predicate Inv(s: State) {
    && Books(s.db, s.jobs, s.granted, s.adjusted)
    && Requests(s.jobs, s.db.status, |s.db.accounts|, s.hub.dispatches)
    && IdsMatch(s.db.ids, s.jobs)
    && HubOk(s.hub)
  }

  // ---- Sums over jobs ----

  lemma {:induction false} HeldSumUpdate(jobs: seq<Job>, i: nat, j: Job, w: nat)
    requires i < |jobs|
    ensures HeldSum(jobs[i := j], w) == HeldSum(jobs, w) - HeldOf(jobs[i], w) + HeldOf(j, w)
  {
    var n := |jobs| - 1;
    if i == n {
      assert jobs[i := j][..n] == jobs[..n];
    } else {
      assert jobs[i := j][..n] == jobs[..n][i := j];
      HeldSumUpdate(jobs[..n], i, j, w);
    }
  }

  lemma {:induction false} HeldSumBounds(jobs: seq<Job>, status: seq<JobStatus>, w: nat)
    requires JobsOk(jobs, status)
    ensures HeldSum(jobs, w) >= 0
    ensures forall i :: 0 <= i < |jobs| ==> HeldOf(jobs[i], w) <= HeldSum(jobs, w)
  {
    if jobs != [] {
      var n := |jobs| - 1;
      assert JobsOk(jobs[..n], status[..n]);
      HeldSumBounds(jobs[..n], status[..n], w);
      assert JobOk(jobs[n], status[n]);
      forall i | 0 <= i < |jobs|
        ensures HeldOf(jobs[i], w) <= HeldSum(jobs, w)
      {
        if i < n { assert jobs[..n][i] == jobs[i]; }
      }
    }
  }

  /** A change of one job and of its wallet's reserved credits by the same amount keeps the match. */
  lemma ReservesKept(accounts: seq<Account>, after: seq<Account>, jobs: seq<Job>, i: nat, j: Job)
    requires ReservesMatch(accounts, jobs) && i < |jobs| && j.wallet == jobs[i].wallet
    requires |after| == |accounts|
    requires forall w :: 0 <= w < |after| ==>
               after[w].reserved == accounts[w].reserved + HeldOf(j, w) - HeldOf(jobs[i], w)
    ensures ReservesMatch(after, jobs[i := j])
  {
    forall w | 0 <= w < |after|
      ensures after[w].reserved == HeldSum(jobs[i := j], w)
    {
      HeldSumUpdate(jobs, i, j, w);
    }
  }

  lemma {:induction false} NoJobHolds(jobs: seq<Job>, w: nat)
    requires forall i :: 0 <= i < |jobs| && jobs[i].wallet == w ==> Held(jobs[i]) == 0
    ensures HeldSum(jobs, w) == 0
  {
    if jobs != [] {
      NoJobHolds(jobs[..|jobs| - 1], w);
    }
  }

  // ---- Each kind of step keeps the invariant ----

  lemma SoundInRange(accounts: seq<Account>)
    requires AllSound(accounts)
    ensures AllInRange(accounts)
  {
    forall w | 0 <= w < |accounts|
      ensures InRange(accounts[w])
    {
      assert Sound(accounts[w]);
    }
  }

  /** One accepted posting: sound wallets, moved as the posting says. */
  lemma PostSound(accounts: seq<Account>, p: Posting)
    requires AllSound(accounts) && IsOp(p.op) && Post(accounts, p).Ok?
    ensures var r := Post(accounts, p).value;
            && AllSound(r) && Moved(accounts, r, p.wallet, p.op.amount, p.op.reservedDelta)
            && Total(r) == Total(accounts) + p.op.amount + p.op.reservedDelta
  {
    SoundInRange(accounts);
    PostEffect(accounts, p);
    PostIfSound(Ok(accounts), true, p);
  }

  /** An empty wallet changes nothing else. */
  lemma NewWalletKeepsBooks(db: Tables, jobs: seq<Job>, granted: int, adjusted: int)
    requires Books(db, jobs, granted, adjusted)
    requires WalletsExist(jobs, |db.accounts|) && JobsOk(jobs, db.status)
    ensures Books(db.(accounts := db.accounts + [NEW_ACCOUNT]), jobs, granted, adjusted)
  {
    var wide := db.accounts + [NEW_ACCOUNT];
    assert wide[..|db.accounts|] == db.accounts;
    forall i | 0 <= i < |jobs| && jobs[i].wallet == |db.accounts|
      ensures Held(jobs[i]) == 0
    {
      assert JobOk(jobs[i], db.status[i]);
    }
    NoJobHolds(jobs, |db.accounts|);
    forall w | 0 <= w < |wide|
      ensures Sound(wide[w])
    {
      if w < |db.accounts| { assert Sound(db.accounts[w]); }
    }
  }

  /** A step that only touches wallets, new or old, has to look at the books alone. */
  lemma WalletStepKeepsInv(s: State, db: Tables, granted: int, adjusted: int)
    requires Inv(s) && Books(db, s.jobs, granted, adjusted)
    requires |db.accounts| >= |s.db.accounts| && db.status == s.db.status && db.ids == s.db.ids
    ensures Inv(s.(db := db, granted := granted, adjusted := adjusted))
  {
    hide Books, HubOk, JobOk, JobsOk, DistinctIds, Linked, SettledByResult;
  }

  lemma OpenWalletKeepsInv(s: State)
    requires Inv(s)
    ensures Inv(Next(s, OpenProviderWallet))
  {
    NewWalletKeepsBooks(s.db, s.jobs, s.granted, s.adjusted);
    hide Inv, Books;
    WalletStepKeepsInv(s, s.db.(accounts := s.db.accounts + [NEW_ACCOUNT]), s.granted, s.adjusted);
  }

  /** A grant or an adjustment of w. */
  lemma PostKeepsBooks(db: Tables, jobs: seq<Job>, granted: int, adjusted: int, w: nat, op: Op)
    requires Books(db, jobs, granted, adjusted) && IsOp(op) && op.reservedDelta == 0
    requires Post(db.accounts, Posting(w, op)).Ok?
    ensures var r := Post(db.accounts, Posting(w, op)).value;
            && |r| == |db.accounts|
            && Books(db.(accounts := r), jobs, granted + op.amount, adjusted)
            && Books(db.(accounts := r), jobs, granted, adjusted + op.amount)
  {
    hide Post, Sound, UsageMatches;
    PostSound(db.accounts, Posting(w, op));
  }

  lemma SignUpKeepsInv(s: State, email: string, grant: int, ok: bool)
    requires Inv(s)
    ensures Inv(Next(s, SignUp(email, grant, ok)))
  {
    if IsInt64(grant) && Tx(ok, Register(s.db, email, grant)).Ok? {
      var wide := s.db.accounts + [NEW_ACCOUNT];
      NewWalletKeepsBooks(s.db, s.jobs, s.granted, s.adjusted);
      hide Inv, Books, Post;
      PostKeepsBooks(s.db.(accounts := wide), s.jobs, s.granted, s.adjusted, |s.db.accounts|, Op(Grant, grant, 0));
      var db := Register(s.db, email, grant).value;
      SameBooks(db.(emails := s.db.emails), db, s.jobs, s.granted + grant, s.adjusted);
      WalletStepKeepsInv(s, db, s.granted + grant, s.adjusted);
    }
  }

  /** Books do not look at users and audit rows. */
  lemma SameBooks(a: Tables, b: Tables, jobs: seq<Job>, granted: int, adjusted: int)
    requires Books(a, jobs, granted, adjusted) && b.accounts == a.accounts && b.usage == a.usage
    ensures Books(b, jobs, granted, adjusted)
  {
  }

  lemma AdjustKeepsInv(s: State, w: nat, amount: int, reason: string, ok: bool)
    requires Inv(s)
    ensures Inv(Next(s, Adjust(w, amount, reason, ok)))
  {
    hide Blank, TrimSpace;
    if IsInt64(amount) && Tx(ok, AdminAdjust(s.db, w, amount, reason)).Ok? {
      assert Books(s.db, s.jobs, s.granted, s.adjusted);
      hide Inv, Books, Post;
      PostKeepsBooks(s.db, s.jobs, s.granted, s.adjusted, w, Op(AdminAdjustment, amount, 0));
      var db := AdminAdjust(s.db, w, amount, reason).value;
      SameBooks(db.(audit := s.db.audit), db, s.jobs, s.granted, s.adjusted + amount);
      WalletStepKeepsInv(s, db, s.granted, s.adjusted + amount);
    }
  }

  lemma CreateKeepsBooks(db: Tables, jobs: seq<Job>, granted: int, adjusted: int, j: Job)
    requires Books(db, jobs, granted, adjusted) && j.phase == Created && j.taken == j.released == j.settled == 0
    ensures Books(db, jobs + [j], granted, adjusted)
  {
    hide Sound, UsageMatches;
    var more := jobs + [j];
    assert more[..|jobs|] == jobs;
    UsageKeptByCreate(db.usage, jobs, j);
  }

  lemma CreateKeepsRequests(s: State, j: Job)
    requires Requests(s.jobs, s.db.status, |s.db.accounts|, s.hub.dispatches) && IdsMatch(s.db.ids, s.jobs)
    requires JobOk(j, Queued) && j.phase == Created && j.id !in s.db.ids
    ensures Requests(s.jobs + [j], s.db.status + [Queued], |s.db.accounts|, s.hub.dispatches)
    ensures IdsMatch(s.db.ids + [j.id], s.jobs + [j])
  {
    var jobs, status := s.jobs + [j], s.db.status + [Queued];
    forall i | 0 <= i < |jobs|
      ensures JobOk(jobs[i], status[i])
    {
      if i < |s.jobs| { assert JobOk(s.jobs[i], s.db.status[i]); }
    }
    forall i | 0 <= i < |s.jobs|
      ensures s.jobs[i].id != j.id
    {
      assert s.db.ids[i] == s.jobs[i].id;
    }
  }

  lemma CreateKeepsInv(s: State, id: nat, w: nat, terms: Terms)
    requires Inv(s)
    ensures Inv(Next(s, Create(id, w, terms)))
  {
    hide Quote, Books, Requests, HubOk, IdsMatch;
    var n := DoCreate(s, id, w, terms);
    if n != s {
      var j := n.jobs[|s.jobs|];
      CreateKeepsBooks(s.db, s.jobs, s.granted, s.adjusted, j);
      SameBooks(s.db, n.db, n.jobs, s.granted, s.adjusted);
      CreateKeepsRequests(s, j);
    }
  }

  lemma UsageKeptByCreate(usage: seq<Usage>, jobs: seq<Job>, j: Job)
    requires UsageMatches(usage, jobs) && j.settled == 0
    ensures UsageMatches(usage, jobs + [j])
  {
    var after := jobs + [j];
    forall k | 0 <= k < |after| && after[k].settled == 1
      ensures exists m :: 0 <= m < |usage| && usage[m].job == k
    {
      assert jobs[k].settled == 1;
    }
  }

  /** Replacing job i by j, with its job row. */
  ghost predicate JobChange(s: State, i: nat, j: Job, status: seq<JobStatus>) {
    && i < |s.jobs| && |status| == |s.jobs| == |s.db.status|
    && j.id == s.jobs[i].id && j.wallet == s.jobs[i].wallet
    && JobOk(j, status[i])
    && (forall k :: 0 <= k < |status| && k != i ==> status[k] == s.db.status[k])
    && (j.taken == 1 ==> j.wallet < |s.db.accounts|)
    && (i in s.hub.dispatches ==> !BeforeDispatch(j.phase))
    && (j.phase.Settling? || j.settled >= 1 ==> GotResult(s.hub.dispatches, i))
  }

  lemma JobChangeKeeps(s: State, i: nat, j: Job, status: seq<JobStatus>)
    requires Requests(s.jobs, s.db.status, |s.db.accounts|, s.hub.dispatches) && JobChange(s, i, j, status)
    ensures Requests(s.jobs[i := j], status, |s.db.accounts|, s.hub.dispatches)
  {
    var jobs := s.jobs[i := j];
    forall k | 0 <= k < |jobs|
      ensures JobOk(jobs[k], status[k])
    {
      if k != i { assert JobOk(s.jobs[k], s.db.status[k]); }
    }
  }

  lemma UsageKept(usage: seq<Usage>, jobs: seq<Job>, i: nat, j: Job)
    requires UsageMatches(usage, jobs) && i < |jobs| && j.settled == jobs[i].settled
    ensures UsageMatches(usage, jobs[i := j])
  {
    var after := jobs[i := j];
    forall k | 0 <= k < |after| && after[k].settled == 1
      ensures exists m :: 0 <= m < |usage| && usage[m].job == k
    {
      assert jobs[k].settled == 1;
    }
  }

  /** A step that only moves a request on, without touching wallets or usage records. */
  lemma MoveKeepsInv(s: State, i: nat, j: Job, status: seq<JobStatus>)
    requires Inv(s) && JobChange(s, i, j, status)
    requires Held(j) == Held(s.jobs[i]) && j.settled == s.jobs[i].settled
    ensures Inv(s.(jobs := s.jobs[i := j], db := s.db.(status := status)))
  {
    JobChangeKeeps(s, i, j, status);
    ReservesKept(s.db.accounts, s.db.accounts, s.jobs, i, j);
    UsageKept(s.db.usage, s.jobs, i, j);
  }

  /** Reserving and releasing: credits move between balance and reserved, and so does what the job holds. */
  lemma TransferKeepsInv(s: State, i: nat, j: Job, p: Posting)
    requires Inv(s) && JobChange(s, i, j, s.db.status) && j.settled == s.jobs[i].settled
    requires p.wallet == j.wallet && IsOp(p.op) && p.op.amount == -p.op.reservedDelta
    requires Held(j) - Held(s.jobs[i]) == p.op.reservedDelta
    requires Post(s.db.accounts, p).Ok?
    ensures Inv(s.(jobs := s.jobs[i := j], db := s.db.(accounts := Post(s.db.accounts, p).value)))
  {
    PostSound(s.db.accounts, p);
    JobChangeKeeps(s, i, j, s.db.status);
    ReservesKept(s.db.accounts, Post(s.db.accounts, p).value, s.jobs, i, j);
    UsageKept(s.db.usage, s.jobs, i, j);
  }

  /** What the invariant says about one job. */
  lemma JobFacts(s: State, i: nat)
    requires Inv(s) && i < |s.jobs|
    ensures |s.jobs| == |s.db.status| && JobOk(s.jobs[i], s.db.status[i])
    ensures s.jobs[i].taken == 1 ==> s.jobs[i].wallet < |s.db.accounts|
    ensures i in s.hub.dispatches ==> !BeforeDispatch(s.jobs[i].phase)
    ensures s.jobs[i].phase.Settling? || s.jobs[i].settled >= 1 ==> GotResult(s.hub.dispatches, i)
  {
    hide Books, HubOk, IdsMatch, JobOk;
  }

  lemma ReservedKeepsInv(s: State, i: nat)
    requires Inv(s) && In(s, i, Created)
    requires ReserveForUser(s.db, s.jobs[i].wallet, s.jobs[i].quote).Ok?
    ensures Inv(DoReserve(s, i, true))
  {
    var j := s.jobs[i];
    assert j.wallet < |s.db.accounts|;
    hide Inv, Post, GotResult;
    JobFacts(s, i);
    var j' := j.(phase := Reserved, taken := j.taken + 1);
    var p := Posting(j.wallet, Op(Reserve, -j.quote, j.quote));
    TransferKeepsInv(s, i, j', p);
    assert DoReserve(s, i, true) == s.(jobs := s.jobs[i := j'], db := s.db.(accounts := Post(s.db.accounts, p).value));
  }

  lemma RefusedKeepsInv(s: State, i: nat)
    requires Inv(s) && In(s, i, Created)
    ensures Inv(SetJob(s, i, s.jobs[i].(phase := Refused)))
  {
    hide Inv, Post, GotResult;
    JobFacts(s, i);
    MoveKeepsInv(s, i, s.jobs[i].(phase := Refused), s.db.status);
    assert s.db.(status := s.db.status) == s.db;
  }

  lemma ReserveKeepsInv(s: State, i: nat, ok: bool)
    requires Inv(s)
    ensures Inv(Next(s, ReserveCredits(i, ok)))
  {
    hide Inv;
    if In(s, i, Created) {
      if Tx(ok, ReserveForUser(s.db, s.jobs[i].wallet, s.jobs[i].quote)).Ok? {
        ReservedKeepsInv(s, i);
      } else {
        RefusedKeepsInv(s, i);
      }
    }
  }

  lemma ReleasedKeepsInv(s: State, i: nat)
    requires Inv(s) && i < |s.jobs| && s.jobs[i].phase.Releasing?
    requires Release(s.db, s.jobs[i].wallet, s.jobs[i].quote).Ok?
    ensures Inv(DoRelease(s, i, true))
  {
    hide Inv, Post, GotResult;
    var j := s.jobs[i];
    JobFacts(s, i);
    var j' := j.(phase := AfterRelease(j), released := j.released + 1);
    var p := Posting(j.wallet, Op(ReleaseReserve, j.quote, -j.quote));
    TransferKeepsInv(s, i, j', p);
    assert DoRelease(s, i, true) == s.(jobs := s.jobs[i := j'], db := s.db.(accounts := Post(s.db.accounts, p).value));
  }

  lemma LostKeepsInv(s: State, i: nat)
    requires Inv(s) && i < |s.jobs| && s.jobs[i].phase.Releasing?
    ensures var j := s.jobs[i]; Inv(SetJob(s, i, j.(phase := AfterRelease(j), lost := j.lost + 1)))
  {
    hide Inv, Post, GotResult;
    var j := s.jobs[i];
    JobFacts(s, i);
    MoveKeepsInv(s, i, j.(phase := AfterRelease(j), lost := j.lost + 1), s.db.status);
    assert s.db.(status := s.db.status) == s.db;
  }

  lemma ReleaseKeepsInv(s: State, i: nat, ok: bool)
    requires Inv(s)
    ensures Inv(Next(s, ReleaseCredits(i, ok)))
  {
    hide Inv;
    if i < |s.jobs| && s.jobs[i].phase.Releasing? {
      if Tx(ok, Release(s.db, s.jobs[i].wallet, s.jobs[i].quote)).Ok? {
        ReleasedKeepsInv(s, i);
      } else {
        LostKeepsInv(s, i);
      }
    }
  }

  lemma UsageGrows(usage: seq<Usage>, u: Usage, jobs: seq<Job>, i: nat, j: Job)
    requires UsageMatches(usage, jobs) && i < |jobs| && jobs[i].settled == 0
    requires j.settled == 1 && u.job == i
    ensures UsageMatches(usage + [u], jobs[i := j])
  {
    var after, more := jobs[i := j], usage + [u];
    forall k | 0 <= k < |after| && after[k].settled == 1
      ensures exists m :: 0 <= m < |more| && more[m].job == k
    {
      if k == i {
        assert more[|usage|].job == i;
      } else {
        var m :| 0 <= m < |usage| && usage[m].job == k;
        assert more[m].job == k;
      }
    }
  }

  lemma SettleKeepsBooks(s: State, i: nat, j: Job, u: UsageSettlement)
    requires Books(s.db, s.jobs, s.granted, s.adjusted) && i < |s.jobs|
    requires Int64Settlement(u) && FinalizeUsage(s.db, u).Ok?
    requires u.job == i && u.wallet == j.wallet == s.jobs[i].wallet && u.reserved == Held(s.jobs[i])
    requires s.jobs[i].settled == 0 && j.settled == 1 && Held(j) == 0
    ensures Books(FinalizeUsage(s.db, u).value, s.jobs[i := j], s.granted, s.adjusted)
  {
    var r := FinalizeUsage(s.db, u).value;
    SoundInRange(s.db.accounts);
    FinalizeEffect(s.db, u);
    FinalizeSound(s.db, u);
    ReservesKept(s.db.accounts, r.accounts, s.jobs, i, j);
    UsageGrows(s.db.usage, RecordOf(u), s.jobs, i, j);
    assert r.usage[..|s.db.usage|] == s.db.usage;
  }

  lemma InvJobs(s: State)
    requires Requests(s.jobs, s.db.status, |s.db.accounts|, s.hub.dispatches)
    ensures JobsOk(s.jobs, s.db.status)
  {
  }

  function SettledJob(j: Job): Job {
    j.(phase := Done, settled := j.settled + 1)
  }

  lemma SettledKeepsRequests(s: State, i: nat)
    requires Requests(s.jobs, s.db.status, |s.db.accounts|, s.hub.dispatches)
    requires i < |s.jobs| && s.jobs[i].phase.Settling?
    ensures Requests(s.jobs[i := SettledJob(s.jobs[i])], s.db.status[i := Succeeded], |s.db.accounts|, s.hub.dispatches)
  {
    assert JobOk(s.jobs[i], s.db.status[i]);
    assert GotResult(s.hub.dispatches, i);
    JobChangeKeeps(s, i, SettledJob(s.jobs[i]), s.db.status[i := Succeeded]);
  }

  lemma SettledKeepsInv(s: State, i: nat, rewardWallet: nat)
    requires Inv(s) && i < |s.jobs| && s.jobs[i].phase.Settling?
    requires FinalizeUsage(s.db, SettlementOf(s.jobs[i], i, rewardWallet)).Ok?
    ensures Inv(DoFinalize(s, i, rewardWallet, true))
  {
    hide Books, Requests, HubOk, FinalizeUsage, JobOk;
    var u := SettlementOf(s.jobs[i], i, rewardWallet);
    SettledKeepsRequests(s, i);
    InvJobs(s);
    SettlingHolds(s, i, u);
    SettleKeepsBooks(s, i, SettledJob(s.jobs[i]), u);
    SettleKeepsRest(s.db, u);
  }

  lemma SettlingHolds(s: State, i: nat, u: UsageSettlement)
    requires JobsOk(s.jobs, s.db.status) && i < |s.jobs| && s.jobs[i].phase.Settling?
    requires u == SettlementOf(s.jobs[i], i, u.rewardWallet)
    ensures Held(s.jobs[i]) == u.reserved > 0 && s.jobs[i].settled == 0 && Held(SettledJob(s.jobs[i])) == 0
    ensures Int64Settlement(u) && u.cost <= u.reserved
  {
    assert JobOk(s.jobs[i], s.db.status[i]);
  }

  lemma NotSettledKeepsInv(s: State, i: nat)
    requires Inv(s) && i < |s.jobs| && s.jobs[i].phase.Settling?
    ensures Inv(SetJob(s, i, s.jobs[i].(phase := Releasing(false))))
  {
    hide Inv, Post, GotResult;
    JobFacts(s, i);
    MoveKeepsInv(s, i, s.jobs[i].(phase := Releasing(false)), s.db.status);
    assert s.db.(status := s.db.status) == s.db;
  }

  lemma FinalizeKeepsInv(s: State, i: nat, rewardWallet: nat, ok: bool)
    requires Inv(s)
    ensures Inv(Next(s, Finalize(i, rewardWallet, ok)))
  {
    hide Inv;
    if i < |s.jobs| && s.jobs[i].phase.Settling? {
      if Tx(ok, FinalizeUsage(s.db, SettlementOf(s.jobs[i], i, rewardWallet))).Ok? {
        SettledKeepsInv(s, i, rewardWallet);
      } else {
        NotSettledKeepsInv(s, i);
      }
    }
  }

  lemma SettleKeepsRest(db: Tables, u: UsageSettlement)
    requires FinalizeUsage(db, u).Ok?
    ensures u.job < |db.status| && FinalizeUsage(db, u).value.status == db.status[u.job := Succeeded]
    ensures |FinalizeUsage(db, u).value.accounts| == |db.accounts| && FinalizeUsage(db, u).value.ids == db.ids
  {
  }

  lemma MarkDispatchedKeepsInv(s: State, i: nat, ok: bool)
    requires Inv(s)
    ensures Inv(Next(s, MarkDispatched(i, ok)))
  {
    if In(s, i, Reserved) {
      hide Inv, GotResult;
      JobFacts(s, i);
      var status := if ok then s.db.status[i := Dispatched] else s.db.status;
      MoveKeepsInv(s, i, s.jobs[i].(phase := Dispatching), status);
      assert s.db.(status := s.db.status) == s.db;
    }
  }

  lemma FailedIsDone(j: Job, status: JobStatus)
    requires JobOk(j, status) && (j.phase == Refused || j.phase == Failing)
    ensures JobOk(j.(phase := Done), Failed) && JobOk(j.(phase := Done), status)
  {
  }

  lemma MarkFailedKeepsInv(s: State, i: nat, ok: bool)
    requires Inv(s)
    ensures Inv(Next(s, MarkFailed(i, ok)))
  {
    if In(s, i, Refused) || In(s, i, Failing) {
      hide Inv, GotResult, JobOk;
      JobFacts(s, i);
      FailedIsDone(s.jobs[i], s.db.status[i]);
      var status := if ok then s.db.status[i := Failed] else s.db.status;
      MoveKeepsInv(s, i, s.jobs[i].(phase := Done), status);
      assert s.db.(status := s.db.status) == s.db;
    }
  }

  lemma EndDispatchKeepsInv(s: State, i: nat)
    requires Inv(s)
    ensures Inv(Next(s, EndDispatch(i)))
  {
    if In(s, i, Dispatching) && DispatchReturned(s, i) {
      hide Inv, Charge;
      JobFacts(s, i);
      var j := s.jobs[i].(phase := AfterDispatch(s.jobs[i], s.hub.dispatches[i].stage.outcome));
      MoveKeepsInv(s, i, j, s.db.status);
      assert s.db.(status := s.db.status) == s.db;
    }
  }

  /** Hub steps start no dispatch but that of a dispatching request, and undo no outcome. */
  lemma HubStepKeepsLinks(hub: H.State, l: H.Label, jobs: seq<Job>)
    requires Linked(hub.dispatches, jobs) && SettledByResult(hub.dispatches, jobs) && DistinctIds(jobs)
    requires l.Lookup? ==> l.g < |jobs| && jobs[l.g].phase == Dispatching && l.job == jobs[l.g].id
    ensures Linked(H.Next(hub, l).dispatches, jobs)
    ensures SettledByResult(H.Next(hub, l).dispatches, jobs)
    ensures H.FreshJob(hub, l)
  {
    var n := H.Next(hub, l);
    DispatchesMove(hub, l);
    hide H.Next;
    forall i | 0 <= i < |jobs| && (jobs[i].phase.Settling? || jobs[i].settled >= 1)
      ensures GotResult(n.dispatches, i)
    {
      assert GotResult(hub.dispatches, i);
    }
  }

  /** Dispatches keep their job, and their stage once they returned; only a lookup adds one. */
  lemma DispatchesMove(hub: H.State, l: H.Label)
    ensures var n := H.Next(hub, l).dispatches;
            && (forall g :: g in hub.dispatches ==>
                  && g in n && n[g].job == hub.dispatches[g].job
                  && (hub.dispatches[g].stage.Returned? ==> n[g] == hub.dispatches[g]))
            && (forall g :: g in n && g !in hub.dispatches ==> l.Lookup? && g == l.g && n[g].job == l.job)
  {
  }

  lemma HubStepKeepsInv(s: State, l: H.Label)
    requires Inv(s)
    ensures Inv(Next(s, HubStep(l)))
  {
    if HubMayStep(s, l) {
      HubStepKeepsLinks(s.hub, l, s.jobs);
      H.NextKeepsInv(s.hub, l);
    }
  }

  lemma NextKeepsInv(s: State, l: Label)
    requires Inv(s)
    ensures Inv(Next(s, l))
  {
    hide Inv, Next;
    match l
    case SignUp(email, grant, ok) => SignUpKeepsInv(s, email, grant, ok);
    case OpenProviderWallet => OpenWalletKeepsInv(s);
    case Adjust(w, amount, reason, ok) => AdjustKeepsInv(s, w, amount, reason, ok);
    case Create(id, w, terms) => CreateKeepsInv(s, id, w, terms);
    case ReserveCredits(i, ok) => ReserveKeepsInv(s, i, ok);
    case MarkDispatched(i, ok) => MarkDispatchedKeepsInv(s, i, ok);
    case EndDispatch(i) => EndDispatchKeepsInv(s, i);
    case ReleaseCredits(i, ok) => ReleaseKeepsInv(s, i, ok);
    case Finalize(i, w, ok) => FinalizeKeepsInv(s, i, w, ok);
    case MarkFailed(i, ok) => MarkFailedKeepsInv(s, i, ok);
    case HubStep(h) => HubStepKeepsInv(s, h);
  }

  lemma InitBooks()
    ensures Books(INIT.db, INIT.jobs, INIT.granted, INIT.adjusted)
  {
  }

  lemma InitRequests()
    ensures Requests(INIT.jobs, INIT.db.status, |INIT.db.accounts|, INIT.hub.dispatches)
  {
  }

  lemma InitInv()
    ensures Inv(INIT)
  {
    hide Books, Requests, H.Inv, H.DistinctJobs;
    InitBooks();
    InitRequests();
    H.EmptyIsSafe();
  }

  lemma {:induction false} Reachable(ls: seq<Label>)
    ensures Inv(Run(INIT, ls))
  {
    hide Inv, Next;
    if ls == [] {
      InitInv();
    } else {
      Reachable(ls[..|ls| - 1]);
      NextKeepsInv(Run(INIT, ls[..|ls| - 1]), ls[|ls| - 1]);
    }
  }
}
