/** What each kind of ledger entry adds up to, and what stands behind it: starting grants, audit rows, and usage
    records. */
module Bookkeeping {
  import opened Credits
  import opened Settlement
  import opened Text
  import opened Protocol
  import Billing
  import G = Guarantees
  import H = Hub
  import Requests

  /** The amounts of the entries of one kind. */
  function Amount(ledger: seq<Entry>, kind: EntryType): int {
    if ledger == [] then 0
    else
      Amount(ledger[..|ledger| - 1], kind) +
      if ledger[|ledger| - 1].op.kind == kind then ledger[|ledger| - 1].op.amount else 0
  }

  function AmountIn(accounts: seq<Account>, kind: EntryType): int {
    if accounts == [] then 0
    else AmountIn(accounts[..|accounts| - 1], kind) + Amount(accounts[|accounts| - 1].ledger, kind)
  }

  /** What the audit log says was adjusted on a wallet, */
  function Audited(audit: seq<Adjustment>, w: nat): int {
    if audit == [] then 0
    else
      Audited(audit[..|audit| - 1], w) + if audit[|audit| - 1].wallet == w then audit[|audit| - 1].amount else 0
  }

  /** and what the usage records say its requests cost, */
  function Costs(usage: seq<Usage>, jobs: seq<Job>, w: nat): int {
    if usage == [] then 0
    else
      var u := usage[|usage| - 1];
      Costs(usage[..|usage| - 1], jobs, w) + if u.job < |jobs| && jobs[u.job].wallet == w then u.cost else 0
  }

  /** and what was paid to providers. */
  function Rewards(usage: seq<Usage>): int {
    if usage == [] then 0 else Rewards(usage[..|usage| - 1]) + usage[|usage| - 1].reward
  }

  /** Every entry of these kinds has its counterpart. */
  ghost predicate Booked(db: Tables, jobs: seq<Job>, granted: int) {
    && AmountIn(db.accounts, Grant) == granted
    && AmountIn(db.accounts, CreditProviderReward) == Rewards(db.usage)
    && forall w :: 0 <= w < |db.accounts| ==>
         && Amount(db.accounts[w].ledger, AdminAdjustment) == Audited(db.audit, w)
         && Amount(db.accounts[w].ledger, DebitUsage) == -Costs(db.usage, jobs, w)
  }

  /** Rows name existing wallets and jobs. */
  ghost predicate Named(db: Tables, jobs: seq<Job>) {
    && (forall k :: 0 <= k < |db.audit| ==> db.audit[k].wallet < |db.accounts|)
    && (forall k :: 0 <= k < |db.usage| ==>
          db.usage[k].job < |jobs| && jobs[db.usage[k].job].wallet < |db.accounts|)
  }

  // ---- Postings ----

  lemma {:induction false} AmountInUpdate(accounts: seq<Account>, w: nat, a: Account, kind: EntryType)
    requires w < |accounts|
    ensures AmountIn(accounts[w := a], kind) ==
            AmountIn(accounts, kind) - Amount(accounts[w].ledger, kind) + Amount(a.ledger, kind)
  {
    var n := |accounts| - 1;
    if w == n {
      assert accounts[w := a][..n] == accounts[..n];
    } else {
      assert accounts[w := a][..n] == accounts[..n][w := a];
      AmountInUpdate(accounts[..n], w, a, kind);
    }
  }

  /** One posting adds its amount to its own kind and wallet, and nothing anywhere else. */
  ghost predicate Adds(before: seq<Account>, after: seq<Account>, w: nat, kind: EntryType, amount: int) {
    && |after| == |before|
    && (forall k :: AmountIn(after, k) == AmountIn(before, k) + if k == kind then amount else 0)
    && forall v, k :: 0 <= v < |after| ==>
         Amount(after[v].ledger, k) == Amount(before[v].ledger, k) + if v == w && k == kind then amount else 0
  }

  lemma PostAdds(accounts: seq<Account>, p: Posting)
    requires Post(accounts, p).Ok?
    ensures Adds(accounts, Post(accounts, p).value, p.wallet, p.op.kind, p.op.amount)
  {
    var a, b := accounts[p.wallet], AddLedger(accounts[p.wallet], p.op).value;
    assert b.ledger[..|a.ledger|] == a.ledger;
    forall k: EntryType
      ensures AmountIn(Post(accounts, p).value, k) ==
              AmountIn(accounts, k) + if k == p.op.kind then p.op.amount else 0
    {
      AmountInUpdate(accounts, p.wallet, b, k);
    }
  }

  lemma PostIfAdds(accounts: seq<Account>, positive: bool, p: Posting)
    requires PostIf(Ok(accounts), positive, p).Ok?
    ensures Adds(accounts, PostIf(Ok(accounts), positive, p).value, p.wallet, p.op.kind,
                 if positive then p.op.amount else 0)
  {
    if positive {
      PostAdds(accounts, p);
    }
  }

  // ---- Operations ----

  /** A posting of a kind that has no counterpart. */
  lemma OtherPostKeepsBooked(db: Tables, jobs: seq<Job>, granted: int, p: Posting)
    requires Booked(db, jobs, granted) && Named(db, jobs) && Post(db.accounts, p).Ok?
    requires p.op.kind == Reserve || p.op.kind == ReleaseReserve
    ensures Booked(db.(accounts := Post(db.accounts, p).value), jobs, granted)
    ensures Named(db.(accounts := Post(db.accounts, p).value), jobs)
  {
    hide Amount, AmountIn, Audited, Costs, Rewards;
    PostAdds(db.accounts, p);
    hide Post;
  }

  lemma {:induction false} NothingAudited(audit: seq<Adjustment>, w: nat)
    requires forall k :: 0 <= k < |audit| ==> audit[k].wallet < w
    ensures Audited(audit, w) == 0
  {
    if audit != [] {
      NothingAudited(audit[..|audit| - 1], w);
    }
  }

  lemma {:induction false} NothingCost(usage: seq<Usage>, jobs: seq<Job>, w: nat)
    requires forall k :: 0 <= k < |usage| ==> usage[k].job < |jobs| && jobs[usage[k].job].wallet < w
    ensures Costs(usage, jobs, w) == 0
  {
    if usage != [] {
      NothingCost(usage[..|usage| - 1], jobs, w);
    }
  }

  lemma NewWalletIsBooked(db: Tables, jobs: seq<Job>, granted: int)
    requires Booked(db, jobs, granted) && Named(db, jobs)
    ensures Booked(db.(accounts := db.accounts + [NEW_ACCOUNT]), jobs, granted)
    ensures Named(db.(accounts := db.accounts + [NEW_ACCOUNT]), jobs)
  {
    var n := |db.accounts|;
    assert (db.accounts + [NEW_ACCOUNT])[..n] == db.accounts;
    NothingAudited(db.audit, n);
    NothingCost(db.usage, jobs, n);
  }

  lemma RegisterKeepsBooked(db: Tables, jobs: seq<Job>, granted: int, email: string, grant: int)
    requires Booked(db, jobs, granted) && Named(db, jobs) && Register(db, email, grant).Ok?
    ensures Booked(Register(db, email, grant).value, jobs, granted + grant)
    ensures Named(Register(db, email, grant).value, jobs)
  {
    hide Amount, AmountIn, Audited, Costs, Rewards;
    var wide := db.(accounts := db.accounts + [NEW_ACCOUNT]);
    NewWalletIsBooked(db, jobs, granted);
    PostAdds(wide.accounts, Posting(|db.accounts|, Op(Grant, grant, 0)));
    hide Post;
  }

  lemma AuditGrows(audit: seq<Adjustment>, row: Adjustment, w: nat)
    ensures Audited(audit + [row], w) == Audited(audit, w) + if row.wallet == w then row.amount else 0
  {
    assert (audit + [row])[..|audit|] == audit;
  }

  lemma AdjustKeepsBooked(db: Tables, jobs: seq<Job>, granted: int, w: nat, amount: int, reason: string)
    requires Booked(db, jobs, granted) && Named(db, jobs) && AdminAdjust(db, w, amount, reason).Ok?
    ensures Booked(AdminAdjust(db, w, amount, reason).value, jobs, granted)
    ensures Named(AdminAdjust(db, w, amount, reason).value, jobs)
  {
    hide Blank, TrimSpace, Amount, AmountIn, Audited, Costs, Rewards;
    var p := Posting(w, Op(AdminAdjustment, amount, 0));
    PostAdds(db.accounts, p);
    var n := AdminAdjust(db, w, amount, reason).value;
    assert w < |db.accounts|;
    hide Post;
    forall v | 0 <= v < |n.accounts|
      ensures Audited(n.audit, v) == Audited(db.audit, v) + if v == w then amount else 0
    {
      AuditGrows(db.audit, Adjustment(w, amount, TrimSpace(reason)), v);
    }
  }

  lemma UsageGrows(usage: seq<Usage>, u: Usage, jobs: seq<Job>, w: nat)
    ensures Costs(usage + [u], jobs, w) ==
            Costs(usage, jobs, w) + if u.job < |jobs| && jobs[u.job].wallet == w then u.cost else 0
    ensures Rewards(usage + [u]) == Rewards(usage) + u.reward
  {
    assert (usage + [u])[..|usage|] == usage;
  }

  /** The three entries of a settlement. */
  lemma FinalizeAdds(accounts: seq<Account>, u: UsageSettlement)
    requires FinalizeAccounts(accounts, u).Ok? && u.reserved >= 0 && u.cost >= 0 && u.reward >= 0
    ensures var n := FinalizeAccounts(accounts, u).value;
            && |n| == |accounts|
            && AmountIn(n, Grant) == AmountIn(accounts, Grant)
            && AmountIn(n, CreditProviderReward) == AmountIn(accounts, CreditProviderReward) + u.reward
            && forall v :: 0 <= v < |n| ==>
                 && Amount(n[v].ledger, AdminAdjustment) == Amount(accounts[v].ledger, AdminAdjustment)
                 && Amount(n[v].ledger, DebitUsage) ==
                    Amount(accounts[v].ledger, DebitUsage) - if v == u.wallet then u.cost else 0
  {
    hide Amount, AmountIn;
    var r1 := PostIf(Ok(accounts), u.reserved > 0, ReleasePosting(u));
    PostIfAdds(accounts, u.reserved > 0, ReleasePosting(u));
    var r2 := PostIf(r1, u.cost > 0, DebitPosting(u));
    PostIfAdds(r1.value, u.cost > 0, DebitPosting(u));
    PostIfAdds(r2.value, u.reward > 0, RewardPosting(u));
    hide Post;
  }

  lemma FinalizeKeepsBooked(db: Tables, jobs: seq<Job>, granted: int, u: UsageSettlement)
    requires Booked(db, jobs, granted) && Named(db, jobs) && FinalizeUsage(db, u).Ok?
    requires u.job < |jobs| && jobs[u.job].wallet == u.wallet < |db.accounts|
    ensures Booked(FinalizeUsage(db, u).value, jobs, granted) && Named(FinalizeUsage(db, u).value, jobs)
  {
    hide FinalizeAccounts, Amount, AmountIn, Audited, Costs, Rewards;
    FinalizeAdds(db.accounts, u);
    var n := FinalizeUsage(db, u).value;
    hide UsageAllowed, FitsUsage;
    forall v | 0 <= v < |n.accounts|
      ensures Costs(n.usage, jobs, v) == Costs(db.usage, jobs, v) + if v == u.wallet then u.cost else 0
    {
      UsageGrows(db.usage, RecordOf(u), jobs, v);
    }
    UsageGrows(db.usage, RecordOf(u), jobs, 0);
  }

  // ---- Steps ----

  /** Jobs keep their wallets. */
  ghost predicate SameWallets(jobs: seq<Job>, after: seq<Job>) {
    |jobs| <= |after| && forall i :: 0 <= i < |jobs| ==> after[i].wallet == jobs[i].wallet
  }

  lemma {:induction false} CostsStay(usage: seq<Usage>, jobs: seq<Job>, after: seq<Job>, w: nat)
    requires SameWallets(jobs, after) && forall k :: 0 <= k < |usage| ==> usage[k].job < |jobs|
    ensures Costs(usage, after, w) == Costs(usage, jobs, w)
  {
    if usage != [] {
      CostsStay(usage[..|usage| - 1], jobs, after, w);
    }
  }

  lemma JobsKeepBooked(db: Tables, jobs: seq<Job>, after: seq<Job>, granted: int)
    requires Booked(db, jobs, granted) && Named(db, jobs) && SameWallets(jobs, after)
    ensures Booked(db, after, granted) && Named(db, after)
  {
    forall w | 0 <= w < |db.accounts|
      ensures Costs(db.usage, after, w) == Costs(db.usage, jobs, w)
    {
      CostsStay(db.usage, jobs, after, w);
    }
  }

  lemma WalletsStay(s: State, l: Label)
    ensures SameWallets(s.jobs, Next(s, l).jobs)
  {
    hide Next;
    LengthStays(s, l);
    forall i | 0 <= i < |s.jobs|
      ensures i < |Next(s, l).jobs| && Next(s, l).jobs[i].wallet == s.jobs[i].wallet
    {
      Requests.IdentityStays(s, l, i);
    }
  }

  lemma LengthStays(s: State, l: Label)
    ensures |s.jobs| <= |Next(s, l).jobs|
  {
    hide Billing.Charge, Billing.Quote, AdminAdjust, Register, ReserveForUser, Release, FinalizeUsage, CreateJob,
      MarkJob, H.Next;
  }

  /** The tables of a step. */
  lemma TablesKeepBooked(s: State, l: Label)
    requires Inv(s) && Booked(s.db, s.jobs, s.granted) && Named(s.db, s.jobs)
    ensures Booked(Next(s, l).db, s.jobs, Next(s, l).granted) && Named(Next(s, l).db, s.jobs)
  {
    hide Inv, Post, FinalizeUsage, AdminAdjust, Register, Blank, TrimSpace, H.Next, Billing.Charge, Billing.Quote,
      Booked, Named;
    match l
    case SignUp(email, grant, ok) =>
      if ok && IsInt64(grant) && Register(s.db, email, grant).Ok? {
        RegisterKeepsBooked(s.db, s.jobs, s.granted, email, grant);
      }
    case OpenProviderWallet => NewWalletIsBooked(s.db, s.jobs, s.granted);
    case Adjust(w, amount, reason, ok) =>
      if ok && IsInt64(amount) && AdminAdjust(s.db, w, amount, reason).Ok? {
        AdjustKeepsBooked(s.db, s.jobs, s.granted, w, amount, reason);
      }
    case ReserveCredits(i, ok) =>
      if In(s, i, Created) && ok && ReserveForUser(s.db, s.jobs[i].wallet, s.jobs[i].quote).Ok? {
        var j := s.jobs[i];
        OtherPostKeepsBooked(s.db, s.jobs, s.granted, Posting(j.wallet, Op(Reserve, -j.quote, j.quote)));
      }
    case ReleaseCredits(i, ok) =>
      if i < |s.jobs| && ok && Release(s.db, s.jobs[i].wallet, s.jobs[i].quote).Ok? {
        var j := s.jobs[i];
        OtherPostKeepsBooked(s.db, s.jobs, s.granted, Posting(j.wallet, Op(ReleaseReserve, j.quote, -j.quote)));
      }
    case Finalize(i, w, ok) =>
      if i < |s.jobs| && s.jobs[i].phase.Settling? && ok &&
         FinalizeUsage(s.db, SettlementOf(s.jobs[i], i, w)).Ok? {
        JobFacts(s, i);
        FinalizeKeepsBooked(s.db, s.jobs, s.granted, SettlementOf(s.jobs[i], i, w));
      }
    case _ => RowsOnly(s, l);
  }

  /** Steps that change no wallet, usage record or audit row. */
  lemma RowsOnly(s: State, l: Label)
    requires Booked(s.db, s.jobs, s.granted) && Named(s.db, s.jobs)
    requires l.Create? || l.MarkDispatched? || l.EndDispatch? || l.MarkFailed? || l.HubStep?
    ensures Booked(Next(s, l).db, s.jobs, Next(s, l).granted) && Named(Next(s, l).db, s.jobs)
  {
    hide Amount, AmountIn, Audited, Costs, Rewards;
    hide H.Next, Billing.Charge, Billing.Quote;
  }

  lemma NextKeepsBooked(s: State, l: Label)
    requires Inv(s) && Booked(s.db, s.jobs, s.granted) && Named(s.db, s.jobs)
    ensures var n := Next(s, l); Booked(n.db, n.jobs, n.granted) && Named(n.db, n.jobs)
  {
    hide Next, Inv, Booked, Named, SameWallets;
    TablesKeepBooked(s, l);
    WalletsStay(s, l);
    JobsKeepBooked(Next(s, l).db, s.jobs, Next(s, l).jobs, Next(s, l).granted);
  }

  /** In every reachable state, whatever the reward wallets: grant entries add up to the starting grants, and
      reward entries to the rewards of the usage records; and on every wallet the adjustment entries add up to
      its audit rows, and the debits to the costs of its requests' usage records. */
  lemma {:induction false} EntriesHaveCounterparts(ls: seq<Label>)
    ensures var s := Run(INIT, ls); Booked(s.db, s.jobs, s.granted) && Named(s.db, s.jobs)
  {
    if ls != [] {
      hide Next, Inv, Booked, Named;
      EntriesHaveCounterparts(ls[..|ls| - 1]);
      Reachable(ls[..|ls| - 1]);
      NextKeepsBooked(Run(INIT, ls[..|ls| - 1]), ls[|ls| - 1]);
    }
  }

  // ---- Registrations and adjustments ----

  /** A registration is accepted exactly when its e-mail is new and the grant is not negative; it then adds one
      user and one wallet that holds the grant, and nothing else. */
  lemma SignUpIff(s: State, email: string, grant: int)
    requires IsInt64(grant)
    ensures var n := Next(s, SignUp(email, grant, true));
            if email in s.db.emails || grant < 0 then n == s
            else
              && n == s.(db := n.db, granted := s.granted + grant)
              && n.db == s.db.(accounts := n.db.accounts, emails := s.db.emails + [email])
              && |n.db.accounts| == |s.db.accounts| + 1 && n.db.accounts[..|s.db.accounts|] == s.db.accounts
              && n.db.accounts[|s.db.accounts|] == Account(grant, 0, [Entry(Op(Grant, grant, 0), grant, 0)])
  {
    hide Wrap64;
    AddLedgerAccepts(NEW_ACCOUNT, Op(Grant, grant, 0));
    var wide := s.db.accounts + [NEW_ACCOUNT];
    assert [] + [Entry(Op(Grant, grant, 0), grant, 0)] == [Entry(Op(Grant, grant, 0), grant, 0)];
  }

  lemma TrimmedReason(reason: string, front: string, back: string)
    requires reason == front + Trim(reason, IsSpace) + back && All(front, IsSpace) && All(back, IsSpace)
    ensures exists f, b :: reason == f + TrimSpace(reason) + b && All(f + b, IsSpace)
  {
    assert All(front + back, IsSpace);
  }

  lemma AdjustAccepted(t: Tables, w: nat, amount: int, reason: string)
    requires AllInRange(t.accounts) && IsInt64(amount)
    ensures AdminAdjust(t, w, amount, reason).Ok? <==>
            && amount != 0 && !All(reason, IsSpace) && w < |t.accounts|
            && 0 <= t.accounts[w].balance + amount <= MAX_INT64
    ensures AdminAdjust(t, w, amount, reason).Ok? ==>
              var n := AdminAdjust(t, w, amount, reason).value;
              && n == t.(accounts := n.accounts, audit := t.audit + [Adjustment(w, amount, TrimSpace(reason))])
              && Moved(t.accounts, n.accounts, w, amount, 0)
  {
    BlankIff(reason);
    hide TrimSpace, IsSpace, All;
    if w < |t.accounts| {
      assert InRange(t.accounts[w]);
      AddLedgerAccepts(t.accounts[w], Op(AdminAdjustment, amount, 0));
      if Post(t.accounts, Posting(w, Op(AdminAdjustment, amount, 0))).Ok? {
        PostEffect(t.accounts, Posting(w, Op(AdminAdjustment, amount, 0)));
      }
    }
    hide AddLedger, Moved, AllInRange;
  }

  /** An adjustment is accepted exactly when its amount is not zero, its reason holds more than spaces, the wallet
      exists, and the balance stays in range; it then moves that wallet alone and writes one audit row, whose
      reason neither starts nor ends with a space. */
  lemma AdjustIff(s: State, w: nat, amount: int, reason: string)
    requires Inv(s) && IsInt64(amount)
    ensures var n := Next(s, Adjust(w, amount, reason, true));
            if amount == 0 || All(reason, IsSpace) || w >= |s.db.accounts| ||
               !(0 <= s.db.accounts[w].balance + amount <= MAX_INT64)
            then n == s
            else
              && n == s.(db := n.db, adjusted := s.adjusted + amount)
              && n.db == s.db.(accounts := n.db.accounts, audit := n.db.audit)
              && Moved(s.db.accounts, n.db.accounts, w, amount, 0)
              && |n.db.audit| == |s.db.audit| + 1 && n.db.audit[..|s.db.audit|] == s.db.audit
              && var row := n.db.audit[|s.db.audit|];
                 && row.wallet == w && row.amount == amount
                 && row.reason != "" && !IsSpace(row.reason[0]) && !IsSpace(row.reason[|row.reason| - 1])
                 && exists front, back :: reason == front + row.reason + back && All(front + back, IsSpace)
  {
    var front, back := TrimSplits(reason, IsSpace);
    BlankIff(reason);
    TrimmedReason(reason, front, back);
    SoundInRange(s.db.accounts);
    AdjustAccepted(s.db, w, amount, reason);
    hide Inv, TrimSpace, IsSpace, All, AdminAdjust, Moved, AllInRange;
  }

  /** A provider's wallet is empty when it is opened. */
  lemma ProviderWalletIsEmpty(s: State)
    ensures Next(s, OpenProviderWallet) ==
            s.(db := s.db.(accounts := s.db.accounts + [Account(0, 0, [])]))
  {
  }

  ghost predicate Distinct(emails: seq<string>) {
    forall i, k | 0 <= i < k < |emails| :: emails[i] != emails[k]
  }

  lemma EmailsStep(s: State, l: Label)
    ensures Next(s, l).db.emails == s.db.emails ||
            (l.SignUp? && l.email !in s.db.emails && Next(s, l).db.emails == s.db.emails + [l.email])
  {
    hide Post, FinalizeAccounts, UsageAllowed, FitsUsage, Blank, TrimSpace, H.Next, Billing.Charge, Billing.Quote;
  }

  /** In every reachable state the e-mails of all users differ. */
  lemma {:induction false} EmailsDiffer(ls: seq<Label>)
    ensures Distinct(Run(INIT, ls).db.emails)
  {
    if ls != [] {
      hide Next;
      EmailsDiffer(ls[..|ls| - 1]);
      EmailsStep(Run(INIT, ls[..|ls| - 1]), ls[|ls| - 1]);
    }
  }
}
