/** What the ledgers say about requests: every reservation taken, and every one closed, is one entry. */
module Ledgers {
  import opened Credits
  import opened Settlement
  import opened Text
  import opened Protocol
  import Billing
  import G = Guarantees
  import H = Hub

  /** How many entries of this kind a ledger has. */
  function Entries(ledger: seq<Entry>, kind: EntryType): nat {
    if ledger == [] then 0
    else Entries(ledger[..|ledger| - 1], kind) + if ledger[|ledger| - 1].op.kind == kind then 1 else 0
  }

  /** What a job should have contributed to its wallet's entries of this kind. */
  function Share(j: Job, kind: EntryType): nat {
    if kind == Reserve then j.taken else if kind == ReleaseReserve then j.released + j.settled else 0
  }

  function Shares(jobs: seq<Job>, w: nat, kind: EntryType): nat {
    if jobs == [] then 0
    else Shares(jobs[..|jobs| - 1], w, kind) + if jobs[|jobs| - 1].wallet == w then Share(jobs[|jobs| - 1], kind) else 0
  }

  predicate Counted(kind: EntryType) {
    kind == Reserve || kind == ReleaseReserve
  }

  ghost predicate Match(accounts: seq<Account>, jobs: seq<Job>) {
    forall w, kind :: 0 <= w < |accounts| && Counted(kind) ==>
      Entries(accounts[w].ledger, kind) == Shares(jobs, w, kind)
  }

  lemma EntriesGrow(ledger: seq<Entry>, e: Entry, kind: EntryType)
    ensures Entries(ledger + [e], kind) == Entries(ledger, kind) + if e.op.kind == kind then 1 else 0
  {
    assert (ledger + [e])[..|ledger|] == ledger;
  }

  lemma {:induction false} SharesUpdate(jobs: seq<Job>, i: nat, j: Job, w: nat, kind: EntryType)
    requires i < |jobs| && j.wallet == jobs[i].wallet
    ensures Shares(jobs[i := j], w, kind) ==
            Shares(jobs, w, kind) + if j.wallet == w then Share(j, kind) - Share(jobs[i], kind) else 0
  {
    var n := |jobs| - 1;
    if i == n {
      assert jobs[i := j][..n] == jobs[..n];
    } else {
      assert jobs[i := j][..n] == jobs[..n][i := j];
      SharesUpdate(jobs[..n], i, j, w, kind);
    }
  }

  lemma {:induction false} NoShares(jobs: seq<Job>, w: nat, kind: EntryType)
    requires forall i :: 0 <= i < |jobs| && jobs[i].wallet == w ==> Share(jobs[i], kind) == 0
    ensures Shares(jobs, w, kind) == 0
  {
    if jobs != [] {
      NoShares(jobs[..|jobs| - 1], w, kind);
    }
  }

  // ---- Steps ----

  lemma PostEntries(accounts: seq<Account>, p: Posting, w: nat, kind: EntryType)
    requires Post(accounts, p).Ok? && w < |accounts|
    ensures |Post(accounts, p).value| == |accounts|
    ensures Entries(Post(accounts, p).value[w].ledger, kind) ==
            Entries(accounts[w].ledger, kind) + if w == p.wallet && p.op.kind == kind then 1 else 0
  {
    if w == p.wallet {
      var b := AddLedger(accounts[w], p.op).value;
      EntriesGrow(accounts[w].ledger, Entry(p.op, b.balance, b.reserved), kind);
    }
  }

  /** One posting, and the job it belongs to. */
  lemma PostKeepsMatch(accounts: seq<Account>, jobs: seq<Job>, p: Posting, i: nat, j: Job)
    requires Match(accounts, jobs) && Post(accounts, p).Ok? && i < |jobs| && j.wallet == jobs[i].wallet == p.wallet
    requires forall kind :: Counted(kind) ==>
               Share(j, kind) == Share(jobs[i], kind) + if p.op.kind == kind then 1 else 0
    ensures Match(Post(accounts, p).value, jobs[i := j])
  {
    hide Post, Share;
    forall w, kind | 0 <= w < |Post(accounts, p).value| && Counted(kind)
      ensures Entries(Post(accounts, p).value[w].ledger, kind) == Shares(jobs[i := j], w, kind)
    {
      PostLength(accounts, p);
      PostEntries(accounts, p, w, kind);
      SharesUpdate(jobs, i, j, w, kind);
    }
  }

  lemma PostLength(accounts: seq<Account>, p: Posting)
    requires Post(accounts, p).Ok?
    ensures |Post(accounts, p).value| == |accounts|
  {
  }

  /** A posting of another kind. */
  lemma OtherPostKeepsMatch(accounts: seq<Account>, jobs: seq<Job>, p: Posting)
    requires Match(accounts, jobs) && Post(accounts, p).Ok? && !Counted(p.op.kind)
    ensures Match(Post(accounts, p).value, jobs)
  {
    hide Post;
    PostLength(accounts, p);
    forall w, kind | 0 <= w < |accounts| && Counted(kind)
      ensures Entries(Post(accounts, p).value[w].ledger, kind) == Shares(jobs, w, kind)
    {
      PostEntries(accounts, p, w, kind);
    }
  }

  lemma JobKeepsMatch(accounts: seq<Account>, jobs: seq<Job>, i: nat, j: Job)
    requires Match(accounts, jobs) && i < |jobs| && j.wallet == jobs[i].wallet
    requires forall kind :: Counted(kind) ==> Share(j, kind) == Share(jobs[i], kind)
    ensures Match(accounts, jobs[i := j])
  {
    hide Share;
    forall w, kind | 0 <= w < |accounts| && Counted(kind)
      ensures Entries(accounts[w].ledger, kind) == Shares(jobs[i := j], w, kind)
    {
      SharesUpdate(jobs, i, j, w, kind);
    }
  }

  lemma NewWalletKeepsMatch(s: State)
    requires Inv(s) && Match(s.db.accounts, s.jobs)
    ensures Match(s.db.accounts + [NEW_ACCOUNT], s.jobs)
  {
    var n := |s.db.accounts|;
    forall kind | Counted(kind)
      ensures Shares(s.jobs, n, kind) == 0
    {
      forall i | 0 <= i < |s.jobs| && s.jobs[i].wallet == n
        ensures Share(s.jobs[i], kind) == 0
      {
        assert JobOk(s.jobs[i], s.db.status[i]);
      }
      NoShares(s.jobs, n, kind);
    }
  }

  lemma NewJobKeepsMatch(accounts: seq<Account>, jobs: seq<Job>, j: Job)
    requires Match(accounts, jobs) && j.taken == j.released == j.settled == 0
    ensures Match(accounts, jobs + [j])
  {
    assert (jobs + [j])[..|jobs|] == jobs;
  }

  lemma SettleKeepsMatch(accounts: seq<Account>, jobs: seq<Job>, i: nat, u: UsageSettlement)
    requires Match(accounts, jobs) && i < |jobs| && u.wallet == jobs[i].wallet && u.reserved > 0
    requires FinalizeAccounts(accounts, u).Ok?
    ensures Match(FinalizeAccounts(accounts, u).value, jobs[i := SettledJob(jobs[i])])
  {
    hide Post, Match;
    var j := SettledJob(jobs[i]);
    PostKeepsMatch(accounts, jobs, ReleasePosting(u), i, j);
    var a1 := Post(accounts, ReleasePosting(u)).value;
    if u.cost > 0 {
      OtherPostKeepsMatch(a1, jobs[i := j], DebitPosting(u));
    }
    var a2 := PostIf(Ok(a1), u.cost > 0, DebitPosting(u)).value;
    if u.reward > 0 {
      OtherPostKeepsMatch(a2, jobs[i := j], RewardPosting(u));
    }
  }

  lemma WalletStepKeepsMatch(s: State, l: Label)
    requires Inv(s) && Match(s.db.accounts, s.jobs) && (l.SignUp? || l.OpenProviderWallet? || l.Adjust?)
    ensures Match(Next(s, l).db.accounts, Next(s, l).jobs)
  {
    NewWalletKeepsMatch(s);
    hide Inv, Match, Post, Blank, TrimSpace;
    var wide := s.db.accounts + [NEW_ACCOUNT];
    match l
    case OpenProviderWallet =>
    case SignUp(email, grant, ok) =>
      if IsInt64(grant) && Tx(ok, Register(s.db, email, grant)).Ok? {
        OtherPostKeepsMatch(wide, s.jobs, Posting(|s.db.accounts|, Op(Grant, grant, 0)));
      }
    case Adjust(w, amount, reason, ok) =>
      if IsInt64(amount) && Tx(ok, AdminAdjust(s.db, w, amount, reason)).Ok? {
        OtherPostKeepsMatch(s.db.accounts, s.jobs, Posting(w, Op(AdminAdjustment, amount, 0)));
      }
  }

  lemma ReserveStepKeepsMatch(s: State, i: nat, ok: bool)
    requires Match(s.db.accounts, s.jobs) && In(s, i, Created)
    ensures Match(DoReserve(s, i, ok).db.accounts, DoReserve(s, i, ok).jobs)
  {
    hide Match, Post;
    var j := s.jobs[i];
    if Tx(ok, ReserveForUser(s.db, j.wallet, j.quote)).Ok? {
      PostKeepsMatch(s.db.accounts, s.jobs, Posting(j.wallet, Op(Reserve, -j.quote, j.quote)), i,
                     j.(phase := Reserved, taken := j.taken + 1));
    } else {
      JobKeepsMatch(s.db.accounts, s.jobs, i, j.(phase := Refused));
    }
  }

  lemma ReleaseStepKeepsMatch(s: State, i: nat, ok: bool)
    requires Match(s.db.accounts, s.jobs) && i < |s.jobs| && s.jobs[i].phase.Releasing?
    ensures Match(DoRelease(s, i, ok).db.accounts, DoRelease(s, i, ok).jobs)
  {
    hide Match, Post;
    var j := s.jobs[i];
    if Tx(ok, Release(s.db, j.wallet, j.quote)).Ok? {
      PostKeepsMatch(s.db.accounts, s.jobs, Posting(j.wallet, Op(ReleaseReserve, j.quote, -j.quote)), i,
                     j.(phase := AfterRelease(j), released := j.released + 1));
    } else {
      JobKeepsMatch(s.db.accounts, s.jobs, i, j.(phase := AfterRelease(j), lost := j.lost + 1));
    }
  }

  lemma FinalizeStepKeepsMatch(s: State, i: nat, w: nat, ok: bool)
    requires Inv(s) && Match(s.db.accounts, s.jobs) && i < |s.jobs| && s.jobs[i].phase.Settling?
    ensures Match(DoFinalize(s, i, w, ok).db.accounts, DoFinalize(s, i, w, ok).jobs)
  {
    hide Inv, Match, FinalizeUsage, Share;
    G.JobHolds(s, i);
    var u := SettlementOf(s.jobs[i], i, w);
    if Tx(ok, FinalizeUsage(s.db, u)).Ok? {
      AccountsOf(s.db, u);
      SettleKeepsMatch(s.db.accounts, s.jobs, i, u);
    } else {
      SameShare(s.jobs[i]);
      JobKeepsMatch(s.db.accounts, s.jobs, i, s.jobs[i].(phase := Releasing(false)));
    }
  }

  lemma AccountsOf(db: Tables, u: UsageSettlement)
    requires FinalizeUsage(db, u).Ok?
    ensures FinalizeAccounts(db.accounts, u).Ok?
    ensures FinalizeUsage(db, u).value.accounts == FinalizeAccounts(db.accounts, u).value
  {
    hide FinalizeAccounts;
  }

  lemma SameShare(j: Job)
    ensures forall kind :: Share(j.(phase := Releasing(false)), kind) == Share(j, kind)
  {
  }

  lemma NextKeepsMatch(s: State, l: Label)
    requires Inv(s) && Match(s.db.accounts, s.jobs)
    ensures Match(Next(s, l).db.accounts, Next(s, l).jobs)
  {
    hide Inv, Match, DoReserve, DoRelease, DoFinalize, DoSignUp, DoAdjust, Billing.Charge, Billing.Quote, H.Next;
    match l
    case SignUp(_, _, _) => WalletStepKeepsMatch(s, l);
    case OpenProviderWallet => WalletStepKeepsMatch(s, l);
    case Adjust(_, _, _, _) => WalletStepKeepsMatch(s, l);
    case Create(id, w, terms) =>
      if Next(s, l) != s { NewJobKeepsMatch(s.db.accounts, s.jobs, Next(s, l).jobs[|s.jobs|]); }
    case ReserveCredits(i, ok) => if In(s, i, Created) { ReserveStepKeepsMatch(s, i, ok); }
    case MarkDispatched(i, ok) =>
      if In(s, i, Reserved) { JobKeepsMatch(s.db.accounts, s.jobs, i, s.jobs[i].(phase := Dispatching)); }
    case EndDispatch(i) =>
      if Next(s, l) != s { JobKeepsMatch(s.db.accounts, s.jobs, i, Next(s, l).jobs[i]); }
    case ReleaseCredits(i, ok) =>
      if i < |s.jobs| && s.jobs[i].phase.Releasing? { ReleaseStepKeepsMatch(s, i, ok); }
    case Finalize(i, w, ok) =>
      if i < |s.jobs| && s.jobs[i].phase.Settling? { FinalizeStepKeepsMatch(s, i, w, ok); }
    case MarkFailed(i, ok) =>
      if In(s, i, Refused) || In(s, i, Failing) { JobKeepsMatch(s.db.accounts, s.jobs, i, s.jobs[i].(phase := Done)); }
    case HubStep(_) =>
  }

  lemma {:induction false} ReachableMatch(ls: seq<Label>)
    ensures Match(Run(INIT, ls).db.accounts, Run(INIT, ls).jobs)
  {
    hide Inv, Match, Next;
    if ls == [] {
      EmptyMatch();
    } else {
      ReachableMatch(ls[..|ls| - 1]);
      Reachable(ls[..|ls| - 1]);
      NextKeepsMatch(Run(INIT, ls[..|ls| - 1]), ls[|ls| - 1]);
    }
  }

  lemma EmptyMatch()
    ensures Match(INIT.db.accounts, INIT.jobs)
  {
  }

  /** In every reachable state the reserve entries of a wallet number the reservations its requests took,
      and its release entries the ones that were released or settled. */
  lemma EntriesCountReservations(ls: seq<Label>, w: nat)
    requires w < |Run(INIT, ls).db.accounts|
    ensures var s := Run(INIT, ls); var ledger := s.db.accounts[w].ledger;
            && Entries(ledger, Reserve) == Shares(s.jobs, w, Reserve)
            && Entries(ledger, ReleaseReserve) == Shares(s.jobs, w, ReleaseReserve)
  {
    ReachableMatch(ls);
    hide Run, Entries, Shares;
    assert Counted(Reserve) && Counted(ReleaseReserve);
  }

  lemma {:induction false} SharesBalance(jobs: seq<Job>, w: nat)
    requires forall i :: 0 <= i < |jobs| && jobs[i].wallet == w ==> jobs[i].released + jobs[i].settled == jobs[i].taken
    ensures Shares(jobs, w, Reserve) == Shares(jobs, w, ReleaseReserve)
  {
    if jobs != [] {
      SharesBalance(jobs[..|jobs| - 1], w);
    }
  }

  /** Once all requests of a wallet have finished and no release was stopped, its ledger has exactly one
      release entry for every reserve entry. */
  lemma ReserveAndReleaseEntriesPair(ls: seq<Label>, w: nat)
    requires G.ReleasesWork(ls) && w < |Run(INIT, ls).db.accounts|
    requires forall i :: 0 <= i < |Run(INIT, ls).jobs| && Run(INIT, ls).jobs[i].wallet == w ==>
               Run(INIT, ls).jobs[i].phase == Done
    ensures var ledger := Run(INIT, ls).db.accounts[w].ledger;
            Entries(ledger, Reserve) == Entries(ledger, ReleaseReserve)
  {
    var s := Run(INIT, ls);
    EntriesCountReservations(ls, w);
    forall i | 0 <= i < |s.jobs| && s.jobs[i].wallet == w
      ensures s.jobs[i].released + s.jobs[i].settled == s.jobs[i].taken
    {
      G.ReservationsCloseExactlyOnce(ls, i);
    }
    hide Run, Entries, Shares;
    SharesBalance(s.jobs, w);
  }
}
