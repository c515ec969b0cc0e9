/** What the protocol guarantees over whole runs. */
module Guarantees {
  import opened Credits
  import opened Settlement
  import opened Text
  import opened Billing
  import opened Protocol
  import H = Hub

  lemma {:induction false} RunKeepsInv(s: State, ls: seq<Label>)
    requires Inv(s)
    ensures Inv(Run(s, ls))
  {
    if ls != [] {
      hide Inv, Next;
      RunKeepsInv(s, ls[..|ls| - 1]);
      NextKeepsInv(Run(s, ls[..|ls| - 1]), ls[|ls| - 1]);
    }
  }

  // ---- Reserved credits ----

  /** The request still owes its reservation a release or a settlement. */
  predicate InFlight(j: Job) {
    j.phase.Reserved? || j.phase.Dispatching? || j.phase.Releasing? || j.phase.Settling?
  }

  function QuoteIf(b: bool, j: Job, w: nat): int {
    if b && j.wallet == w then j.quote else 0
  }

  function InFlightSum(jobs: seq<Job>, w: nat): int {
    if jobs == [] then 0
    else InFlightSum(jobs[..|jobs| - 1], w) + QuoteIf(InFlight(jobs[|jobs| - 1]), jobs[|jobs| - 1], w)
  }

  /** Reservations whose release was refused or aborted. */
  function LostSum(jobs: seq<Job>, w: nat): int {
    if jobs == [] then 0
    else LostSum(jobs[..|jobs| - 1], w) + QuoteIf(jobs[|jobs| - 1].lost > 0, jobs[|jobs| - 1], w)
  }

  lemma {:induction false} HeldIsInFlightOrLost(jobs: seq<Job>, status: seq<JobStatus>, w: nat)
    requires JobsOk(jobs, status)
    ensures HeldSum(jobs, w) == InFlightSum(jobs, w) + LostSum(jobs, w)
  {
    if jobs != [] {
      var n := |jobs| - 1;
      assert JobsOk(jobs[..n], status[..n]);
      HeldIsInFlightOrLost(jobs[..n], status[..n], w);
      assert JobOk(jobs[n], status[n]);
    }
  }

  lemma {:induction false} QuietSums(jobs: seq<Job>, w: nat)
    requires forall i :: 0 <= i < |jobs| && jobs[i].wallet == w ==> !InFlight(jobs[i]) && jobs[i].lost == 0
    ensures InFlightSum(jobs, w) == 0 && LostSum(jobs, w) == 0
  {
    if jobs != [] {
      QuietSums(jobs[..|jobs| - 1], w);
    }
  }

  /** In every reachable state a wallet's reserved credits are the reservations of its requests in
      flight plus the lost ones, so they are zero when nothing is in flight and nothing was lost. */
  lemma ReservedCreditsAreAccountedFor(ls: seq<Label>, w: nat)
    requires w < |Run(INIT, ls).db.accounts|
    ensures var s := Run(INIT, ls);
            s.db.accounts[w].reserved == InFlightSum(s.jobs, w) + LostSum(s.jobs, w)
    ensures var s := Run(INIT, ls);
            (forall i :: 0 <= i < |s.jobs| && s.jobs[i].wallet == w ==> !InFlight(s.jobs[i]) && s.jobs[i].lost == 0)
            ==> s.db.accounts[w].reserved == 0
  {
    Reachable(ls);
    var s := Run(INIT, ls);
    HeldIsInFlightOrLost(s.jobs, s.db.status, w);
    if forall i :: 0 <= i < |s.jobs| && s.jobs[i].wallet == w ==> !InFlight(s.jobs[i]) && s.jobs[i].lost == 0 {
      QuietSums(s.jobs, w);
    }
  }

  /** In every reachable state every wallet row is the replay of its ledger, through non-negative
      prefix sums. */
  lemma LedgersReplay(ls: seq<Label>, w: nat)
    requires w < |Run(INIT, ls).db.accounts|
    ensures Sound(Run(INIT, ls).db.accounts[w])
  {
    Reachable(ls);
  }

  // ---- Reservations can be given back ----

  lemma JobHolds(s: State, i: nat)
    requires Inv(s) && i < |s.jobs| && InFlight(s.jobs[i])
    ensures var j := s.jobs[i];
            && j.wallet < |s.db.accounts| && IsInt64(j.quote) && j.taken == 1 && j.settled == 0
            && 0 < j.quote <= s.db.accounts[j.wallet].reserved
  {
    var j := s.jobs[i];
    assert JobOk(j, s.db.status[i]);
    HeldSumBounds(s.jobs, s.db.status, j.wallet);
    assert HeldOf(j, j.wallet) == j.quote;
  }

  /** Whatever other requests and administrators did since the reservation, releasing it can be
      refused only because the balance would pass the 64-bit range. */
  lemma ReleaseRefusedOnlyByRange(ls: seq<Label>, i: nat)
    requires var s := Run(INIT, ls); i < |s.jobs| && s.jobs[i].phase.Releasing?
    ensures var s := Run(INIT, ls); var j := s.jobs[i];
            && j.wallet < |s.db.accounts|
            && (Release(s.db, j.wallet, j.quote).Ok? <==> s.db.accounts[j.wallet].balance + j.quote <= MAX_INT64)
  {
    Reachable(ls);
    var s := Run(INIT, ls);
    JobHolds(s, i);
    SoundInRange(s.db.accounts);
    ReleaseAccepts(s.db, s.jobs[i].wallet, s.jobs[i].quote);
  }

  lemma NoUsageYet(s: State, i: nat)
    requires Inv(s) && i < |s.jobs| && s.jobs[i].settled == 0
    ensures UsageAllowed(s.db, i)
  {
  }

  // ---- Bills ----

  /** What the result consumed for request i costs. */
  function BillOf(s: State, i: nat): Option<Bill> {
    if i < |s.jobs| && GotResult(s.hub.dispatches, i) && IsInt64(s.jobs[i].quote) then
      Some(Charge(s.jobs[i].terms, s.jobs[i].quote, s.hub.dispatches[i].stage.outcome.result))
    else None
  }

  function BillIn(u: Usage): Bill {
    Bill(u.cost, u.reward, u.measured)
  }

  /** Every usage record, and every settlement about to be made, carries the bill of the result its
      own request consumed. */
  ghost predicate Billed(s: State) {
    && (forall i :: 0 <= i < |s.jobs| && s.jobs[i].phase.Settling? ==> BillOf(s, i) == Some(s.jobs[i].phase.bill))
    && (forall k :: 0 <= k < |s.db.usage| ==>
          BillOf(s, s.db.usage[k].job) == Some(BillIn(s.db.usage[k])))
  }

  lemma ReturnedStays(s: State, l: Label, i: nat)
    requires DispatchReturned(s, i)
    ensures DispatchReturned(Next(s, l), i) && Next(s, l).hub.dispatches[i] == s.hub.dispatches[i]
  {
    hide Charge, Quote, AdminAdjust, Register, ReserveForUser, Release, FinalizeUsage, CreateJob, MarkJob, H.Next;
    if l.HubStep? {
      DispatchesMove(s.hub, l.l);
    }
  }

  lemma BillIsFinal(s: State, l: Label, i: nat)
    requires BillOf(s, i).Some?
    ensures BillOf(Next(s, l), i) == BillOf(s, i)
  {
    assert DispatchReturned(s, i);
    ReturnedStays(s, l, i);
    TermsStay(s, l, i);
    hide Charge, Next, DispatchReturned;
  }

  /** A request keeps its terms and its quote. */
  lemma TermsStay(s: State, l: Label, i: nat)
    requires i < |s.jobs|
    ensures var n := Next(s, l);
            i < |n.jobs| && n.jobs[i].terms == s.jobs[i].terms && n.jobs[i].quote == s.jobs[i].quote
  {
    hide Charge, Quote, AdminAdjust, Register, ReserveForUser, Release, FinalizeUsage, CreateJob, MarkJob, H.Next;
  }

  /** Only a settlement writes a usage record, and it is the bill the request carries. */
  lemma UsageStep(s: State, l: Label)
    ensures
      || Next(s, l).db.usage == s.db.usage
      || (&& l.Finalize? && l.i < |s.jobs| && s.jobs[l.i].phase.Settling?
          && Next(s, l).db.usage == s.db.usage + [RecordOf(SettlementOf(s.jobs[l.i], l.i, l.rewardWallet))]
          && s.jobs[l.i].phase.bill.cost >= 0 && s.jobs[l.i].phase.bill.reward >= 0)
  {
    hide Charge, Quote, Post, FinalizeAccounts, H.Next, UsageAllowed, FitsUsage, Blank, TrimSpace;
  }

  lemma NextKeepsBilled(s: State, l: Label)
    requires Billed(s)
    ensures Billed(Next(s, l))
  {
    var n := Next(s, l);
    UsageStep(s, l);
    forall i | 0 <= i < |n.jobs| && n.jobs[i].phase.Settling?
      ensures BillOf(n, i) == Some(n.jobs[i].phase.bill)
    {
      SettlingBilled(s, l, i);
    }
    hide BillOf, Next;
    forall k | 0 <= k < |n.db.usage|
      ensures BillOf(n, n.db.usage[k].job) == Some(BillIn(n.db.usage[k]))
    {
      if k < |s.db.usage| {
        assert n.db.usage[k] == s.db.usage[k];
        BillIsFinal(s, l, s.db.usage[k].job);
      } else {
        BillIsFinal(s, l, l.i);
      }
    }
  }

  lemma SettlingBilled(s: State, l: Label, i: nat)
    requires Billed(s) && i < |Next(s, l).jobs| && Next(s, l).jobs[i].phase.Settling?
    ensures BillOf(Next(s, l), i) == Some(Next(s, l).jobs[i].phase.bill)
  {
    SettlingStep(s, l, i);
    if i < |s.jobs| && s.jobs[i].phase.Settling? {
      hide Next, BillOf;
      BillIsFinal(s, l, i);
    } else {
      hide Charge, AfterDispatch;
      BillsWhatItGot(s, i);
    }
  }

  /** A request settles the bill it settled before, or the one it just got from its dispatch. */
  lemma SettlingStep(s: State, l: Label, i: nat)
    requires i < |Next(s, l).jobs| && Next(s, l).jobs[i].phase.Settling?
    ensures if i < |s.jobs| && s.jobs[i].phase.Settling? then Next(s, l).jobs[i].phase == s.jobs[i].phase
            else l == EndDispatch(i) && Next(s, l) != s
  {
    hide Charge, Quote, AdminAdjust, Register, ReserveForUser, Release, FinalizeUsage, CreateJob, MarkJob, H.Next;
  }

  lemma BillsWhatItGot(s: State, i: nat)
    requires i < |s.jobs| && DispatchReturned(s, i) && IsInt64(s.jobs[i].quote)
    requires AfterDispatch(s.jobs[i], s.hub.dispatches[i].stage.outcome).Settling?
    ensures BillOf(s, i) == Some(AfterDispatch(s.jobs[i], s.hub.dispatches[i].stage.outcome).bill)
  {
    hide Charge;
  }

  lemma {:induction false} ReachableBilled(ls: seq<Label>)
    ensures Billed(Run(INIT, ls))
  {
    if ls != [] {
      hide Billed, Next;
      ReachableBilled(ls[..|ls| - 1]);
      NextKeepsBilled(Run(INIT, ls[..|ls| - 1]), ls[|ls| - 1]);
    }
  }

  /** The bill of a settlement about to be made. */
  lemma BillSigns(s: State, i: nat)
    requires Billed(s) && i < |s.jobs| && s.jobs[i].phase.Settling? && 0 < s.jobs[i].quote
    ensures GotResult(s.hub.dispatches, i)
    ensures var j, r := s.jobs[i], s.hub.dispatches[i].stage.outcome.result; var b := j.phase.bill;
            ValidRates(j.terms) ==>
              (b.cost >= 0 && b.reward >= 0 <==> PriceInRange(j.terms, r) && RewardInRange(b.cost, j.terms.ratio))
  {
    assert BillOf(s, i) == Some(s.jobs[i].phase.bill);
    var j, r := s.jobs[i], s.hub.dispatches[i].stage.outcome.result;
    hide Charge, PriceInRange, RewardInRange, Billed;
    if ValidRates(j.terms) {
      CostIsNegative(j.terms, j.quote, r);
      if j.phase.bill.cost >= 0 {
        RewardIsNegative(j.phase.bill.cost, j.terms.ratio);
      }
    }
  }

  lemma SettlementAccepted(s: State, i: nat)
    requires Inv(s) && i < |s.jobs| && s.jobs[i].phase.Settling?
    ensures var j := s.jobs[i]; var b := j.phase.bill;
            && j.wallet < |s.db.accounts|
            && (FinalizeUsage(s.db, SettlementOf(j, i, j.wallet)).Ok? <==>
                  && b.cost >= 0 && b.reward >= 0 && FitsUsage(b.measured)
                  && s.db.accounts[j.wallet].balance + j.quote <= MAX_INT64
                  && s.db.accounts[j.wallet].balance + j.quote - b.cost + b.reward <= MAX_INT64)
  {
    var j := s.jobs[i];
    JobHolds(s, i);
    SoundInRange(s.db.accounts);
    NoUsageYet(s, i);
    JobFacts(s, i);
    var u := SettlementOf(j, i, j.wallet);
    if u.cost >= 0 && u.reward >= 0 {
      hide Inv, FinalizeUsage, FitsUsage;
      FinalizeAccepts(s.db, u);
    }
  }

  /** The settlement that follows a result, paid out to the user's wallet as the code does, can be
      refused only for a negative bill, for a figure that does not fit the usage record, or because the
      balance would pass the 64-bit range; and with valid rates a bill is negative only when the price of
      the counts charged for, or the whole cost as a reward, passes the 64-bit range. */
  lemma SettlementRefusedOnlyByRange(ls: seq<Label>, i: nat)
    requires var s := Run(INIT, ls); i < |s.jobs| && s.jobs[i].phase.Settling?
    ensures var s := Run(INIT, ls); var j := s.jobs[i]; var b := j.phase.bill;
            && j.wallet < |s.db.accounts|
            && (FinalizeUsage(s.db, SettlementOf(j, i, j.wallet)).Ok? <==>
                  && b.cost >= 0 && b.reward >= 0 && FitsUsage(b.measured)
                  && s.db.accounts[j.wallet].balance + j.quote <= MAX_INT64
                  && s.db.accounts[j.wallet].balance + j.quote - b.cost + b.reward <= MAX_INT64)
    ensures GotResult(Run(INIT, ls).hub.dispatches, i)
    ensures var s := Run(INIT, ls); var j, r := s.jobs[i], s.hub.dispatches[i].stage.outcome.result;
            ValidRates(j.terms) ==>
              (j.phase.bill.cost >= 0 && j.phase.bill.reward >= 0 <==>
                PriceInRange(j.terms, r) && RewardInRange(j.phase.bill.cost, j.terms.ratio))
  {
    Reachable(ls);
    ReachableBilled(ls);
    var s := Run(INIT, ls);
    hide Run;
    JobHolds(s, i);
    BillSigns(s, i);
    hide Billed, GotResult, ValidRates, PriceInRange, RewardInRange;
    SettlementAccepted(s, i);
  }

  // ---- Conservation ----

  /** No usage record has a negative amount. */
  ghost predicate Signs(usage: seq<Usage>) {
    forall k :: 0 <= k < |usage| ==> usage[k].cost >= 0 && usage[k].reward >= 0
  }

  lemma {:induction false} ReachableSigns(ls: seq<Label>)
    ensures Signs(Run(INIT, ls).db.usage)
  {
    if ls != [] {
      hide Next;
      ReachableSigns(ls[..|ls| - 1]);
      UsageStep(Run(INIT, ls[..|ls| - 1]), ls[|ls| - 1]);
    }
  }

  /** The reward of record k is at most its cost, except in the one case of Billing.RewardExceeds. */
  lemma RecordIsProper(s: State, k: nat)
    requires Billed(s) && Signs(s.db.usage) && k < |s.db.usage| && RatioIsValid(s, k)
    ensures s.db.usage[k].reward <= s.db.usage[k].cost <==> !RecordExceeds(s, k)
  {
    hide Charge, RewardExceeds, ValidRatio;
    var i := s.db.usage[k].job;
    assert s.db.usage[k].cost >= 0 && s.db.usage[k].reward >= 0;
    assert BillOf(s, i) == Some(BillIn(s.db.usage[k]));
    ChargeIsShare(s.jobs[i].terms, s.jobs[i].quote, s.hub.dispatches[i].stage.outcome.result);
  }

  /** The model of the job of record k had a ratio from 0 to 1. */
  predicate RatioIsValid(s: State, k: nat)
    requires k < |s.db.usage|
  {
    var i := s.db.usage[k].job;
    i < |s.jobs| && ValidRatio(s.jobs[i].terms.ratio)
  }

  predicate RecordExceeds(s: State, k: nat)
    requires k < |s.db.usage|
  {
    var i := s.db.usage[k].job;
    i < |s.jobs| && RewardExceeds(s.db.usage[k].cost, s.jobs[i].terms.ratio)
  }

  lemma {:induction false} MarginNonNegative(usage: seq<Usage>)
    requires forall k :: 0 <= k < |usage| ==> usage[k].reward <= usage[k].cost
    ensures Margin(usage) >= 0
  {
    if usage != [] {
      MarginNonNegative(usage[..|usage| - 1]);
    }
  }

  /** Credits are created only by starting grants and adjustments and disappear only as the margin of
      settled jobs, for any choice of reward wallets. For every record of a job with a valid ratio that
      margin is negative if and only if the ratio is 1 and float64(cost) rounds up; without such a
      record no credits are ever created beyond grants and adjustments. */
  lemma CreditsAreConserved(ls: seq<Label>)
    ensures var s := Run(INIT, ls); Total(s.db.accounts) == s.granted + s.adjusted - Margin(s.db.usage)
    ensures var s := Run(INIT, ls);
            forall k :: 0 <= k < |s.db.usage| && RatioIsValid(s, k) ==>
              (s.db.usage[k].reward <= s.db.usage[k].cost <==> !RecordExceeds(s, k))
    ensures var s := Run(INIT, ls);
            (forall k :: 0 <= k < |s.db.usage| ==> RatioIsValid(s, k) && !RecordExceeds(s, k))
            ==> Margin(s.db.usage) >= 0 && Total(s.db.accounts) <= s.granted + s.adjusted
  {
    var s := Run(INIT, ls);
    Balanced(ls);
    ReachableBilled(ls);
    ReachableSigns(ls);
    hide Billed, Signs, Run, RatioIsValid, RecordExceeds;
    forall k | 0 <= k < |s.db.usage| && RatioIsValid(s, k)
      ensures s.db.usage[k].reward <= s.db.usage[k].cost <==> !RecordExceeds(s, k)
    {
      RecordIsProper(s, k);
    }
    if forall k :: 0 <= k < |s.db.usage| ==> RatioIsValid(s, k) && !RecordExceeds(s, k) {
      MarginNonNegative(s.db.usage);
    }
  }

  lemma Balanced(ls: seq<Label>)
    ensures var s := Run(INIT, ls); Total(s.db.accounts) == s.granted + s.adjusted - Margin(s.db.usage)
  {
    Reachable(ls);
  }

  // ---- Job rows and usage records ----

  /** A job row says succeeded if and only if exactly one usage record names the job, and a failed job
      holds no credits unless its release was lost. */
  lemma SucceededIffRecorded(ls: seq<Label>, i: nat)
    requires i < |Run(INIT, ls).jobs|
    ensures var s := Run(INIT, ls);
            && i < |s.db.status|
            && (s.db.status[i] == Succeeded <==> exists k :: 0 <= k < |s.db.usage| && s.db.usage[k].job == i)
            && (forall k, m | 0 <= k < m < |s.db.usage| :: s.db.usage[k].job != s.db.usage[m].job)
            && (s.db.status[i] == Failed && s.jobs[i].lost == 0 ==> Held(s.jobs[i]) == 0)
  {
    Reachable(ls);
    var s := Run(INIT, ls);
    assert JobOk(s.jobs[i], s.db.status[i]);
  }

  // ---- Exactly once ----

  /** A release step that neither the database nor the 64-bit range stops. */
  predicate ReleaseWorks(s: State, l: Label) {
    l.ReleaseCredits? && l.i < |s.jobs| && s.jobs[l.i].wallet < |s.db.accounts| ==>
      l.ok && s.db.accounts[s.jobs[l.i].wallet].balance + s.jobs[l.i].quote <= MAX_INT64
  }

  ghost predicate ReleasesWork(ls: seq<Label>) {
    ls == [] || (ReleasesWork(ls[..|ls| - 1]) && ReleaseWorks(Run(INIT, ls[..|ls| - 1]), ls[|ls| - 1]))
  }

  ghost predicate NothingLost(s: State) {
    forall i :: 0 <= i < |s.jobs| ==> s.jobs[i].lost == 0
  }

  lemma NextLosesNothing(ls: seq<Label>, l: Label)
    requires NothingLost(Run(INIT, ls)) && ReleaseWorks(Run(INIT, ls), l)
    ensures NothingLost(Next(Run(INIT, ls), l))
  {
    var s := Run(INIT, ls);
    if l.ReleaseCredits? && l.i < |s.jobs| && s.jobs[l.i].phase.Releasing? {
      ReleaseRefusedOnlyByRange(ls, l.i);
    }
    hide Charge, Quote, AdminAdjust, Register, ReserveForUser, Release, FinalizeUsage, CreateJob, MarkJob, H.Next, Run;
  }

  lemma {:induction false} NothingIsLost(ls: seq<Label>)
    requires ReleasesWork(ls)
    ensures NothingLost(Run(INIT, ls))
  {
    if ls != [] {
      hide Next;
      NothingIsLost(ls[..|ls| - 1]);
      NextLosesNothing(ls[..|ls| - 1], ls[|ls| - 1]);
    }
  }

  /** The step by which the settlement of request i is aborted or refused. */
  predicate Refuses(s: State, l: Label, i: nat) {
    && l.Finalize? && l.i == i && i < |s.jobs| && s.jobs[i].phase.Settling?
    && Tx(l.ok, FinalizeUsage(s.db, SettlementOf(s.jobs[i], i, l.rewardWallet))).Err?
  }

  /** Whether that has happened in a run. */
  ghost predicate WasRefused(ls: seq<Label>, i: nat) {
    ls != [] && (WasRefused(ls[..|ls| - 1], i) || Refuses(Run(INIT, ls[..|ls| - 1]), ls[|ls| - 1], i))
  }

  /** The phase of a request tells how its dispatch ended and whether its settlement was refused. */
  ghost predicate Concluded(s: State, i: nat, refused: bool)
    requires i < |s.jobs|
  {
    var j, ds := s.jobs[i], s.hub.dispatches;
    match j.phase
    case Created => i !in ds && !refused
    case Refused => i !in ds && !refused
    case Reserved => i !in ds && !refused
    case Dispatching => !refused
    case Settling(_) => GotResult(ds, i) && !refused
    case Releasing(thenFail) =>
      DispatchReturned(s, i) && (GotResult(ds, i) <==> !thenFail) && (refused <==> !thenFail)
    case Failing => DispatchReturned(s, i) && !GotResult(ds, i) && !refused
    case Done =>
      if j.taken == 0 then i !in ds && !refused
      else
        && DispatchReturned(s, i) && (refused ==> GotResult(ds, i))
        && (j.settled == 1 <==> GotResult(ds, i) && !refused)
  }

  /** A step that leaves request i and its dispatch where they were. */
  lemma OtherStepKeepsConcluded(s: State, n: State, i: nat, refused: bool)
    requires i < |s.jobs| && i < |n.jobs| && Concluded(s, i, refused) && n.jobs[i] == s.jobs[i]
    requires i in n.hub.dispatches <==> i in s.hub.dispatches
    requires i in s.hub.dispatches && s.hub.dispatches[i].stage.Returned? ==> n.hub.dispatches[i] == s.hub.dispatches[i]
    ensures Concluded(n, i, refused)
  {
  }

  lemma HubStepKeepsConcluded(s: State, l: H.Label, i: nat, refused: bool)
    requires i < |s.jobs| && Concluded(s, i, refused) && HubMayStep(s, l)
    ensures Concluded(s.(hub := H.Next(s.hub, l)), i, refused)
  {
    DispatchesMove(s.hub, l);
    hide H.Next;
    if !s.jobs[i].phase.Dispatching? {
      OtherStepKeepsConcluded(s, s.(hub := H.Next(s.hub, l)), i, refused);
    }
  }

  /** The steps that change a request. */
  predicate ActsOn(l: Label, i: nat) {
    match l
    case ReserveCredits(k, _) => k == i
    case MarkDispatched(k, _) => k == i
    case EndDispatch(k) => k == i
    case ReleaseCredits(k, _) => k == i
    case Finalize(k, _, _) => k == i
    case MarkFailed(k, _) => k == i
    case _ => false
  }

  /** The reservation of request i, */
  lemma ReserveConcludes(s: State, i: nat, ok: bool, refused: bool)
    requires Inv(s) && i < |s.jobs| && Concluded(s, i, refused)
    ensures i < |Next(s, ReserveCredits(i, ok)).jobs| && Concluded(Next(s, ReserveCredits(i, ok)), i, refused)
  {
    hide Inv, ReserveForUser, GotResult;
    JobFacts(s, i);
  }

  /** its release, */
  lemma ReleaseConcludes(s: State, i: nat, ok: bool, refused: bool)
    requires Inv(s) && i < |s.jobs| && Concluded(s, i, refused)
    ensures i < |Next(s, ReleaseCredits(i, ok)).jobs| && Concluded(Next(s, ReleaseCredits(i, ok)), i, refused)
  {
    hide Inv, Release, GotResult;
    JobFacts(s, i);
  }

  /** its settlement, */
  lemma FinalizeConcludes(s: State, i: nat, w: nat, ok: bool, refused: bool)
    requires Inv(s) && i < |s.jobs| && Concluded(s, i, refused)
    ensures var n := Next(s, Finalize(i, w, ok));
            i < |n.jobs| && Concluded(n, i, refused || Refuses(s, Finalize(i, w, ok), i))
  {
    hide Inv, FinalizeUsage;
    JobFacts(s, i);
  }

  /** the end of its dispatch, */
  lemma EndDispatchConcludes(s: State, i: nat, refused: bool)
    requires Inv(s) && i < |s.jobs| && Concluded(s, i, refused)
    ensures i < |Next(s, EndDispatch(i)).jobs| && Concluded(Next(s, EndDispatch(i)), i, refused)
  {
    hide Inv, Charge;
    JobFacts(s, i);
  }

  /** or a change of its job row. */
  lemma MarkConcludes(s: State, l: Label, i: nat, refused: bool)
    requires Inv(s) && i < |s.jobs| && Concluded(s, i, refused)
    requires l.MarkDispatched? || l.MarkFailed?
    requires l.i == i
    ensures i < |Next(s, l).jobs| && Concluded(Next(s, l), i, refused)
  {
    hide Inv, MarkJob, GotResult;
    JobFacts(s, i);
  }

  lemma OthersLeave(s: State, l: Label, i: nat)
    requires i < |s.jobs| && !ActsOn(l, i)
    ensures i < |Next(s, l).jobs| && Next(s, l).jobs[i] == s.jobs[i] && !Refuses(s, l, i)
    ensures !l.HubStep? ==> Next(s, l).hub == s.hub
  {
    hide Charge, Quote, AdminAdjust, Register, ReserveForUser, Release, FinalizeUsage, CreateJob, MarkJob, H.Next;
  }

  lemma NextKeepsConcluded(s: State, l: Label, i: nat, refused: bool)
    requires Inv(s) && i < |s.jobs| && Concluded(s, i, refused)
    ensures i < |Next(s, l).jobs| && Concluded(Next(s, l), i, refused || Refuses(s, l, i))
  {
    if ActsOn(l, i) {
      hide Inv, Next, Concluded;
      match l
      case ReserveCredits(_, ok) => ReserveConcludes(s, i, ok, refused);
      case ReleaseCredits(_, ok) => ReleaseConcludes(s, i, ok, refused);
      case Finalize(_, w, ok) => FinalizeConcludes(s, i, w, ok, refused);
      case EndDispatch(_) => EndDispatchConcludes(s, i, refused);
      case _ => MarkConcludes(s, l, i, refused);
    } else {
      OthersLeave(s, l, i);
      if l.HubStep? && HubMayStep(s, l.l) {
        HubStepKeepsConcluded(s, l.l, i, refused);
      } else {
        SameHub(s, l);
        hide Next, Concluded, Refuses, Inv;
        OtherStepKeepsConcluded(s, Next(s, l), i, refused);
      }
    }
  }

  lemma SameHub(s: State, l: Label)
    requires !(l.HubStep? && HubMayStep(s, l.l))
    ensures Next(s, l).hub == s.hub
  {
    hide Charge, Quote, AdminAdjust, Register, ReserveForUser, Release, FinalizeUsage, CreateJob, MarkJob, H.Next;
  }

  /** A request that appears has not been dispatched. */
  lemma NewIsConcluded(s: State, l: Label, i: nat)
    requires Inv(s) && |s.jobs| <= i < |Next(s, l).jobs|
    ensures Concluded(Next(s, l), i, false) && !Refuses(s, l, i)
  {
    hide Charge, Quote, AdminAdjust, Register, ReserveForUser, Release, FinalizeUsage, MarkJob, H.Next;
  }

  lemma {:induction false} ReachableConcluded(ls: seq<Label>, i: nat)
    ensures i < |Run(INIT, ls).jobs| ==> Concluded(Run(INIT, ls), i, WasRefused(ls, i))
    ensures i >= |Run(INIT, ls).jobs| ==> !WasRefused(ls, i)
  {
    hide Inv, Next, Concluded, Refuses;
    if ls != [] {
      var init, l := ls[..|ls| - 1], ls[|ls| - 1];
      ReachableConcluded(init, i);
      Reachable(init);
      var s := Run(INIT, init);
      if i < |s.jobs| {
        NextKeepsConcluded(s, l, i, WasRefused(init, i));
      } else if i < |Next(s, l).jobs| {
        NewIsConcluded(s, l, i);
      } else {
        NoSuchRequest(s, l, i);
      }
    }
  }

  lemma NoSuchRequest(s: State, l: Label, i: nat)
    requires i >= |s.jobs|
    ensures !Refuses(s, l, i)
  {
  }

  /** End to end, when no release is stopped: a finished request that took a reservation has closed it
      exactly once. It was settled if and only if its dispatch returned a result without error code and
      its settlement was not refused, and that result carries its own job id; in all other cases, and only
      then, it was released. A request that took none was never dispatched. */
  lemma ReservationsCloseExactlyOnce(ls: seq<Label>, i: nat)
    requires ReleasesWork(ls) && i < |Run(INIT, ls).jobs| && Run(INIT, ls).jobs[i].phase == Done
    ensures var s := Run(INIT, ls); var j := s.jobs[i];
            && j.taken <= 1 && j.released + j.settled == j.taken
            && (j.taken == 0 ==> i !in s.hub.dispatches)
            && (j.taken == 1 ==>
                  && (j.settled == 1 <==> GotResult(s.hub.dispatches, i) && !WasRefused(ls, i))
                  && (j.released == 1 <==> !GotResult(s.hub.dispatches, i) || WasRefused(ls, i)))
            && (j.settled == 1 ==> s.hub.dispatches[i].stage.outcome.result.job == j.id)
  {
    Reachable(ls);
    NothingIsLost(ls);
    ReachableConcluded(ls, i);
    JobFacts(Run(INIT, ls), i);
    OwnResult(Run(INIT, ls), i);
    hide Run, Inv, WasRefused;
  }

  lemma OwnResult(s: State, i: nat)
    requires Inv(s) && i < |s.jobs|
    ensures GotResult(s.hub.dispatches, i) ==> s.hub.dispatches[i].stage.outcome.result.job == s.jobs[i].id
  {
    hide Books, IdsMatch, JobsOk, WalletsExist, DistinctIds, SettledByResult;
    if GotResult(s.hub.dispatches, i) {
      assert H.ResultOf(s.hub.dispatches[i]).Some?;
    }
  }

  /** A settlement step that neither the database nor its figures stop. */
  predicate SettlementWorks(s: State, l: Label) {
    l.Finalize? && l.i < |s.jobs| && s.jobs[l.i].phase.Settling? && s.jobs[l.i].wallet < |s.db.accounts| ==>
      var j, balance := s.jobs[l.i], s.db.accounts[s.jobs[l.i].wallet].balance;
      var b := j.phase.bill;
      && l.ok && l.rewardWallet == j.wallet && b.cost >= 0 && b.reward >= 0 && FitsUsage(b.measured)
      && balance + j.quote <= MAX_INT64 && balance + j.quote - b.cost + b.reward <= MAX_INT64
  }

  ghost predicate SettlementsWork(ls: seq<Label>) {
    ls == [] || (SettlementsWork(ls[..|ls| - 1]) && SettlementWorks(Run(INIT, ls[..|ls| - 1]), ls[|ls| - 1]))
  }

  lemma {:induction false} NothingIsRefused(ls: seq<Label>, i: nat)
    requires SettlementsWork(ls)
    ensures !WasRefused(ls, i)
  {
    if ls != [] {
      hide Run, FinalizeUsage, FitsUsage;
      var init, l := ls[..|ls| - 1], ls[|ls| - 1];
      NothingIsRefused(init, i);
      if Refuses(Run(INIT, init), l, i) {
        SettlementRefusedOnlyByRange(init, i);
      }
    }
  }

  /** When no settlement is stopped either, every finished request whose dispatch returned a result without
      error code was settled, and not released. */
  lemma ResultsAreSettled(ls: seq<Label>, i: nat)
    requires ReleasesWork(ls) && SettlementsWork(ls)
    requires i < |Run(INIT, ls).jobs| && Run(INIT, ls).jobs[i].phase == Done
    requires GotResult(Run(INIT, ls).hub.dispatches, i)
    ensures Run(INIT, ls).jobs[i].settled == 1 && Run(INIT, ls).jobs[i].released == 0
    ensures i < |Run(INIT, ls).db.status| && Run(INIT, ls).db.status[i] == Succeeded
  {
    ReservationsCloseExactlyOnce(ls, i);
    NothingIsRefused(ls, i);
    Reachable(ls);
    JobFacts(Run(INIT, ls), i);
    hide Run, Inv, WasRefused, GotResult;
  }

  lemma {:induction false} OutcomeStays(s: State, ls: seq<Label>, i: nat)
    requires DispatchReturned(s, i)
    ensures DispatchReturned(Run(s, ls), i) && Run(s, ls).hub.dispatches[i] == s.hub.dispatches[i]
  {
    if ls != [] {
      hide Next, DispatchReturned;
      OutcomeStays(s, ls[..|ls| - 1], i);
      ReturnedStays(Run(s, ls[..|ls| - 1]), ls[|ls| - 1], i);
    }
  }

  /** Once a dispatch ended without a proper result (timeout, write failure, no connection, provider
      error), its job is never settled: no message that arrives later changes that. */
  lemma LateResultsChangeNothing(ls: seq<Label>, more: seq<Label>, i: nat)
    requires DispatchReturned(Run(INIT, ls), i) && !GotResult(Run(INIT, ls).hub.dispatches, i)
    ensures var s := Run(Run(INIT, ls), more);
            && i < |s.jobs| && i < |s.db.status|
            && s.jobs[i].settled == 0 && s.db.status[i] != Succeeded
            && forall k :: 0 <= k < |s.db.usage| ==> s.db.usage[k].job != i
  {
    hide Inv, Run;
    Reachable(ls);
    RunKeepsInv(Run(INIT, ls), more);
    OutcomeStays(Run(INIT, ls), more, i);
    NeverSettled(Run(Run(INIT, ls), more), i);
  }

  lemma NeverSettled(s: State, i: nat)
    requires Inv(s) && DispatchReturned(s, i) && !GotResult(s.hub.dispatches, i)
    ensures i < |s.jobs| && i < |s.db.status|
    ensures s.jobs[i].settled == 0 && s.db.status[i] != Succeeded
    ensures forall k :: 0 <= k < |s.db.usage| ==> s.db.usage[k].job != i
  {
    hide AllSound, ReservesMatch, WalletsExist, DistinctIds, IdsMatch, HubOk, GotResult;
    assert JobOk(s.jobs[i], s.db.status[i]);
  }

  // ---- Requests finish ----

  /** The next step of request i itself; a waiting one can time out. */
  function OwnStep(s: State, i: nat, ok: bool): Label
    requires i < |s.jobs|
  {
    match s.jobs[i].phase
    case Created => ReserveCredits(i, ok)
    case Refused => MarkFailed(i, ok)
    case Reserved => MarkDispatched(i, ok)
    case Dispatching =>
      if i !in s.hub.dispatches then HubStep(H.Lookup(i, s.jobs[i].id, 0))
      else (match s.hub.dispatches[i].stage
            case Connected => HubStep(H.Insert(i))
            case Registered(_) => HubStep(H.WriteRequest(i, ok))
            case Waiting(_) => HubStep(H.Timeout(i))
            case Leaving(_, _) => HubStep(H.Delete(i))
            case Returned(_) => EndDispatch(i))
    case Releasing(_) => ReleaseCredits(i, ok)
    case Failing => MarkFailed(i, ok)
    case Settling(_) => Finalize(i, s.jobs[i].wallet, ok)
    case Done => EndDispatch(i)
  }

  /** How far request i is from its end. */
  function Distance(s: State, i: nat): nat
    requires i < |s.jobs|
  {
    match s.jobs[i].phase
    case Created => 11
    case Reserved => 10
    case Dispatching =>
      if i !in s.hub.dispatches then 9
      else (match s.hub.dispatches[i].stage
            case Connected => 8
            case Registered(_) => 7
            case Waiting(_) => 6
            case Leaving(_, _) => 5
            case Returned(_) => 4)
    case Settling(_) => 3
    case Releasing(_) => 2
    case Failing => 1
    case Refused => 1
    case Done => 0
  }

  /** Steps of the hub alone. */
  lemma HubStepsMoveOn(s: State, l: H.Label, i: nat)
    requires In(s, i, Dispatching)
    ensures Distance(s.(hub := H.Next(s.hub, l)), i) <= Distance(s, i)
  {
  }

  /** No step of anyone sends a request back. */
  lemma NoStepBack(s: State, l: Label, i: nat)
    requires i < |s.jobs| && IsInt64(s.jobs[i].quote)
    ensures i < |Next(s, l).jobs| && Distance(Next(s, l), i) <= Distance(s, i)
  {
    hide Charge, Quote, AdminAdjust, Register, ReserveForUser, Release, FinalizeUsage, CreateJob, MarkJob, H.Next;
    if l.HubStep? && In(s, i, Dispatching) {
      HubStepsMoveOn(s, l.l, i);
    }
  }

  lemma OwnHubStepMovesOn(s: State, i: nat, ok: bool)
    requires In(s, i, Dispatching) && !DispatchReturned(s, i)
    ensures OwnStep(s, i, ok).HubStep? && HubMayStep(s, OwnStep(s, i, ok).l)
    ensures Distance(s.(hub := H.Next(s.hub, OwnStep(s, i, ok).l)), i) < Distance(s, i)
  {
  }

  /** The own next step of a request, whether or not the database aborts it, always brings it closer
      to its end. */
  lemma OwnStepMovesOn(s: State, i: nat, ok: bool)
    requires i < |s.jobs| && IsInt64(s.jobs[i].quote) && s.jobs[i].phase != Done
    ensures i < |Next(s, OwnStep(s, i, ok)).jobs|
    ensures Distance(Next(s, OwnStep(s, i, ok)), i) < Distance(s, i)
  {
    hide Charge, Quote, AdminAdjust, Register, ReserveForUser, Release, FinalizeUsage, CreateJob, MarkJob, H.Next;
    if In(s, i, Dispatching) && !DispatchReturned(s, i) {
      OwnHubStepMovesOn(s, i, ok);
    }
  }

  lemma QuoteInRange(s: State, i: nat)
    requires Inv(s) && i < |s.jobs|
    ensures IsInt64(s.jobs[i].quote)
  {
    assert JobOk(s.jobs[i], s.db.status[i]);
  }

  /** From every reachable state every request can run to its end within eleven steps of its own. */
  lemma {:induction false} RequestsFinish(s: State, i: nat) returns (ls: seq<Label>)
    requires Inv(s) && i < |s.jobs|
    ensures |ls| <= Distance(s, i) <= 11
    ensures i < |Run(s, ls).jobs| && Run(s, ls).jobs[i].phase == Done
    decreases Distance(s, i)
  {
    DistanceIsBounded(s, i);
    hide Inv, Next, Run, OwnStep, Distance;
    if s.jobs[i].phase == Done {
      ls := [];
      RunEmpty(s);
    } else {
      var l := OwnStep(s, i, true);
      NextKeepsInv(s, l);
      QuoteInRange(s, i);
      OwnStepMovesOn(s, i, true);
      var rest := RequestsFinish(Next(s, l), i);
      ls := [l] + rest;
      RunFirst(s, l, rest);
    }
  }

  lemma DistanceIsBounded(s: State, i: nat)
    requires i < |s.jobs|
    ensures Distance(s, i) <= 11
  {
  }

  lemma RunEmpty(s: State)
    ensures Run(s, []) == s
  {
  }

  lemma {:induction false} RunFirst(s: State, l: Label, ls: seq<Label>)
    ensures Run(s, [l] + ls) == Run(Next(s, l), ls)
  {
    if ls == [] {
      assert [l] + [] == [l];
      assert [l][..0] == [];
    } else {
      hide Next;
      assert ([l] + ls)[..|ls|] == [l] + ls[..|ls| - 1];
      RunFirst(s, l, ls[..|ls| - 1]);
    }
  }
}
