/** The hub that pairs each dispatched job with the provider's result: a shared map from job id to a
    channel of capacity one. Dispatching, timing out, completing and deleting are separate steps of
    many goroutines. */
module Hub {
  import opened Credits

  /** What Complete is given; `latency` is the provider's own figure. */
  datatype JobResult = JobResult(job: nat, errorCode: string, contentChars: nat, usage: Option<(int, int)>,
                                 latency: int)

  /** A job_error message as Complete is given it. Its error code may be empty. */
  function FromError(job: nat, code: string): JobResult {
    JobResult(job, code, 0, None, 0)
  }

  datatype Outcome = Received(result: JobResult) | ProviderUnavailable | WriteFailed | TimedOut

  /** What the handler settles: a result without an error code. */
  predicate Usable(o: Outcome) {
    o.Received? && o.result.errorCode == ""
  }

  /** A goroutine inside Dispatch. `Leaving` still has the deferred delete before it. */
  datatype Stage =
    | Connected
    | Registered(chan: nat)
    | Waiting(chan: nat)
    | Leaving(chan: nat, pending: Outcome)
    | Returned(outcome: Outcome)

  datatype Dispatch = Dispatch(job: nat, stage: Stage)

  /** A goroutine inside Complete: it read the job's channel and now sends, or it returned. */
  datatype Completion = Sending(result: JobResult, chan: nat) | Completed(result: JobResult, delivered: bool)

  /** Dispatching goroutines have names; channels and completions are numbered as they appear.
      Channel c was made for job owners[c] and buffers slots[c]. */
  datatype State = State(
    providers: set<nat>, jobs: map<nat, nat>, owners: seq<nat>, slots: seq<Option<JobResult>>,
    dispatches: map<nat, Dispatch>, completions: seq<Completion>)

  const EMPTY := State({}, map[], [], [], map[], [])

  datatype Label =
    | Register(provider: nat)
    | Unregister(provider: nat)
    | Lookup(g: nat, job: nat, provider: nat)
    | Insert(g: nat)
    | WriteRequest(g: nat, ok: bool)
    | Receive(g: nat)
    | Timeout(g: nat)
    | Delete(g: nat)
    | Complete(result: JobResult)
    | Send(k: nat)

  predicate At(s: State, g: nat) {
    g in s.dispatches
  }

  function Move(s: State, g: nat, stage: Stage): State
    requires At(s, g)
  {
    s.(dispatches := s.dispatches[g := s.dispatches[g].(stage := stage)])
  }

  predicate CanReceive(s: State, g: nat) {
    At(s, g) && s.dispatches[g].stage.Waiting? && s.dispatches[g].stage.chan < |s.slots| &&
    s.slots[s.dispatches[g].stage.chan].Some?
  }

  /** A send on a full channel waits. */
  predicate CanSend(s: State, k: nat) {
    k < |s.completions| && s.completions[k].Sending? && s.completions[k].chan < |s.slots| &&
    s.slots[s.completions[k].chan].None?
  }

  function DoInsert(s: State, g: nat): State
    requires At(s, g)
  {
    var c := |s.slots|;
    Move(s, g, Registered(c)).(
      jobs := s.jobs[s.dispatches[g].job := c],
      owners := s.owners + [s.dispatches[g].job],
      slots := s.slots + [None])
  }

  function DoReceive(s: State, g: nat): State
    requires CanReceive(s, g)
  {
    var c := s.dispatches[g].stage.chan;
    Move(s, g, Leaving(c, Received(s.slots[c].value))).(slots := s.slots[c := None])
  }

  /** The deferred delete, by job id. */
  function DoDelete(s: State, g: nat): State
    requires At(s, g) && s.dispatches[g].stage.Leaving?
  {
    Move(s, g, Returned(s.dispatches[g].stage.pending)).(jobs := s.jobs - {s.dispatches[g].job})
  }

  function DoSend(s: State, k: nat): State
    requires CanSend(s, k)
  {
    var c := s.completions[k];
    s.(slots := s.slots[c.chan := Some(c.result)],
       completions := s.completions[k := Completed(c.result, true)])
  }

  /** One atomic step; a label that is not enabled changes nothing. */
  function Next(s: State, l: Label): State {
    match l
    case Register(p) => s.(providers := s.providers + {p})
    case Unregister(p) => s.(providers := s.providers - {p})
    case Lookup(g, job, p) =>
      if At(s, g) then s
      else s.(dispatches := s.dispatches[g :=
                Dispatch(job, if p in s.providers then Connected else Returned(ProviderUnavailable))])
    case Insert(g) => if At(s, g) && s.dispatches[g].stage.Connected? then DoInsert(s, g) else s
    case WriteRequest(g, ok) =>
      if At(s, g) && s.dispatches[g].stage.Registered? then
        Move(s, g, if ok then Waiting(s.dispatches[g].stage.chan)
                   else Leaving(s.dispatches[g].stage.chan, WriteFailed))
      else s
    case Receive(g) => if CanReceive(s, g) then DoReceive(s, g) else s
    case Timeout(g) =>
      if At(s, g) && s.dispatches[g].stage.Waiting? then Move(s, g, Leaving(s.dispatches[g].stage.chan, TimedOut))
      else s
    case Delete(g) => if At(s, g) && s.dispatches[g].stage.Leaving? then DoDelete(s, g) else s
    case Complete(r) =>
      s.(completions := s.completions +
           [if r.job in s.jobs then Sending(r, s.jobs[r.job]) else Completed(r, false)])
    case Send(k) => if CanSend(s, k) then DoSend(s, k) else s
  }

  function Run(s: State, ls: seq<Label>): State {
    if ls == [] then s else Next(Run(s, ls[..|ls| - 1]), ls[|ls| - 1])
  }

  // ---- Safety ----

  /** Between the insert and the deferred delete. */
  predicate InFlight(d: Dispatch) {
    d.stage.Registered? || d.stage.Waiting? || d.stage.Leaving?
  }

  predicate HasEntry(ds: map<nat, Dispatch>, g: nat) {
    g in ds && InFlight(ds[g])
  }

  function ResultOf(d: Dispatch): Option<JobResult> {
    match d.stage
    case Leaving(_, Received(r)) => Some(r)
    case Returned(Received(r)) => Some(r)
    case _ => None
  }

  /** The job ids of all dispatches differ. */
  ghost predicate DistinctJobs(ds: map<nat, Dispatch>) {
    forall g, h :: g in ds && h in ds && ds[g].job == ds[h].job ==> g == h
  }

  /** The map holds exactly the dispatches between insert and delete, each with its own channel. */
  ghost predicate Keys(jobs: map<nat, nat>, owners: seq<nat>, ds: map<nat, Dispatch>) {
    && (forall g :: HasEntry(ds, g) ==>
          ds[g].job in jobs && jobs[ds[g].job] == ds[g].stage.chan < |owners| && owners[ds[g].stage.chan] == ds[g].job)
    && (forall j :: j in jobs ==> jobs[j] < |owners| && owners[jobs[j]] == j)
    && (forall j :: j in jobs ==> exists g :: HasEntry(ds, g) && ds[g].job == j)
  }

  /** Results travel only on the channel of their own job. */
  ghost predicate OwnSlots(owners: seq<nat>, slots: seq<Option<JobResult>>) {
    |owners| == |slots| && forall c :: 0 <= c < |slots| && slots[c].Some? ==> slots[c].value.job == owners[c]
  }

  ghost predicate OwnSends(owners: seq<nat>, cs: seq<Completion>) {
    forall k :: 0 <= k < |cs| && cs[k].Sending? ==> cs[k].chan < |owners| && owners[cs[k].chan] == cs[k].result.job
  }

  ghost predicate OwnResults(ds: map<nat, Dispatch>) {
    forall g :: g in ds && ResultOf(ds[g]).Some? ==> ResultOf(ds[g]).value.job == ds[g].job
  }

  /** A buffered or consumed result was sent by a completion that has returned. */
  ghost predicate Delivered(cs: seq<Completion>, r: JobResult) {
    Completed(r, true) in cs
  }

  ghost predicate OnlyDelivered(s: State) {
    && (forall c :: 0 <= c < |s.slots| && s.slots[c].Some? ==> Delivered(s.completions, s.slots[c].value))
    && (forall g :: g in s.dispatches && ResultOf(s.dispatches[g]).Some? ==>
          Delivered(s.completions, ResultOf(s.dispatches[g]).value))
  }

  ghost predicate Inv(s: State) {
    && Keys(s.jobs, s.owners, s.dispatches)
    && OwnSlots(s.owners, s.slots)
    && OwnSends(s.owners, s.completions)
    && OwnResults(s.dispatches)
    && OnlyDelivered(s)
  }

  /** A label that starts a dispatch must bring a job id no dispatch has had. */
  predicate FreshJob(s: State, l: Label) {
    l.Lookup? && !At(s, l.g) ==> forall g :: g in s.dispatches ==> s.dispatches[g].job != l.job
  }

  lemma LookupKeepsKeys(jobs: map<nat, nat>, owners: seq<nat>, ds: map<nat, Dispatch>, g: nat, d: Dispatch)
    requires Keys(jobs, owners, ds) && g !in ds && !InFlight(d)
    ensures Keys(jobs, owners, ds[g := d])
  {
    var n := ds[g := d];
    forall j | j in jobs
      ensures exists h :: HasEntry(n, h) && n[h].job == j
    {
      var h :| HasEntry(ds, h) && ds[h].job == j;
      assert HasEntry(n, h);
    }
  }

  /** A dispatch that keeps its channel keeps its key. */
  lemma MoveKeepsKeys(jobs: map<nat, nat>, owners: seq<nat>, ds: map<nat, Dispatch>, g: nat, d: Dispatch)
    requires Keys(jobs, owners, ds) && HasEntry(ds, g)
    requires InFlight(d) && d.job == ds[g].job && d.stage.chan == ds[g].stage.chan
    ensures Keys(jobs, owners, ds[g := d])
  {
    var n := ds[g := d];
    forall j | j in jobs
      ensures exists h :: HasEntry(n, h) && n[h].job == j
    {
      var h :| HasEntry(ds, h) && ds[h].job == j;
      assert HasEntry(n, h);
    }
    forall h | HasEntry(n, h)
      ensures var e := n[h];
              e.job in jobs && jobs[e.job] == e.stage.chan < |owners| && owners[e.stage.chan] == e.job
    {
      assert HasEntry(ds, h);
    }
  }

  lemma InsertKeepsKeys(s: State, g: nat)
    requires Inv(s) && DistinctJobs(s.dispatches) && At(s, g) && s.dispatches[g].stage.Connected?
    ensures var n := DoInsert(s, g); Keys(n.jobs, n.owners, n.dispatches)
  {
    var n := DoInsert(s, g);
    forall j | j in n.jobs
      ensures exists h :: HasEntry(n.dispatches, h) && n.dispatches[h].job == j
    {
      if j == s.dispatches[g].job {
        assert HasEntry(n.dispatches, g);
      } else {
        var h :| HasEntry(s.dispatches, h) && s.dispatches[h].job == j;
        assert HasEntry(n.dispatches, h);
      }
    }
    forall h | HasEntry(n.dispatches, h)
      ensures var e := n.dispatches[h];
              e.job in n.jobs && n.jobs[e.job] == e.stage.chan < |n.owners| && n.owners[e.stage.chan] == e.job
    {
      if h != g {
        assert HasEntry(s.dispatches, h);
      }
    }
  }

  lemma DeleteKeepsKeys(s: State, g: nat)
    requires Inv(s) && DistinctJobs(s.dispatches) && At(s, g) && s.dispatches[g].stage.Leaving?
    ensures var n := DoDelete(s, g); Keys(n.jobs, n.owners, n.dispatches)
  {
    var n := DoDelete(s, g);
    forall j | j in n.jobs
      ensures exists h :: HasEntry(n.dispatches, h) && n.dispatches[h].job == j
    {
      var h :| HasEntry(s.dispatches, h) && s.dispatches[h].job == j;
      assert HasEntry(n.dispatches, h);
    }
    forall h | HasEntry(n.dispatches, h)
      ensures var e := n.dispatches[h];
              e.job in n.jobs && n.jobs[e.job] == e.stage.chan < |n.owners| && n.owners[e.stage.chan] == e.job
    {
      assert HasEntry(s.dispatches, h) && h != g;
    }
  }

  lemma NextKeepsKeys(s: State, l: Label)
    requires Inv(s) && DistinctJobs(s.dispatches)
    ensures var n := Next(s, l); Keys(n.jobs, n.owners, n.dispatches)
  {
    hide Keys, OwnSlots, OwnSends, OwnResults, OnlyDelivered, DistinctJobs;
    var n := Next(s, l);
    if n.jobs == s.jobs && n.owners == s.owners && n.dispatches == s.dispatches {
    } else if l.Lookup? {
      LookupKeepsKeys(s.jobs, s.owners, s.dispatches, l.g, n.dispatches[l.g]);
    } else if l.Insert? {
      InsertKeepsKeys(s, l.g);
    } else if l.Delete? {
      DeleteKeepsKeys(s, l.g);
    } else {
      MoveKeepsKeys(s.jobs, s.owners, s.dispatches, l.g, n.dispatches[l.g]);
    }
  }

  lemma NextKeepsDistinct(s: State, l: Label)
    requires DistinctJobs(s.dispatches) && FreshJob(s, l)
    ensures DistinctJobs(Next(s, l).dispatches)
  {
  }

  lemma NextKeepsSlots(s: State, l: Label)
    requires Inv(s)
    ensures OwnSlots(Next(s, l).owners, Next(s, l).slots)
    ensures OwnSends(Next(s, l).owners, Next(s, l).completions)
  {
  }

  lemma NextKeepsResults(s: State, l: Label)
    requires Inv(s)
    ensures OwnResults(Next(s, l).dispatches)
  {
    if l.Receive? && CanReceive(s, l.g) {
      assert HasEntry(s.dispatches, l.g);
    }
  }

  lemma DeliveredStays(s: State, l: Label, r: JobResult)
    requires Delivered(s.completions, r)
    ensures Delivered(Next(s, l).completions, r)
  {
    var k :| 0 <= k < |s.completions| && s.completions[k] == Completed(r, true);
    assert Next(s, l).completions[k] == s.completions[k];
  }

  lemma NextKeepsDelivered(s: State, l: Label)
    requires OnlyDelivered(s)
    ensures OnlyDelivered(Next(s, l))
  {
    var n := Next(s, l);
    forall r | Delivered(s.completions, r)
      ensures Delivered(n.completions, r)
    {
      DeliveredStays(s, l, r);
    }
    if l.Send? && CanSend(s, l.k) {
      assert n.completions[l.k] == Completed(s.completions[l.k].result, true);
    }
  }

  lemma NextKeepsInv(s: State, l: Label)
    requires Inv(s) && DistinctJobs(s.dispatches) && FreshJob(s, l)
    ensures Inv(Next(s, l)) && DistinctJobs(Next(s, l).dispatches)
  {
    NextKeepsKeys(s, l);
    NextKeepsDistinct(s, l);
    NextKeepsSlots(s, l);
    NextKeepsResults(s, l);
    NextKeepsDelivered(s, l);
  }

  /** Every job id in a run is dispatched at most once. */
  ghost predicate FreshRun(s: State, ls: seq<Label>) {
    ls == [] || (FreshRun(s, ls[..|ls| - 1]) && FreshJob(Run(s, ls[..|ls| - 1]), ls[|ls| - 1]))
  }

  lemma EmptyIsSafe()
    ensures Inv(EMPTY) && DistinctJobs(EMPTY.dispatches)
  {
  }

  /** Hub safety over all interleavings: the map holds exactly the dispatches between insert and
      delete with their own channels, and a dispatch only ever returns a result that carries its own
      job id and that some completion delivered. */
  lemma {:induction false} RunsAreSafe(ls: seq<Label>)
    requires FreshRun(EMPTY, ls)
    ensures Inv(Run(EMPTY, ls)) && DistinctJobs(Run(EMPTY, ls).dispatches)
  {
    if ls == [] {
      EmptyIsSafe();
    } else {
      RunsAreSafe(ls[..|ls| - 1]);
      NextKeepsInv(Run(EMPTY, ls[..|ls| - 1]), ls[|ls| - 1]);
    }
  }

  /** What a dispatch returned never changes, whatever arrives later. */
  lemma {:induction false} OutcomeIsFinal(s: State, ls: seq<Label>, g: nat)
    requires g in s.dispatches && s.dispatches[g].stage.Returned?
    ensures g in Run(s, ls).dispatches && Run(s, ls).dispatches[g] == s.dispatches[g]
  {
    if ls != [] {
      OutcomeIsFinal(s, ls[..|ls| - 1], g);
    }
  }

  // ---- Connections ----

  /** The last that was said of provider p was a registration. */
  ghost predicate IsConnected(ls: seq<Label>, p: nat) {
    exists k :: 0 <= k < |ls| && ls[k] == Register(p) && forall m :: k < m < |ls| ==> ls[m] != Unregister(p)
  }

  lemma SaidLast(ls: seq<Label>, l: Label, p: nat)
    ensures IsConnected(ls + [l], p) <==> l == Register(p) || (l != Unregister(p) && IsConnected(ls, p))
  {
    var all := ls + [l];
    assert all[|ls|] == l;
    if l != Unregister(p) && IsConnected(ls, p) {
      var k :| 0 <= k < |ls| && ls[k] == Register(p) && forall m :: k < m < |ls| ==> ls[m] != Unregister(p);
      assert all[k] == Register(p);
    }
    if l != Register(p) && IsConnected(all, p) {
      var k :| 0 <= k < |all| && all[k] == Register(p) && forall m :: k < m < |all| ==> all[m] != Unregister(p);
      assert ls[k] == Register(p) && forall m :: k < m < |ls| ==> ls[m] == all[m];
    }
  }

  /** In every run a provider is connected exactly when it registered and has not unregistered since, whatever
      other providers did. */
  lemma {:induction false} ConnectedIffRegistered(ls: seq<Label>, p: nat)
    ensures p in Run(EMPTY, ls).providers <==> IsConnected(ls, p)
  {
    if ls != [] {
      var init, l := ls[..|ls| - 1], ls[|ls| - 1];
      assert ls == init + [l];
      ConnectedIffRegistered(init, p);
      SaidLast(init, l, p);
      ProvidersMove(Run(EMPTY, init), l, p);
      hide Next, IsConnected;
    }
  }

  lemma ProvidersMove(s: State, l: Label, p: nat)
    ensures p in Next(s, l).providers <==> l == Register(p) || (l != Unregister(p) && p in s.providers)
  {
  }

  /** The dispatch waits for its delete with another outcome. */
  predicate LeavesOtherwise(d: Dispatch) {
    d.stage.Leaving? ==> d.stage.pending != ProviderUnavailable
  }

  lemma UnavailableStays(s: State, l: Label, g: nat)
    requires g in s.dispatches && LeavesOtherwise(s.dispatches[g])
    ensures var n := Next(s, l);
            && g in n.dispatches && n.dispatches[g].job == s.dispatches[g].job && LeavesOtherwise(n.dispatches[g])
            && (n.dispatches[g].stage == Returned(ProviderUnavailable) <==>
                  s.dispatches[g].stage == Returned(ProviderUnavailable))
  {
  }

  lemma {:induction false} UnavailableStaysInRuns(s: State, ls: seq<Label>, g: nat)
    requires g in s.dispatches && LeavesOtherwise(s.dispatches[g])
    ensures var n := Run(s, ls);
            && g in n.dispatches && n.dispatches[g].job == s.dispatches[g].job && LeavesOtherwise(n.dispatches[g])
            && (n.dispatches[g].stage == Returned(ProviderUnavailable) <==>
                  s.dispatches[g].stage == Returned(ProviderUnavailable))
  {
    if ls != [] {
      hide Next;
      UnavailableStaysInRuns(s, ls[..|ls| - 1], g);
      UnavailableStays(Run(s, ls[..|ls| - 1]), ls[|ls| - 1], g);
    }
  }

  /** A dispatch that starts while its provider is connected never reports it unavailable, and any other
      reports just that. */
  lemma UnavailableIffNotConnected(ls: seq<Label>, g: nat, job: nat, p: nat, more: seq<Label>)
    requires g !in Run(EMPTY, ls).dispatches
    ensures var n := Run(Next(Run(EMPTY, ls), Lookup(g, job, p)), more);
            && g in n.dispatches && n.dispatches[g].job == job
            && (n.dispatches[g].stage == Returned(ProviderUnavailable) <==> !IsConnected(ls, p))
  {
    ConnectedIffRegistered(ls, p);
    var s := Next(Run(EMPTY, ls), Lookup(g, job, p));
    hide Run, IsConnected;
    UnavailableStaysInRuns(s, more, g);
  }

  // ---- When Complete waits ----

  /** Complete waits only behind an earlier result for the same job that was sent and not consumed: if
      no job id is completed twice it never waits. */
  lemma WaitsOnlyBehindDuplicate(ls: seq<Label>, k: nat)
    requires FreshRun(EMPTY, ls)
    requires k < |Run(EMPTY, ls).completions| && Run(EMPTY, ls).completions[k].Sending?
    ensures var cs := Run(EMPTY, ls).completions;
            || CanSend(Run(EMPTY, ls), k)
            || exists m :: 0 <= m < |cs| && m != k && cs[m].result.job == cs[k].result.job &&
                           cs[m] == Completed(cs[m].result, true)
  {
    RunsAreSafe(ls);
    var s := Run(EMPTY, ls);
    var cs := s.completions;
    var slot := s.slots[cs[k].chan];
    if slot.Some? {
      assert Delivered(cs, slot.value);
      var m :| 0 <= m < |cs| && cs[m] == Completed(slot.value, true);
      assert m != k && cs[m].result.job == cs[k].result.job;
    }
  }

  /** A completion that waits on a full channel which no dispatch can drain any more. */
  ghost predicate Stuck(s: State, k: nat) {
    && k < |s.completions| && s.completions[k].Sending?
    && s.completions[k].chan < |s.slots| && s.slots[s.completions[k].chan].Some?
    && forall g :: g in s.dispatches ==>
         !((s.dispatches[g].stage.Registered? || s.dispatches[g].stage.Waiting?)
           && s.dispatches[g].stage.chan == s.completions[k].chan)
  }

  lemma NextKeepsStuck(s: State, l: Label, k: nat)
    requires Stuck(s, k)
    ensures Stuck(Next(s, l), k) && Next(s, l).completions[k] == s.completions[k]
  {
    match l
    case Receive(g) => if CanReceive(s, g) { assert g in s.dispatches; }
    case Send(m) => if CanSend(s, m) { assert m != k; }
    case Insert(_) =>
    case Register(_) =>
    case Unregister(_) =>
    case Lookup(_, _, _) =>
    case WriteRequest(_, _) =>
    case Timeout(_) =>
    case Delete(_) =>
    case Complete(_) =>
  }

  /** Such a completion waits for ever: no continuation lets it return. */
  lemma {:induction false} StuckForEver(s: State, ls: seq<Label>, k: nat)
    requires Stuck(s, k)
    ensures Stuck(Run(s, ls), k) && Run(s, ls).completions[k] == s.completions[k]
  {
    if ls != [] {
      StuckForEver(s, ls[..|ls| - 1], k);
      NextKeepsStuck(Run(s, ls[..|ls| - 1]), ls[|ls| - 1], k);
    }
  }

  /** Complete returns within the continuation. */
  predicate Returns(s: State, ls: seq<Label>, k: nat) {
    k < |Run(s, ls).completions| && Run(s, ls).completions[k].Completed?
  }

  lemma RunTwo(s: State, a: Label, b: Label)
    ensures Run(s, [a]) == Next(s, a) && Run(s, [a, b]) == Next(Next(s, a), b)
  {
    hide Next;
    assert [a][..0] == [] && [a, b][..1] == [a];
  }

  /** A dispatch g that is still before its receive drains the channel, */
  lemma Drains(s: State, g: nat, k: nat) returns (ls: seq<Label>)
    requires k < |s.completions| && s.completions[k].Sending? && s.completions[k].chan < |s.slots|
    requires s.slots[s.completions[k].chan].Some?
    requires At(s, g) && (s.dispatches[g].stage.Registered? || s.dispatches[g].stage.Waiting?)
    requires s.dispatches[g].stage.chan == s.completions[k].chan
    ensures CanSend(Run(s, ls), k)
  {
    if s.dispatches[g].stage.Waiting? {
      ls := [Receive(g)];
      RunTwo(s, Receive(g), Send(k));
    } else {
      ls := [WriteRequest(g, true), Receive(g)];
      RunTwo(s, WriteRequest(g, true), Receive(g));
    }
  }

  /** and the send follows. */
  lemma SendReturns(s: State, ls: seq<Label>, k: nat)
    requires CanSend(Run(s, ls), k)
    ensures Returns(s, ls + [Send(k)], k)
  {
    assert (ls + [Send(k)])[..|ls|] == ls;
  }

  /** A waiting completion can never return if and only if it is stuck. */
  lemma NeverReturnsIffStuck(s: State, k: nat)
    requires k < |s.completions| && s.completions[k].Sending? && s.completions[k].chan < |s.slots|
    ensures Stuck(s, k) <==> forall ls :: !Returns(s, ls, k)
  {
    if Stuck(s, k) {
      hide Stuck, Run;
      forall ls
        ensures !Returns(s, ls, k)
      {
        StuckForEver(s, ls, k);
      }
    } else if s.slots[s.completions[k].chan].None? {
      SendReturns(s, [], k);
    } else {
      var g :| At(s, g) && (s.dispatches[g].stage.Registered? || s.dispatches[g].stage.Waiting?)
               && s.dispatches[g].stage.chan == s.completions[k].chan;
      var ls := Drains(s, g, k);
      SendReturns(s, ls, k);
    }
  }

  /** Two results for one job around its timeout reach that state: the second Complete, and the
      provider's read loop that called it, never return. */
  lemma TwoResultsCanStick(a: JobResult, b: JobResult) returns (ls: seq<Label>)
    requires a.job == b.job
    ensures FreshRun(EMPTY, ls)
    ensures Stuck(Run(EMPTY, ls), 1) && Run(EMPTY, ls).completions[1] == Sending(b, 0)
  {
    hide FreshRun, Run, Stuck, Next;
    var ls0, s0 := OneWaiting(a.job);
    var s1, s2, s3, s4 := Sticking(s0, a, b);
    var ls1, t1 := Extend(ls0, s0, Complete(a));
    var ls2, t2 := Extend(ls1, s1, Complete(b));
    var ls3, t3 := Extend(ls2, s2, Send(0));
    var ls4, t4 := Extend(ls3, s3, Timeout(0));
    FullAndLeft(s4, a, b);
    ls := ls4;
  }

  /** Both results find the channel, the first one fills it, and the dispatch times out. */
  lemma Sticking(s0: State, a: JobResult, b: JobResult) returns (s1: State, s2: State, s3: State, s4: State)
    requires a.job == b.job
    requires s0 == State({0}, map[a.job := 0], [a.job], [None], map[0 := Dispatch(a.job, Waiting(0))], [])
    ensures s1 == Next(s0, Complete(a)) && s2 == Next(s1, Complete(b))
    ensures s3 == Next(s2, Send(0)) && s4 == Next(s3, Timeout(0))
    ensures s4.completions == [Completed(a, true), Sending(b, 0)] && s4.slots == [Some(a)]
    ensures s4.dispatches == map[0 := Dispatch(a.job, Leaving(0, TimedOut))]
  {
    s1 := s0.(completions := [Sending(a, 0)]);
    s2 := s1.(completions := [Sending(a, 0), Sending(b, 0)]);
    s3 := s2.(completions := [Completed(a, true), Sending(b, 0)], slots := [Some(a)]);
    s4 := s3.(dispatches := map[0 := Dispatch(a.job, Leaving(0, TimedOut))]);
  }

  lemma FullAndLeft(s: State, a: JobResult, b: JobResult)
    requires |s.completions| == 2 && s.completions[1] == Sending(b, 0) && s.slots == [Some(a)]
    requires s.dispatches == map[0 := Dispatch(a.job, Leaving(0, TimedOut))]
    ensures Stuck(s, 1)
  {
  }

  lemma OneWaiting(job: nat) returns (ls: seq<Label>, s: State)
    ensures FreshRun(EMPTY, ls) && s == Run(EMPTY, ls)
    ensures s == State({0}, map[job := 0], [job], [None], map[0 := Dispatch(job, Waiting(0))], [])
  {
    var ls1, s1 := Extend([], EMPTY, Register(0));
    var ls2, s2 := Extend(ls1, s1, Lookup(0, job, 0));
    assert s2.dispatches == map[0 := Dispatch(job, Connected)];
    var ls3, s3 := Extend(ls2, s2, Insert(0));
    assert s3 == State({0}, map[job := 0], [job], [None], map[0 := Dispatch(job, Registered(0))], []);
    ls, s := Extend(ls3, s3, WriteRequest(0, true));
  }

  lemma Extend(ls: seq<Label>, s: State, l: Label) returns (ls': seq<Label>, s': State)
    requires FreshRun(EMPTY, ls) && s == Run(EMPTY, ls) && FreshJob(s, l)
    ensures ls' == ls + [l] && s' == Next(s, l)
    ensures FreshRun(EMPTY, ls') && s' == Run(EMPTY, ls')
  {
    ls', s' := ls + [l], Next(s, l);
    assert ls'[..|ls|] == ls;
  }
}
