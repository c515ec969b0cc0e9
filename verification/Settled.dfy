/** Requests do get settled: from every waiting request, and from nothing. */
module Settled {
  import opened Credits
  import opened Settlement
  import opened Text
  import opened Billing
  import opened Metering
  import opened Pricing
  import opened Protocol
  import G = Guarantees
  import H = Hub

  /** Request i waits on its empty channel c. */
  ghost predicate Waits(s: State, i: nat, c: nat) {
    && In(s, i, Dispatching)
    && i in s.hub.dispatches && s.hub.dispatches[i] == H.Dispatch(s.jobs[i].id, H.Waiting(c))
    && c < |s.hub.slots| && s.hub.slots[c] == None
  }

  /** A result for it that can be paid and recorded. */
  predicate Payable(s: State, i: nat, r: H.JobResult)
    requires i < |s.jobs| && IsInt64(s.jobs[i].quote)
  {
    var j := s.jobs[i];
    var b := Charge(j.terms, j.quote, r);
    && r.job == j.id && r.errorCode == ""
    && j.wallet < |s.db.accounts| && b.cost >= 0 && b.reward >= 0 && FitsUsage(b.measured)
    && s.db.accounts[j.wallet].balance + j.quote <= MAX_INT64
    && s.db.accounts[j.wallet].balance + j.quote - b.cost + b.reward <= MAX_INT64
  }

  /** The result arrives, is consumed, and settled. */
  function SettlingSteps(s: State, i: nat, r: H.JobResult): seq<Label>
    requires i < |s.jobs|
  {
    [HubStep(H.Complete(r)), HubStep(H.Send(|s.hub.completions|)), HubStep(H.Receive(i)), HubStep(H.Delete(i)),
     EndDispatch(i), Finalize(i, s.jobs[i].wallet, true)]
  }

  /** Complete, Send, Receive and Delete. */
  lemma HubReturns(h0: H.State, i: nat, c: nat, r: H.JobResult) returns (h: H.State)
    requires i in h0.dispatches && h0.dispatches[i] == H.Dispatch(r.job, H.Waiting(c))
    requires r.job in h0.jobs && h0.jobs[r.job] == c && c < |h0.slots| && h0.slots[c] == None
    ensures var k := |h0.completions|;
            h == H.Next(H.Next(H.Next(H.Next(h0, H.Complete(r)), H.Send(k)), H.Receive(i)), H.Delete(i))
    ensures i in h.dispatches && h.dispatches[i] == H.Dispatch(r.job, H.Returned(H.Received(r)))
  {
    var k := |h0.completions|;
    var h1 := H.Next(h0, H.Complete(r));
    assert h1.completions[k] == H.Sending(r, c);
    var h2 := H.Next(h1, H.Send(k));
    assert h2.slots[c] == Some(r);
    var h3 := H.Next(h2, H.Receive(i));
    assert h3.dispatches[i] == H.Dispatch(r.job, H.Leaving(c, H.Received(r)));
    h := H.Next(h3, H.Delete(i));
  }

  lemma ResultReturns(s: State, i: nat, c: nat, r: H.JobResult) returns (h: H.State)
    requires Inv(s) && Waits(s, i, c) && r.job == s.jobs[i].id
    ensures var k := |s.hub.completions|;
            h == H.Next(H.Next(H.Next(H.Next(s.hub, H.Complete(r)), H.Send(k)), H.Receive(i)), H.Delete(i))
    ensures i in h.dispatches && h.dispatches[i] == H.Dispatch(r.job, H.Returned(H.Received(r)))
  {
    hide Books, Requests, IdsMatch, H.Next;
    assert H.HasEntry(s.hub.dispatches, i);
    h := HubReturns(s.hub, i, c, r);
  }

  /** A request that waits is settled by any result for it that can be paid and recorded: after six steps
      it is finished, its job row says succeeded, and its usage record carries the bill. */
  lemma WaitingRequestIsSettled(s: State, i: nat, c: nat, r: H.JobResult)
    requires Inv(s) && Waits(s, i, c) && IsInt64(s.jobs[i].quote) && Payable(s, i, r)
    ensures var n := Run(s, SettlingSteps(s, i, r)); var b := Charge(s.jobs[i].terms, s.jobs[i].quote, r);
            && i < |n.jobs| && n.jobs[i].phase == Done && n.jobs[i].settled == 1 && n.jobs[i].released == 0
            && n.db.usage == s.db.usage + [Usage(i, b.cost, b.reward, b.measured)]
            && i < |n.db.status| && n.db.status[i] == Succeeded
  {
    var h := ResultReturns(s, i, c, r);
    var k := |s.hub.completions|;
    var s4 := s.(hub := h);
    Run6(s, HubStep(H.Complete(r)), HubStep(H.Send(k)), HubStep(H.Receive(i)), HubStep(H.Delete(i)),
         EndDispatch(i), Finalize(i, s.jobs[i].wallet, true));
    FourHubSteps(s, H.Complete(r), H.Send(k), H.Receive(i), H.Delete(i), h);
    JobFacts(s, i);
    G.JobHolds(s, i);
    hide Run, H.Next, Inv;
    SettlesHere(s, s4, i, r);
  }

  lemma FourHubSteps(s: State, a: H.Label, b: H.Label, c: H.Label, d: H.Label, h: H.State)
    requires !a.Lookup? && !b.Lookup? && !c.Lookup? && !d.Lookup?
    requires h == H.Next(H.Next(H.Next(H.Next(s.hub, a), b), c), d)
    ensures Next(Next(Next(Next(s, HubStep(a)), HubStep(b)), HubStep(c)), HubStep(d)) == s.(hub := h)
  {
    hide H.Next;
  }

  /** The returned dispatch leads to the settlement, */
  lemma EndsInSettling(s: State, s4: State, i: nat, r: H.JobResult)
    requires s4 == s.(hub := s4.hub) && In(s, i, Dispatching) && IsInt64(s.jobs[i].quote) && r.errorCode == ""
    requires i in s4.hub.dispatches && s4.hub.dispatches[i] == H.Dispatch(r.job, H.Returned(H.Received(r)))
    ensures Next(s4, EndDispatch(i)) ==
            SetJob(s4, i, s.jobs[i].(phase := Settling(Charge(s.jobs[i].terms, s.jobs[i].quote, r))))
  {
    hide Charge;
  }

  /** which is accepted. */
  lemma SettlesHere(s: State, s4: State, i: nat, r: H.JobResult)
    requires Inv(s) && s4 == s.(hub := s4.hub) && In(s, i, Dispatching)
    requires IsInt64(s.jobs[i].quote) && Payable(s, i, r)
    requires i in s4.hub.dispatches && s4.hub.dispatches[i] == H.Dispatch(r.job, H.Returned(H.Received(r)))
    ensures var n := Next(Next(s4, EndDispatch(i)), Finalize(i, s.jobs[i].wallet, true));
            var b := Charge(s.jobs[i].terms, s.jobs[i].quote, r);
            && i < |n.jobs| && n.jobs[i].phase == Done && n.jobs[i].settled == 1 && n.jobs[i].released == 0
            && n.db.usage == s.db.usage + [Usage(i, b.cost, b.reward, b.measured)]
            && i < |n.db.status| && n.db.status[i] == Succeeded
  {
    EndsInSettling(s, s4, i, r);
    var j := s.jobs[i];
    var u := SettlementOf(j.(phase := Settling(Charge(j.terms, j.quote, r))), i, j.wallet);
    JobFacts(s, i);
    G.JobHolds(s, i);
    G.NoUsageYet(s, i);
    WalletsInRange(s);
    hide Inv, Charge, FitsUsage, FinalizeAccounts, AllInRange;
    FinalizeAccepts(s.db, u);
    FinalizeIsDone(Next(s4, EndDispatch(i)), i, j.wallet);
  }

  lemma FinalizeIsDone(s: State, i: nat, w: nat)
    requires i < |s.jobs| && s.jobs[i].phase.Settling? && i < |s.db.status|
    requires FinalizeUsage(s.db, SettlementOf(s.jobs[i], i, w)).Ok?
    ensures var n := Next(s, Finalize(i, w, true)); var b := s.jobs[i].phase.bill;
            && n.jobs == s.jobs[i := s.jobs[i].(phase := Done, settled := s.jobs[i].settled + 1)]
            && n.db.usage == s.db.usage + [Usage(i, b.cost, b.reward, b.measured)]
            && i < |n.db.status| && n.db.status[i] == Succeeded
  {
    hide FinalizeAccounts, FitsUsage, UsageAllowed;
  }

  lemma WalletsInRange(s: State)
    requires Inv(s)
    ensures AllInRange(s.db.accounts)
  {
    SoundInRange(s.db.accounts);
  }

  lemma RunMore(s: State, ls: seq<Label>, l: Label)
    ensures Run(s, ls + [l]) == Next(Run(s, ls), l)
  {
    assert (ls + [l])[..|ls|] == ls;
  }

  lemma Run6(s: State, a: Label, b: Label, c: Label, d: Label, e: Label, f: Label)
    ensures Run(s, [a, b, c, d, e, f]) == Next(Next(Next(Next(Next(Next(s, a), b), c), d), e), f)
  {
    hide Next;
    RunMore(s, [], a);
    RunMore(s, [a], b);
    RunMore(s, [a, b], c);
    RunMore(s, [a, b, c], d);
    RunMore(s, [a, b, c, d], e);
    RunMore(s, [a, b, c, d, e], f);
    assert [] + [a] == [a] && [a] + [b] == [a, b] && [a, b] + [c] == [a, b, c];
    assert [a, b, c] + [d] == [a, b, c, d] && [a, b, c, d] + [e] == [a, b, c, d, e];
    assert [a, b, c, d, e] + [f] == [a, b, c, d, e, f];
  }

  // ---- From nothing ----

  const TERMS := Terms(4, 1, 1000, 1000, 7000)

  lemma QuoteIsTwo()
    ensures Quote(TERMS) == 2
  {
    PriceIsExact(1, 1, 1000, 1000);
  }

  /** Four characters without reported usage count as one token, so the whole reservation is charged. */
  const RESULT := H.JobResult(0, "", 4, None, 0)

  lemma BillOfResult()
    ensures var b := Charge(TERMS, 2, RESULT); b.cost == 2 && 0 <= b.reward <= 2 && FitsUsage(b.measured)
  {
    PriceIsExact(1, 1, 1000, 1000);
    ChargeIsProper(TERMS, 2, RESULT);
    ChargeFits(TERMS, 2, RESULT);
  }

  /** A user with ten credits */
  lemma SignsUp(s: State)
    requires s == Next(INIT, SignUp("a@b", 10, true))
    ensures |s.db.accounts| == 1 && s.db.accounts[0].balance == 10 && s.db.accounts[0].reserved == 0
    ensures s.db.ids == [] && s.db.status == [] && s.db.usage == [] && s.jobs == [] && s.hub == H.EMPTY
  {
    hide Wrap64;
    AddLedgerAccepts(NEW_ACCOUNT, Op(Grant, 10, 0));
  }

  /** asks for one token, */
  lemma Asks(s: State, n: State)
    requires s.db.ids == [] && s.db.status == [] && s.jobs == [] && n == Next(s, Create(0, 0, TERMS))
    ensures n.jobs == [Job(0, 0, TERMS, 2, Created, 0, 0, 0, 0)] && n.hub == s.hub
    ensures n.db.accounts == s.db.accounts && n.db.usage == s.db.usage
  {
    QuoteIsTwo();
    hide Quote;
  }

  lemma GetsReservation(s: State, n: State)
    requires s.jobs == [Job(0, 0, TERMS, 2, Created, 0, 0, 0, 0)] && n == Next(s, ReserveCredits(0, true))
    requires |s.db.accounts| == 1 && s.db.accounts[0].balance == 10 && s.db.accounts[0].reserved == 0
    ensures n.jobs == [Job(0, 0, TERMS, 2, Reserved, 1, 0, 0, 0)] && n.hub == s.hub
    ensures |n.db.accounts| == 1 && n.db.accounts[0].balance == 8 && n.db.usage == s.db.usage
  {
    hide Wrap64;
    AddLedgerAccepts(s.db.accounts[0], Op(Reserve, -2, 2));
  }

  /** and a connected provider gets the request. */
  lemma GetsRequest(h: H.State)
    requires h == H.Next(H.Next(H.Next(H.Next(H.EMPTY, H.Register(0)), H.Lookup(0, 0, 0)), H.Insert(0)),
                         H.WriteRequest(0, true))
    ensures h.dispatches == map[0 := H.Dispatch(0, H.Waiting(0))] && h.slots == [None]
  {
    var s1 := H.Next(H.EMPTY, H.Register(0));
    assert s1 == H.EMPTY.(providers := {0});
    var s2 := H.Next(s1, H.Lookup(0, 0, 0));
    assert s2 == s1.(dispatches := map[0 := H.Dispatch(0, H.Connected)]);
    var s3 := H.Next(s2, H.Insert(0));
    assert s3 == H.State({0}, map[0 := 0], [0], [None], map[0 := H.Dispatch(0, H.Registered(0))], []);
  }

  lemma Dispatches(s: State, n: State)
    requires s.jobs == [Job(0, 0, TERMS, 2, Reserved, 1, 0, 0, 0)] && s.hub == H.EMPTY
    requires n == Next(Next(Next(Next(Next(s, MarkDispatched(0, true)), HubStep(H.Register(0))),
                                 HubStep(H.Lookup(0, 0, 0))), HubStep(H.Insert(0))), HubStep(H.WriteRequest(0, true)))
    ensures n.jobs == [Job(0, 0, TERMS, 2, Dispatching, 1, 0, 0, 0)] && Waits(n, 0, 0)
    ensures n.db.accounts == s.db.accounts && n.db.usage == s.db.usage
  {
    var s1 := Next(s, MarkDispatched(0, true));
    var h2, h3 := H.Next(H.EMPTY, H.Register(0)), H.Next(H.Next(H.EMPTY, H.Register(0)), H.Lookup(0, 0, 0));
    var h4 := H.Next(h3, H.Insert(0));
    var h5 := H.Next(h4, H.WriteRequest(0, true));
    GetsRequest(h5);
    hide H.Next;
    assert Next(s1, HubStep(H.Register(0))) == s1.(hub := h2);
    assert Next(s1.(hub := h2), HubStep(H.Lookup(0, 0, 0))) == s1.(hub := h3);
    assert Next(s1.(hub := h3), HubStep(H.Insert(0))) == s1.(hub := h4);
    assert Next(s1.(hub := h4), HubStep(H.WriteRequest(0, true))) == s1.(hub := h5);
  }

  lemma OneWaits() returns (ls: seq<Label>)
    ensures var s := Run(INIT, ls);
            && s.jobs == [Job(0, 0, TERMS, 2, Dispatching, 1, 0, 0, 0)] && Waits(s, 0, 0)
            && |s.db.accounts| == 1 && s.db.accounts[0].balance == 8 && s.db.usage == []
  {
    hide Next, Waits;
    var a, b, c, d := SignUp("a@b", 10, true), Create(0, 0, TERMS), ReserveCredits(0, true), MarkDispatched(0, true);
    var e, f := HubStep(H.Register(0)), HubStep(H.Lookup(0, 0, 0));
    var g, h := HubStep(H.Insert(0)), HubStep(H.WriteRequest(0, true));
    SignsUp(Next(INIT, a));
    Asks(Next(INIT, a), Next(Next(INIT, a), b));
    var s := Next(Next(Next(INIT, a), b), c);
    GetsReservation(Next(Next(INIT, a), b), s);
    Dispatches(s, Next(Next(Next(Next(Next(s, d), e), f), g), h));
    Run6(INIT, a, b, c, d, e, f);
    RunMore(INIT, [a, b, c, d, e, f], g);
    RunMore(INIT, [a, b, c, d, e, f] + [g], h);
    ls := [a, b, c, d, e, f] + [g] + [h];
  }

  /** Some run settles a request: its usage record carries the whole reservation of two credits. */
  lemma SettlementIsReached() returns (ls: seq<Label>)
    ensures var s := Run(INIT, ls);
            && |s.jobs| > 0 && s.jobs[0].phase == Done && s.jobs[0].settled == 1
            && |s.db.usage| == 1 && s.db.usage[0].cost == 2 && |s.db.status| > 0 && s.db.status[0] == Succeeded
  {
    var opening := OneWaits();
    var s := Run(INIT, opening);
    Reachable(opening);
    BillOfResult();
    hide Run, Inv, Charge, Waits, FitsUsage;
    WaitingRequestIsSettled(s, 0, 0, RESULT);
    RunAppend(INIT, opening, SettlingSteps(s, 0, RESULT));
    ls := opening + SettlingSteps(s, 0, RESULT);
  }

  lemma {:induction false} RunAppend(s: State, a: seq<Label>, b: seq<Label>)
    ensures Run(s, a + b) == Run(Run(s, a), b)
  {
    if b == [] {
      assert a + b == a;
    } else {
      hide Next;
      RunAppend(s, a, b[..|b| - 1]);
      assert (a + b)[..|a + b| - 1] == a + b[..|b| - 1];
    }
  }
}
