/** One chat request run from start to end with nobody else in between: the statements of
    ChatCompletions in their order, on the tables of module WalletService. */
module Handler {
  import opened Credits
  import opened Settlement
  import opened Billing
  import opened Metering
  import opened Text
  import opened WalletService
  import A = Amounts
  import H = Hub

  datatype Message = Message(role: string, content: string)

  datatype Request = Request(stream: bool, model: string, messages: seq<Message>, maxTokens: int)

  datatype Model = Model(defaultMaxOutputTokens: int, inputPer1K: int, outputPer1K: int, ratio: int)

  datatype Response =
    | InvalidRequest
    | NotCreated(error: Error)
    | NotReserved(error: Error)
    | ProviderUnavailable
    | ProviderFailed
    | NotSettled(error: Error)
    | Completion

  predicate ValidMessage(m: Message) {
    m.content != "" && (m.role == "system" || m.role == "user" || m.role == "assistant")
  }

  predicate ValidRequest(r: Request) {
    && !r.stream && !Blank(r.model) && r.messages != []
    && forall k :: 0 <= k < |r.messages| ==> ValidMessage(r.messages[k])
  }

  /** Go's len counts bytes. */
  function TotalChars(ms: seq<Message>): nat {
    if ms == [] then 0 else TotalChars(ms[..|ms| - 1]) + ByteLength(ms[|ms| - 1].content)
  }

  function TermsOf(ms: seq<Message>, maxTokens: int, model: Model): Terms {
    Terms(TotalChars(ms), if maxTokens <= 0 then model.defaultMaxOutputTokens else maxTokens,
          model.inputPer1K, model.outputPer1K, model.ratio)
  }

  lemma {:induction false} TotalCharsAppend(a: seq<Message>, b: seq<Message>)
    ensures TotalChars(a + b) == TotalChars(a) + TotalChars(b)
  {
    if b == [] {
      assert a + b == a;
    } else {
      assert (a + b)[..|a + b| - 1] == a + b[..|b| - 1];
      TotalCharsAppend(a, b[..|b| - 1]);
    }
  }

  lemma OneMessage(m: Message)
    ensures TotalChars([m]) == ByteLength(m.content)
  {
    assert [m][..0] == [];
  }

  method CountChars(ms: seq<Message>) returns (chars: nat)
    ensures chars == TotalChars(ms)
  {
    chars := 0;
    for k := 0 to |ms|
      invariant chars == TotalChars(ms[..k])
    {
      chars := chars + ByteLength(ms[k].content);
      assert ms[..k + 1][..k] == ms[..k];
    }
    assert ms[..|ms|] == ms;
  }

  method CheckRequest(r: Request) returns (ok: bool)
    ensures ok <==> ValidRequest(r)
    ensures ok <==> && !r.stream && !All(r.model, IsSpace) && |r.messages| > 0
                    && forall k :: 0 <= k < |r.messages| ==>
                         r.messages[k].content != "" && r.messages[k].role in {"system", "user", "assistant"}
  {
    BlankIff(r.model);
    hide Blank, IsSpace, All;
    if r.stream {
      return false;
    }
    if Blank(r.model) || |r.messages| == 0 {
      return false;
    }
    for k := 0 to |r.messages|
      invariant forall n :: 0 <= n < k ==> ValidMessage(r.messages[n])
    {
      var m := r.messages[k];
      if m.content == "" || (m.role != "system" && m.role != "user" && m.role != "assistant") {
        return false;
      }
    }
    return true;
  }

  /** Spendable and reserved credits of every wallet are the same; ledgers may have grown. */
  ghost predicate SameCredits(before: seq<Account>, after: seq<Account>) {
    |after| == |before| && forall w :: 0 <= w < |after| ==>
      after[w].balance == before[w].balance && after[w].reserved == before[w].reserved
  }

  /** A bill that can be settled from a wallet with this balance before the request. */
  predicate Payable(b: Bill, balance: int) {
    0 <= b.cost && 0 <= b.reward && FitsUsage(b.measured) && balance - b.cost + b.reward <= MAX_INT64
  }

  function Estimated(t: Tables, id: nat, terms: Terms): Result<Tables> {
    CreateJob(t, id, EstimateTokensFromChars(terms.inputChars), terms.maxTokens)
  }

  /** What one request does to the tables of a reliable database, decided by its input, the wallet
      and how its dispatch ended: refused requests and failed dispatches leave every balance as it
      was, and a result costs the user's wallet exactly the bill. */
  ghost predicate Effect(before: Tables, after: Tables, id: nat, r: Request, terms: Terms, wallet: nat,
                         outcome: H.Outcome, response: Response)
  {
    if !ValidRequest(r) then
      response == InvalidRequest && after == before
    else if Estimated(before, id, terms).Err? then
      response == NotCreated(Estimated(before, id, terms).error) && after == before
    else
      CreatedEffect(before, after, id, terms, wallet, outcome, response)
  }

  /** The same from the created job row on. */
  ghost predicate CreatedEffect(before: Tables, after: Tables, id: nat, terms: Terms, wallet: nat,
                                outcome: H.Outcome, response: Response)
  {
    var quote := Quote(terms);
    if ReserveForUser(before, wallet, quote).Err? then
      && response == NotReserved(ReserveForUser(before, wallet, quote).error)
      && after == before.(status := before.status + [Failed], ids := before.ids + [id])
    else if !H.Usable(outcome) then
      && response == (if outcome.Received? then ProviderFailed else ProviderUnavailable)
      && SameCredits(before.accounts, after.accounts)
      && after.usage == before.usage && after.status == before.status + [Failed]
    else
      var bill := Charge(terms, quote, outcome.result);
      && (response == Completion <==> wallet < |before.accounts| && Payable(bill, before.accounts[wallet].balance))
      && SettleOutcome(before, after, wallet, bill, response)
  }

  /** Either the user's wallet paid the bill and the job row and its usage record say so, or every
      balance is as before the request. */
  ghost predicate SettleOutcome(before: Tables, after: Tables, wallet: nat, bill: Bill, response: Response) {
    if response == Completion then
      && |after.accounts| == |before.accounts|
      && (forall w :: 0 <= w < |after.accounts| ==>
            && after.accounts[w].balance ==
               before.accounts[w].balance - (if w == wallet then bill.cost - bill.reward else 0)
            && after.accounts[w].reserved == before.accounts[w].reserved)
      && after.usage == before.usage + [Usage(|before.status|, bill.cost, bill.reward, bill.measured)]
      && after.status == before.status + [Succeeded]
    else
      && response.NotSettled? && SameCredits(before.accounts, after.accounts)
      && after.usage == before.usage && after.status == before.status + [Dispatched]
  }

  /** Usage records reference existing job rows. */
  predicate References(t: Tables) {
    forall k :: 0 <= k < |t.usage| ==> t.usage[k].job < |t.status|
  }

  lemma ReserveEffect(t: Tables, wallet: nat, quote: int)
    requires AllInRange(t.accounts) && IsInt64(quote) && ReserveForUser(t, wallet, quote).Ok?
    ensures var r := ReserveForUser(t, wallet, quote).value;
            AllInRange(r.accounts) && Moved(t.accounts, r.accounts, wallet, -quote, quote) && 0 < quote
    ensures t.accounts[wallet].balance >= quote
  {
    PostEffect(t.accounts, Posting(wallet, Op(Reserve, -quote, quote)));
    AddLedgerAccepts(t.accounts[wallet], Op(Reserve, -quote, quote));
  }

  lemma ReleaseEffect(t: Tables, wallet: nat, quote: int)
    requires AllInRange(t.accounts) && IsInt64(quote)
    requires wallet < |t.accounts| && 0 < quote <= t.accounts[wallet].reserved
    requires t.accounts[wallet].balance + quote <= MAX_INT64
    ensures Release(t, wallet, quote).Ok?
    ensures Moved(t.accounts, Release(t, wallet, quote).value.accounts, wallet, quote, -quote)
  {
    ReleaseAccepts(t, wallet, quote);
    PostEffect(t.accounts, Posting(wallet, Op(ReleaseReserve, quote, -quote)));
  }

  /** A request is priced by a quarter of the bytes of its messages and by its token limit, which is its own if
      it names one and otherwise the model's. */
  function TokensOf(r: Request, model: Model): (int, int) {
    ((TotalChars(r.messages) + 3) / 4, if r.maxTokens > 0 then r.maxTokens else model.defaultMaxOutputTokens)
  }

  /** While the provider works, the wallet holds exactly this price in reserve. */
  ghost predicate HoldsPrice(before: Tables, during: Tables, wallet: nat, r: Request, model: Model) {
    var (prompt, limit) := TokensOf(r, model);
    A.ExactParts(prompt, limit, TermsOf(r.messages, r.maxTokens, model)) ==>
      var price := (prompt * model.inputPer1K + 999) / 1000 + (limit * model.outputPer1K + 999) / 1000;
      Moved(before.accounts, during.accounts, wallet, -price, price)
  }

  lemma QuoteHoldsPrice(before: Tables, during: Tables, wallet: nat, r: Request, model: Model)
    requires var quote := Quote(TermsOf(r.messages, r.maxTokens, model));
             Moved(before.accounts, during.accounts, wallet, -quote, quote)
    ensures HoldsPrice(before, during, wallet, r, model)
  {
    var (prompt, limit) := TokensOf(r, model);
    var t := TermsOf(r.messages, r.maxTokens, model);
    hide Quote, A.ExactParts, TotalChars;
    if A.ExactParts(prompt, limit, t) {
      A.QuoteIsPrice(t);
    }
  }

  /** A request is accepted into the job table exactly when its estimate and its limit fit their columns and its
      public id is new. */
  lemma EstimatedIff(t: Tables, id: nat, r: Request, model: Model)
    ensures var (prompt, limit) := TokensOf(r, model);
            Estimated(t, id, TermsOf(r.messages, r.maxTokens, model)).Ok? <==>
              id !in t.ids && prompt <= 0x7fff_ffff && -0x8000_0000 <= limit <= 0x7fff_ffff
  {
    hide TotalChars;
  }

  /** A completed request is recorded with exactly its tokens, and in the exact range costs their price, at
      most the price it reserved. */
  lemma CompletionPaysPrice(before: Tables, after: Tables, id: nat, r: Request, model: Model, wallet: nat,
                            outcome: H.Outcome)
    requires Effect(before, after, id, r, TermsOf(r.messages, r.maxTokens, model), wallet, outcome, Completion)
    ensures outcome.Received? && outcome.result.errorCode == "" && |after.usage| == |before.usage| + 1
    ensures var t, u := TermsOf(r.messages, r.maxTokens, model), after.usage[|before.usage|];
            var (prompt, completion) := A.Tokens(t, outcome.result);
            var (estimate, limit) := TokensOf(r, model);
            && u.measured == Measured(prompt, completion, outcome.result.latency)
            && (A.ExactParts(prompt, completion, t) && A.ExactParts(estimate, limit, t) ==>
                  var price := (prompt * t.inputPer1K + 999) / 1000 + (completion * t.outputPer1K + 999) / 1000;
                  var held := (estimate * t.inputPer1K + 999) / 1000 + (limit * t.outputPer1K + 999) / 1000;
                  u.cost == if price > held then held else price)
  {
    var t := TermsOf(r.messages, r.maxTokens, model);
    assert outcome.Received? && outcome.result.errorCode == "";
    A.ChargeMeasures(t, Quote(t), outcome.result);
    var (prompt, completion) := A.Tokens(t, outcome.result);
    var (estimate, limit) := TokensOf(r, model);
    assert after.usage == before.usage + [Usage(|before.status|, Charge(t, Quote(t), outcome.result).cost,
        Charge(t, Quote(t), outcome.result).reward, Charge(t, Quote(t), outcome.result).measured)];
    hide Effect, Quote, Charge, A.ExactParts, TotalChars, A.Tokens;
    if A.ExactParts(prompt, completion, t) && A.ExactParts(estimate, limit, t) {
      A.QuoteIsPrice(t);
      A.ChargeIsPrice(t, Quote(t), outcome.result);
    }
  }

  /** `during` are the tables while the provider works, if the request gets so far. */
  method ChatCompletions(store: Store, id: nat, r: Request, model: Model, wallet: nat, outcome: H.Outcome)
    returns (response: Response, ghost during: Option<Tables>)
    requires AllInRange(store.accounts) && References(store.Contents())
    modifies store
    ensures old(store.Reliable()) && during.Some? ==> HoldsPrice(old(store.Contents()), during.value, wallet, r, model)
    ensures during.None? <==> response.InvalidRequest? || response.NotCreated? || response.NotReserved?
    ensures old(store.Reliable()) ==>
              Effect(old(store.Contents()), store.Contents(), id, r, TermsOf(r.messages, r.maxTokens, model), wallet,
                     outcome, response)
  {
    hide AllInRange, References, ValidRequest, EstimateTokensFromChars, CreatedEffect, HoldsPrice, Quote, TotalChars;
    ghost var t0 := store.Contents();
    during := None;
    var ok := CheckRequest(r);
    if !ok {
      return InvalidRequest, None;
    }
    var limit := r.maxTokens;
    if limit <= 0 {
      limit := model.defaultMaxOutputTokens;
    }
    var inputChars := CountChars(r.messages);
    var terms := Terms(inputChars, limit, model.inputPer1K, model.outputPer1K, model.ratio);
    var job, err := store.CreateJob(id, EstimateTokensFromChars(inputChars), limit);
    if err.Some? {
      return NotCreated(err.value), None;
    }
    response, during := Serve(store, job, id, terms, wallet, outcome, t0);
    if during.Some? && old(store.Reliable()) {
      QuoteHoldsPrice(t0, during.value, wallet, r, model);
    }
  }

  /** From the created job row on. */
  method Serve(store: Store, job: nat, id: nat, terms: Terms, wallet: nat, outcome: H.Outcome, ghost t0: Tables)
    returns (response: Response, ghost during: Option<Tables>)
    requires AllInRange(t0.accounts) && References(t0) && job == |t0.status|
    requires store.Contents() == t0.(status := t0.status + [Queued], ids := t0.ids + [id])
    modifies store
    ensures old(store.Reliable()) ==> CreatedEffect(t0, store.Contents(), id, terms, wallet, outcome, response)
    ensures old(store.Reliable()) && during.Some? ==>
              Moved(t0.accounts, during.value.accounts, wallet, -Quote(terms), Quote(terms))
    ensures !response.InvalidRequest? && !response.NotCreated? && (during.None? <==> response.NotReserved?)
  {
    hide Charge, Quote, Post, AllInRange, References, Payable, SettleOutcome;
    var quote := Quote(terms);
    during := None;
    var err := store.ReserveForUser(wallet, quote);
    if err.Some? {
      response := NotReserved(err.value);
      err := store.MarkJob(job, Failed);
      assert (t0.status + [Queued])[job := Failed] == t0.status + [Failed];
      return;
    }
    ReservedNow(t0, store.Contents(), id, wallet, quote);
    err := store.MarkJob(job, Dispatched);
    assert (t0.status + [Queued])[job := Dispatched] == t0.status + [Dispatched];
    during := Some(store.Contents());
    hide ReserveForUser;
    response := Conclude(store, job, terms, quote, wallet, outcome, t0);
  }

  /** From the end of the dispatch on. */
  method Conclude(store: Store, job: nat, terms: Terms, quote: int, wallet: nat, outcome: H.Outcome, ghost t0: Tables)
    returns (response: Response)
    requires Reserved(t0, store.Contents(), job, wallet, quote)
    requires store.status == t0.status + [Dispatched] || store.status == t0.status + [Queued]
    modifies store
    ensures response.ProviderFailed? || response.ProviderUnavailable? || response.NotSettled? || response == Completion
    ensures old(store.Reliable()) && old(store.status) == t0.status + [Dispatched] ==>
              if !H.Usable(outcome) then
                && response == (if outcome.Received? then ProviderFailed else ProviderUnavailable)
                && SameCredits(t0.accounts, store.accounts)
                && store.usage == t0.usage && store.status == t0.status + [Failed]
              else
                var bill := Charge(terms, quote, outcome.result);
                && (response == Completion <==> wallet < |t0.accounts| && Payable(bill, t0.accounts[wallet].balance))
                && SettleOutcome(t0, store.Contents(), wallet, bill, response)
  {
    hide Charge, Payable, SettleOutcome;
    if !outcome.Received? || outcome.result.errorCode != "" {
      response := if outcome.Received? then ProviderFailed else ProviderUnavailable;
      FailDispatch(store, job, wallet, quote, t0);
    } else {
      var bill := Charge(terms, quote, outcome.result);
      response := Settle(store, job, wallet, quote, bill, t0);
    }
  }

  /** Appending the job row does not change what a reservation does. */
  lemma ReservedNow(t0: Tables, t: Tables, id: nat, wallet: nat, quote: int)
    requires AllInRange(t0.accounts) && References(t0) && IsInt64(quote)
    requires ReserveForUser(t0.(status := t0.status + [Queued], ids := t0.ids + [id]), wallet, quote) == Ok(t)
    ensures Reserved(t0, t, |t0.status|, wallet, quote)
    ensures ReserveForUser(t0, wallet, quote).Ok?
  {
    ReserveEffect(t0.(status := t0.status + [Queued], ids := t0.ids + [id]), wallet, quote);
  }

  /** The credits the reservation moved, with the job row appended. */
  ghost predicate Reserved(before: Tables, t: Tables, job: nat, wallet: nat, quote: int) {
    && AllInRange(before.accounts) && AllInRange(t.accounts) && References(before)
    && Moved(before.accounts, t.accounts, wallet, -quote, quote) && 0 < quote && IsInt64(quote)
    && t.usage == before.usage
    && job == |before.status| && |t.status| == job + 1 && t.status[..job] == before.status
  }

  method FailDispatch(store: Store, job: nat, wallet: nat, quote: int, ghost t0: Tables)
    requires Reserved(t0, store.Contents(), job, wallet, quote)
    modifies store
    ensures old(store.Reliable()) ==>
              && SameCredits(t0.accounts, store.accounts)
              && store.usage == t0.usage && store.status == t0.status + [Failed]
  {
    ReleaseEffect(store.Contents(), wallet, quote);
    var err := store.Release(wallet, quote);
    ghost var status := store.status;
    err := store.MarkJob(job, Failed);
    assert status[..job] + [Failed] == status[job := Failed];
  }

  method Settle(store: Store, job: nat, wallet: nat, quote: int, bill: Bill, ghost t0: Tables)
    returns (response: Response)
    requires Reserved(t0, store.Contents(), job, wallet, quote)
    requires IsInt64(bill.cost) && IsInt64(bill.reward) && bill.cost <= quote
    requires store.status == t0.status + [Dispatched] || store.status == t0.status + [Queued]
    modifies store
    ensures response.NotSettled? || response == Completion
    ensures old(store.Reliable()) ==>
              (response == Completion <==> wallet < |t0.accounts| && Payable(bill, t0.accounts[wallet].balance))
    ensures old(store.Reliable()) && old(store.status) == t0.status + [Dispatched] ==>
              SettleOutcome(t0, store.Contents(), wallet, bill, response)
  {
    hide FinalizeAccounts, FitsUsage;
    ghost var t := store.Contents();
    var u := UsageSettlement(wallet, wallet, quote, bill.cost, bill.reward, job, bill.measured);
    SettleAccepts(t0, t, u, bill);
    SettleEffect(t0, t, u);
    ReleaseEffect(t, wallet, quote);
    var err := store.FinalizeUsage(u);
    if err.Some? {
      response := NotSettled(err.value);
      err := store.Release(wallet, quote);
      return;
    }
    response := Completion;
  }

  lemma SettleAccepts(t0: Tables, t: Tables, u: UsageSettlement, bill: Bill)
    requires Reserved(t0, t, u.job, u.wallet, u.reserved)
    requires u.rewardWallet == u.wallet && Int64Settlement(u) && u.cost <= u.reserved
    requires u.cost == bill.cost && u.reward == bill.reward && u.measured == bill.measured
    ensures u.wallet < |t0.accounts|
    ensures FinalizeUsage(t, u).Ok? <==> Payable(bill, t0.accounts[u.wallet].balance)
  {
    hide FinalizeAccounts, FitsUsage;
    assert UsageAllowed(t, u.job);
    if 0 <= u.cost && 0 <= u.reward {
      assert InRange(t0.accounts[u.wallet]);
      FinalizeAccepts(t, u);
    }
  }

  lemma SettleEffect(t0: Tables, t: Tables, u: UsageSettlement)
    requires Reserved(t0, t, u.job, u.wallet, u.reserved)
    requires u.rewardWallet == u.wallet && Int64Settlement(u) && u.cost <= u.reserved
    ensures FinalizeUsage(t, u).Ok? ==>
            var r := FinalizeUsage(t, u).value;
            && |r.accounts| == |t0.accounts|
            && (forall w :: 0 <= w < |r.accounts| ==>
                  && r.accounts[w].balance == t0.accounts[w].balance - (if w == u.wallet then u.cost - u.reward else 0)
                  && r.accounts[w].reserved == t0.accounts[w].reserved)
            && r.usage == t0.usage + [RecordOf(u)]
            && r.status == t0.status + [Succeeded]
  {
    if FinalizeUsage(t, u).Ok? {
      assert t.status[..u.job] + [Succeeded] == t.status[u.job := Succeeded];
      FinalizeEffect(t, u);
    }
  }
}
