/** Which providers a chat request may be sent to: instance status under hello, heartbeat, sweep and
    disable, and advertisements under moderation. Statements run one at a time. */
module Presence {
  import opened Credits
  import opened Text
  import H = Hub

  datatype Approval = Pending | Approved | Rejected

  datatype Provider = Provider(approval: Approval, disabled: bool)

  datatype InstanceStatus = Online | Offline | Busy | Draining

  datatype Instance = Instance(provider: nat, key: string, status: InstanceStatus, heartbeat: int)

  datatype Version = Version(model: nat, runtime: string, name: string, active: bool)

  datatype Match = Match(model: nat, version: nat)

  /** `matched` is the model version found when the row was inserted, if there was one. */
  datatype Ad = Ad(provider: nat, inst: nat, runtime: string, name: string, matched: Option<Match>,
                   digest: string, status: Approval)

  /** A provider connection; `inst` is the instance of its last hello. */
  datatype Session = Session(provider: nat, inst: Option<nat>)

  /** A row of provider_hardware_reports. */
  datatype Hardware = Hardware(inst: nat, report: string)

  /** Row ids are positions; `completed` are the results handed to the hub. `timeout` is the configured
      heartbeat timeout, `lastSweep` the tick of the last sweep that reached the database. */
  datatype State = State(
    timeout: nat, now: int, lastSweep: Option<int>, providers: seq<Provider>, instances: seq<Instance>,
    ads: seq<Ad>, versions: seq<Version>, sessions: seq<Session>, hardware: seq<Hardware>, completed: seq<H.JobResult>)

  function Start(timeout: nat, now: int): State {
    State(timeout, now, None, [], [], [], [], [], [], [])
  }

  datatype Label =
    | Pass(time: nat)
    | AddProvider(approval: Approval)
    | EditVersion(row: nat, version: Version)
    | Connect(provider: nat)
    | Hello(session: nat, key: string, ok: bool)
    | Heartbeat(session: nat, status: string)
    | Advertise(session: nat, runtime: string, name: string, digest: string, matched: Option<Match>)
    | Report(session: nat, report: string)
    | Complete(result: H.JobResult)
    | Sweep(tick: int)
    | Disable(provider: nat)
    | SetApproval(provider: nat, approval: Approval)
    | SetAdStatus(ad: nat, approval: Approval)

  /** What ProviderService.Heartbeat accepts. */
  function ParseStatus(status: string): Option<InstanceStatus> {
    if status == "online" then Some(Online)
    else if status == "busy" then Some(Busy)
    else if status == "draining" then Some(Draining)
    else None
  }

  /** ON CONFLICT (provider_id, instance_key). */
  function InstanceOf(instances: seq<Instance>, provider: nat, key: string): (k: nat)
    ensures k <= |instances|
    ensures k < |instances| ==> instances[k].provider == provider && instances[k].key == key
    ensures forall n :: 0 <= n < k ==> !(instances[n].provider == provider && instances[n].key == key)
  {
    if instances == [] then 0
    else
      var k := InstanceOf(instances[..|instances| - 1], provider, key);
      if k < |instances| - 1 || (instances[k].provider == provider && instances[k].key == key) then k
      else |instances|
  }

  /** A hello that fails leaves the session without an instance. */
  function DoHello(s: State, session: nat, key: string, ok: bool): State
    requires session < |s.sessions|
  {
    var provider := s.sessions[session].provider;
    if key == "" then s
    else if Blank(key) || !ok then s.(sessions := s.sessions[session := Session(provider, None)])
    else
      var k := InstanceOf(s.instances, provider, key);
      s.(sessions := s.sessions[session := Session(provider, Some(k))],
         instances := if k < |s.instances| then s.instances[k := s.instances[k].(status := Online, heartbeat := s.now)]
                      else s.instances + [Instance(provider, key, Online, s.now)])
  }

  /** Offline instances and recent ones stay as they are. */
  function Swept(i: Instance, cutoff: int): Instance {
    if i.status != Offline && i.heartbeat < cutoff then i.(status := Offline) else i
  }

  function SweepAll(instances: seq<Instance>, cutoff: int): (r: seq<Instance>)
    ensures |r| == |instances|
    ensures forall k :: 0 <= k < |r| ==> r[k] == Swept(instances[k], cutoff)
  {
    if instances == [] then []
    else SweepAll(instances[..|instances| - 1], cutoff) + [Swept(instances[|instances| - 1], cutoff)]
  }

  function Disconnected(i: Instance, provider: nat): Instance {
    if i.provider == provider then i.(status := Offline) else i
  }

  function DisconnectAll(instances: seq<Instance>, provider: nat): (r: seq<Instance>)
    ensures |r| == |instances|
    ensures forall k :: 0 <= k < |r| ==> r[k] == Disconnected(instances[k], provider)
  {
    if instances == [] then []
    else DisconnectAll(instances[..|instances| - 1], provider) + [Disconnected(instances[|instances| - 1], provider)]
  }

  predicate SameAd(a: Ad, provider: nat, inst: nat, runtime: string, name: string) {
    a.provider == provider && a.inst == inst && a.runtime == runtime && a.name == name
  }

  predicate HasAd(ads: seq<Ad>, provider: nat, inst: nat, runtime: string, name: string) {
    exists k :: 0 <= k < |ads| && SameAd(ads[k], provider, inst, runtime, name)
  }

  function Seen(a: Ad, provider: nat, inst: nat, runtime: string, name: string, digest: string): Ad {
    if SameAd(a, provider, inst, runtime, name) then a.(digest := digest) else a
  }

  /** The UPDATE touches the digest of every matching row and nothing else. */
  function Redigest(ads: seq<Ad>, provider: nat, inst: nat, runtime: string, name: string, digest: string): (r: seq<Ad>)
    ensures |r| == |ads|
    ensures forall k :: 0 <= k < |r| ==> r[k] == Seen(ads[k], provider, inst, runtime, name, digest)
  {
    if ads == [] then []
    else
      Redigest(ads[..|ads| - 1], provider, inst, runtime, name, digest) +
      [Seen(ads[|ads| - 1], provider, inst, runtime, name, digest)]
  }

  /** An active model version served under this name, or none if there is none. */
  predicate Matches(versions: seq<Version>, runtime: string, name: string, m: Option<Match>) {
    match m
    case Some(v) =>
      && v.version < |versions| && versions[v.version].active && versions[v.version].model == v.model
      && versions[v.version].runtime == runtime && versions[v.version].name == name
    case None =>
      forall k :: 0 <= k < |versions| ==>
        !(versions[k].active && versions[k].runtime == runtime && versions[k].name == name)
  }

  function RuntimeOf(runtime: string): string {
    if runtime == "" then "ollama" else runtime
  }

  function DoAdvertise(s: State, provider: nat, inst: nat, runtime: string, name: string, digest: string,
                       matched: Option<Match>): State {
    if HasAd(s.ads, provider, inst, runtime, name) then
      s.(ads := Redigest(s.ads, provider, inst, runtime, name, digest))
    else
      s.(ads := s.ads + [Ad(provider, inst, runtime, name, matched, digest, Pending)])
  }

  /** One statement, or the passing of time; labels that name no row change nothing. */
  function Next(s: State, l: Label): State {
    match l
    case Pass(time) => s.(now := s.now + time)
    case AddProvider(approval) => s.(providers := s.providers + [Provider(approval, false)])
    case EditVersion(row, v) =>
      if row < |s.versions| then s.(versions := s.versions[row := v]) else s.(versions := s.versions + [v])
    case Connect(p) =>
      if p < |s.providers| && !s.providers[p].disabled then s.(sessions := s.sessions + [Session(p, None)]) else s
    case Hello(c, key, ok) => if c < |s.sessions| then DoHello(s, c, key, ok) else s
    case Heartbeat(c, status) =>
      if c < |s.sessions| && s.sessions[c].inst.Some? && ParseStatus(status).Some? then
        var i := s.sessions[c].inst.value;
        if i < |s.instances| then
          s.(instances := s.instances[i := s.instances[i].(status := ParseStatus(status).value, heartbeat := s.now)])
        else s
      else s
    case Advertise(c, runtime, name, digest, m) =>
      if && c < |s.sessions| && s.sessions[c].inst.Some? && !Blank(name)
         && Matches(s.versions, RuntimeOf(runtime), name, m)
      then
        DoAdvertise(s, s.sessions[c].provider, s.sessions[c].inst.value, RuntimeOf(runtime), name, digest, m)
      else s
    case Report(c, report) =>
      if c < |s.sessions| && s.sessions[c].inst.Some? then
        s.(hardware := s.hardware + [Hardware(s.sessions[c].inst.value, report)])
      else s
    case Complete(result) => s.(completed := s.completed + [result])
    case Sweep(tick) =>
      if tick <= s.now then s.(lastSweep := Some(tick), instances := SweepAll(s.instances, tick - s.timeout)) else s
    case Disable(p) =>
      if p < |s.providers| then
        s.(providers := s.providers[p := s.providers[p].(disabled := true)],
           instances := DisconnectAll(s.instances, p))
      else s
    case SetApproval(p, approval) =>
      if p < |s.providers| && approval != Pending then
        s.(providers := s.providers[p := s.providers[p].(approval := approval)])
      else s
    case SetAdStatus(a, approval) =>
      if a < |s.ads| && approval != Pending then s.(ads := s.ads[a := s.ads[a].(status := approval)]) else s
  }

  function Run(s: State, ls: seq<Label>): State {
    if ls == [] then s else Next(Run(s, ls[..|ls| - 1]), ls[|ls| - 1])
  }

  lemma {:induction false} RunAppend(s: State, a: seq<Label>, b: seq<Label>)
    ensures Run(s, a + b) == Run(Run(s, a), b)
  {
    hide Next;
    if b == [] {
      assert a + b == a;
    } else {
      RunAppend(s, a, b[..|b| - 1]);
      assert (a + b)[..|a + b| - 1] == a + b[..|b| - 1];
    }
  }

  // ---- FindRoutableProvider ----

  /** The rows the query joins and its WHERE clause. */
  predicate Eligible(s: State, model: nat, a: nat) {
    && a < |s.ads|
    && var ad := s.ads[a];
       && ad.provider < |s.providers| && ad.inst < |s.instances|
       && s.instances[ad.inst].provider == ad.provider
       && ad.matched.Some? && ad.matched.value.version < |s.versions|
       && s.providers[ad.provider].approval == Approved && !s.providers[ad.provider].disabled
       && s.instances[ad.inst].status == Online
       && ad.status == Approved
       && ad.matched.value.model == model && s.versions[ad.matched.value.version].active
  }

  function HeartbeatOf(s: State, a: nat): int {
    if a < |s.ads| && s.ads[a].inst < |s.instances| then s.instances[s.ads[a].inst].heartbeat else 0
  }

  /** Any answer the query may give: an eligible row with the latest heartbeat. */
  ghost predicate Routes(s: State, model: nat, a: nat) {
    Eligible(s, model, a) && forall b :: Eligible(s, model, b) ==> HeartbeatOf(s, b) <= HeartbeatOf(s, a)
  }

  // ---- Freshness ----

  /** Since the last sweep no instance that is not offline has an older heartbeat than the sweep allowed. */
  ghost predicate Fresh(s: State) {
    s.lastSweep.Some? ==>
      && s.lastSweep.value <= s.now
      && forall k :: 0 <= k < |s.instances| && s.instances[k].status != Offline ==>
           s.instances[k].heartbeat >= s.lastSweep.value - s.timeout
  }

  lemma NextKeepsFresh(s: State, l: Label)
    requires Fresh(s)
    ensures Fresh(Next(s, l)) && Next(s, l).timeout == s.timeout
  {
  }

  lemma {:induction false} RunKeepsFresh(s: State, ls: seq<Label>)
    requires Fresh(s)
    ensures Fresh(Run(s, ls)) && Run(s, ls).timeout == s.timeout
  {
    if ls != [] {
      RunKeepsFresh(s, ls[..|ls| - 1]);
      NextKeepsFresh(Run(s, ls[..|ls| - 1]), ls[|ls| - 1]);
    }
  }

  /** In every run, while the last successful sweep is at most `interval` old, a request is only ever
      routed to an instance whose heartbeat is at most timeout + interval old. */
  lemma RoutedInstancesAreFresh(timeout: nat, start: int, ls: seq<Label>, interval: nat, model: nat, a: nat)
    requires var s := Run(Start(timeout, start), ls);
             s.lastSweep.Some? && s.now - s.lastSweep.value <= interval && Routes(s, model, a)
    ensures var s := Run(Start(timeout, start), ls);
            HeartbeatOf(s, a) >= s.now - (timeout + interval)
  {
    RunKeepsFresh(Start(timeout, start), ls);
  }

  // ---- Moderation ----

  lemma {:induction false} DisabledStays(s: State, ls: seq<Label>, p: nat)
    requires p < |s.providers| && s.providers[p].disabled
    ensures p < |Run(s, ls).providers| && Run(s, ls).providers[p].disabled
  {
    if ls != [] {
      DisabledStays(s, ls[..|ls| - 1], p);
    }
  }

  /** A disabled provider is never routed to again, whatever hellos, heartbeats, approvals and model
      lists follow, although they may bring its instances back online. */
  lemma DisabledIsFinal(s: State, p: nat, ls: seq<Label>, model: nat, a: nat)
    requires p < |s.providers| && Routes(Run(Next(s, Disable(p)), ls), model, a)
    ensures Run(Next(s, Disable(p)), ls).ads[a].provider != p
  {
    DisabledStays(Next(s, Disable(p)), ls, p);
  }

  /** At most one advertisement per provider, instance, runtime and name. */
  ghost predicate UniqueAds(ads: seq<Ad>) {
    forall k, m | 0 <= k < m < |ads| ::
      !SameAd(ads[k], ads[m].provider, ads[m].inst, ads[m].runtime, ads[m].name)
  }

  /** After step k nobody said `no`. */
  ghost predicate Stands(ls: seq<Label>, k: int, no: Label) {
    0 <= k < |ls| && forall m :: k < m < |ls| ==> ls[m] != no
  }

  ghost predicate AdApproved(ls: seq<Label>, a: nat) {
    exists k :: Stands(ls, k, SetAdStatus(a, Rejected)) && ls[k] == SetAdStatus(a, Approved)
  }

  /** A provider is approved by an administrator or created approved. */
  ghost predicate ProviderApproved(ls: seq<Label>, p: nat) {
    exists k :: Stands(ls, k, SetApproval(p, Rejected)) &&
                (ls[k] == SetApproval(p, Approved) || ls[k] == AddProvider(Approved))
  }

  ghost predicate ApprovedBy(s: State, ls: seq<Label>) {
    && (forall a :: 0 <= a < |s.ads| && s.ads[a].status == Approved ==> AdApproved(ls, a))
    && (forall p :: 0 <= p < |s.providers| && s.providers[p].approval == Approved ==> ProviderApproved(ls, p))
  }

  lemma NextKeepsUnique(s: State, l: Label)
    requires UniqueAds(s.ads)
    ensures UniqueAds(Next(s, l).ads)
  {
    if l.Advertise? {
      var ads := Next(s, l).ads;
      forall k, m | 0 <= k < m < |ads|
        ensures !SameAd(ads[k], ads[m].provider, ads[m].inst, ads[m].runtime, ads[m].name)
      {
        if m < |s.ads| {
          assert !SameAd(s.ads[k], s.ads[m].provider, s.ads[m].inst, s.ads[m].runtime, s.ads[m].name);
        } else {
          assert !HasAd(s.ads, ads[m].provider, ads[m].inst, ads[m].runtime, ads[m].name);
        }
      }
    }
  }

  lemma NextKeepsAd(s: State, ls: seq<Label>, l: Label, a: nat)
    requires ApprovedBy(s, ls) && a < |Next(s, l).ads| && Next(s, l).ads[a].status == Approved
    ensures AdApproved(ls + [l], a)
  {
    hide Blank, ParseStatus, RuntimeOf, Matches, InstanceOf, HasAd, SweepAll, DisconnectAll;
    if l == SetAdStatus(a, Approved) {
      assert Stands(ls + [l], |ls|, SetAdStatus(a, Rejected));
    } else {
      assert a < |s.ads| && s.ads[a].status == Approved && l != SetAdStatus(a, Rejected);
      var k :| Stands(ls, k, SetAdStatus(a, Rejected)) && ls[k] == SetAdStatus(a, Approved);
      assert Stands(ls + [l], k, SetAdStatus(a, Rejected));
    }
  }

  lemma NextKeepsProvider(s: State, ls: seq<Label>, l: Label, p: nat)
    requires ApprovedBy(s, ls) && p < |Next(s, l).providers| && Next(s, l).providers[p].approval == Approved
    ensures ProviderApproved(ls + [l], p)
  {
    hide Blank, ParseStatus, RuntimeOf, Matches, InstanceOf, HasAd, SweepAll, DisconnectAll;
    if l == SetApproval(p, Approved) || p == |s.providers| {
      assert Stands(ls + [l], |ls|, SetApproval(p, Rejected));
    } else {
      assert s.providers[p].approval == Approved && l != SetApproval(p, Rejected);
      var k :| Stands(ls, k, SetApproval(p, Rejected)) &&
               (ls[k] == SetApproval(p, Approved) || ls[k] == AddProvider(Approved));
      assert Stands(ls + [l], k, SetApproval(p, Rejected));
    }
  }

  lemma {:induction false} RunIsModerated(s: State, ls: seq<Label>)
    requires s.ads == [] && s.providers == []
    ensures UniqueAds(Run(s, ls).ads) && ApprovedBy(Run(s, ls), ls)
  {
    if ls != [] {
      var init, l := ls[..|ls| - 1], ls[|ls| - 1];
      RunIsModerated(s, init);
      var t := Run(s, init);
      hide Next, AdApproved, ProviderApproved;
      NextKeepsUnique(t, l);
      forall a | 0 <= a < |Next(t, l).ads| && Next(t, l).ads[a].status == Approved
        ensures AdApproved(ls, a)
      {
        NextKeepsAd(t, init, l, a);
        assert ls == init + [l];
      }
      forall p | 0 <= p < |Next(t, l).providers| && Next(t, l).providers[p].approval == Approved
        ensures ProviderApproved(ls, p)
      {
        NextKeepsProvider(t, init, l, p);
        assert ls == init + [l];
      }
    }
  }

  /** In every run there is at most one advertisement per provider, instance, runtime and name. */
  lemma AdvertisementsAreUnique(timeout: nat, start: int, ls: seq<Label>)
    ensures UniqueAds(Run(Start(timeout, start), ls).ads)
  {
    RunIsModerated(Start(timeout, start), ls);
  }

  /** In every run a request is routed only over an advertisement and to a provider whose last decision
      was an approval, on an instance that is online. */
  lemma RoutesAreModerated(timeout: nat, start: int, ls: seq<Label>, model: nat, a: nat)
    requires Routes(Run(Start(timeout, start), ls), model, a)
    ensures AdApproved(ls, a)
    ensures ProviderApproved(ls, Run(Start(timeout, start), ls).ads[a].provider)
    ensures var s := Run(Start(timeout, start), ls); s.instances[s.ads[a].inst].status == Online
  {
    RunIsModerated(Start(timeout, start), ls);
  }

  predicate SameButDigest(s: State, t: State, a: nat) {
    a < |s.ads| && a < |t.ads| && t.ads[a] == s.ads[a].(digest := t.ads[a].digest)
  }

  lemma StepKeepsStatus(s: State, l: Label, a: nat)
    requires a < |s.ads| && !(l.SetAdStatus? && l.ad == a)
    ensures SameButDigest(s, Next(s, l), a)
  {
    hide Blank, ParseStatus, RuntimeOf, Matches, SweepAll, DisconnectAll, InstanceOf, HasAd, SameAd;
  }

  /** Advertising again never changes what an administrator decided: in any run without a decision on
      it an advertisement keeps its status, its model version and its identity. */
  lemma {:induction false} AdvertisingKeepsStatus(s: State, ls: seq<Label>, a: nat)
    requires a < |s.ads| && forall approval :: SetAdStatus(a, approval) !in ls
    ensures SameButDigest(s, Run(s, ls), a)
  {
    hide Next;
    if ls != [] {
      var init, l := ls[..|ls| - 1], ls[|ls| - 1];
      AdvertisingKeepsStatus(s, init, a);
      assert l in ls;
      StepKeepsStatus(Run(s, init), l, a);
    }
  }

  /** Sessions only ever touch rows of the provider they were opened for. */
  ghost predicate OwnRows(s: State) {
    && (forall c :: 0 <= c < |s.sessions| && s.sessions[c].inst.Some? ==>
          && s.sessions[c].inst.value < |s.instances|
          && s.instances[s.sessions[c].inst.value].provider == s.sessions[c].provider)
    && (forall a :: 0 <= a < |s.ads| ==>
          s.ads[a].inst < |s.instances| && s.instances[s.ads[a].inst].provider == s.ads[a].provider)
  }

  lemma HelloKeepsOwnRows(s: State, c: nat, key: string, ok: bool)
    requires OwnRows(s) && c < |s.sessions|
    ensures OwnRows(DoHello(s, c, key, ok))
  {
    hide Blank;
  }

  lemma AdvertiseKeepsOwnRows(s: State, inst: nat, provider: nat, runtime: string, name: string, digest: string,
                              m: Option<Match>)
    requires OwnRows(s) && inst < |s.instances| && s.instances[inst].provider == provider
    ensures OwnRows(DoAdvertise(s, provider, inst, runtime, name, digest, m))
  {
    hide HasAd, SameAd;
  }

  lemma NextKeepsOwnRows(s: State, l: Label)
    requires OwnRows(s)
    ensures OwnRows(Next(s, l))
  {
    hide Blank, ParseStatus, RuntimeOf, Matches, SweepAll, DisconnectAll, DoHello, DoAdvertise;
    match l
    case Hello(c, key, ok) => if c < |s.sessions| { HelloKeepsOwnRows(s, c, key, ok); }
    case Advertise(c, runtime, name, digest, m) =>
      if c < |s.sessions| && s.sessions[c].inst.Some? {
        AdvertiseKeepsOwnRows(s, s.sessions[c].inst.value, s.sessions[c].provider, RuntimeOf(runtime), name, digest, m);
      }
    case _ =>
  }

  lemma {:induction false} RunKeepsOwnRows(s: State, ls: seq<Label>)
    requires OwnRows(s)
    ensures OwnRows(Run(s, ls))
  {
    hide Next, OwnRows;
    if ls != [] {
      RunKeepsOwnRows(s, ls[..|ls| - 1]);
      NextKeepsOwnRows(Run(s, ls[..|ls| - 1]), ls[|ls| - 1]);
    }
  }

  /** In every run every session reports for an instance of its own provider, and every advertisement
      names an instance of its own provider. */
  lemma SessionsOwnTheirRows(timeout: nat, start: int, ls: seq<Label>)
    ensures OwnRows(Run(Start(timeout, start), ls))
  {
    RunKeepsOwnRows(Start(timeout, start), ls);
  }
}
