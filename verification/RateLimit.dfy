/** The fixed-window rate limiter: a Redis counter per client and calendar minute, shared by requests
    whose steps interleave. Times are in milliseconds; a client stands for an IP, method and path. */
module RateLimit {
  import opened Credits

  const MINUTE := 60000

  type Key = (nat, int)

  datatype Counter = Counter(value: nat, expireAt: Option<int>)

  /** A request has computed its key; has seen 1 and sends the expiry; or is decided. */
  datatype Phase =
    | Stamped(key: Key, at: int)
    | MustExpire(key: Key)
    | Decided

  /** An increment that reached Redis, of a request that arrived at `arrived`; `heard` says whether the
      reply reached the request. */
  datatype Hit = Hit(key: Key, arrived: int, time: int, value: nat, heard: bool)

  datatype State = State(now: int, requests: seq<Phase>, counters: map<Key, Counter>, hits: seq<Hit>)

  /** What becomes of the increment: executed and answered, executed and not answered, not executed. */
  datatype Reply = Heard | Unheard | Lost

  datatype Label =
    | Pass(time: nat)
    | Arrive(client: nat)
    | Incr(request: nat, reply: Reply)
    | Expire(request: nat, ok: bool)

  function MinuteOf(time: int): int {
    time / MINUTE
  }

  /** Redis keeps a key through the millisecond of its expiry. */
  predicate Live(s: State, key: Key) {
    key in s.counters && (s.counters[key].expireAt.None? || s.now <= s.counters[key].expireAt.value)
  }

  /** An expired key counts from 1 again. */
  function Incremented(s: State, key: Key): Counter {
    if Live(s, key) then s.counters[key].(value := s.counters[key].value + 1) else Counter(1, None)
  }

  function DoIncr(s: State, r: nat, reply: Reply): State
    requires r < |s.requests| && s.requests[r].Stamped?
  {
    var key := s.requests[r].key;
    if reply == Lost then s.(requests := s.requests[r := Decided])
    else
      var c := Incremented(s, key);
      s.(requests := s.requests[r := if reply == Heard && c.value == 1 then MustExpire(key) else Decided],
         counters := s.counters[key := c],
         hits := s.hits + [Hit(key, s.requests[r].at, s.now, c.value, reply == Heard)])
  }

  function DoExpire(s: State, r: nat, key: Key, ok: bool): State
    requires r < |s.requests|
  {
    var t := s.(requests := s.requests[r := Decided]);
    if ok && Live(s, key) then
      t.(counters := s.counters[key := s.counters[key].(expireAt := Some(s.now + MINUTE))])
    else t
  }

  function Next(s: State, l: Label): State {
    match l
    case Pass(time) => s.(now := s.now + time)
    case Arrive(client) => s.(requests := s.requests + [Stamped((client, MinuteOf(s.now)), s.now)])
    case Incr(r, reply) =>
      if r < |s.requests| && s.requests[r].Stamped? then DoIncr(s, r, reply) else s
    case Expire(r, ok) =>
      if r < |s.requests| && s.requests[r].MustExpire? then DoExpire(s, r, s.requests[r].key, ok) else s
  }

  function Run(s: State, ls: seq<Label>): State {
    if ls == [] then s else Next(Run(s, ls[..|ls| - 1]), ls[|ls| - 1])
  }

  function Start(now: int): State {
    State(now, [], map[], [])
  }

  // ---- Counting ----

  /** The increment was executed within the minute its key names. */
  predicate Timely(h: Hit) {
    MinuteOf(h.time) == h.key.1
  }

  predicate Admitted(h: Hit, perMinute: nat) {
    h.heard && h.value <= perMinute
  }

  predicate InWindow(h: Hit, from: int) {
    from <= h.time < from + MINUTE
  }

  /** What to count: increments of a key, timely ones, starts of its counter from 1; and admitted
      requests, of a key, with a timely increment, or with one in the 60 seconds from `from`. */
  datatype Which =
    | OfKey(key: Key)
    | InTime(key: Key)
    | Start1(key: Key)
    | Admit(key: Key, perMinute: nat)
    | AdmitInTime(key: Key, perMinute: nat)
    | AdmitWindow(key: Key, from: int, perMinute: nat)
    | ClientWindow(client: nat, from: int, perMinute: nat)

  predicate Is(w: Which, h: Hit) {
    match w
    case OfKey(key) => h.key == key
    case InTime(key) => h.key == key && Timely(h)
    case Start1(key) => h.key == key && h.value == 1
    case Admit(key, p) => h.key == key && Admitted(h, p)
    case AdmitInTime(key, p) => h.key == key && Timely(h) && Admitted(h, p)
    case AdmitWindow(key, from, p) => h.key == key && InWindow(h, from) && Admitted(h, p)
    case ClientWindow(client, from, p) => h.key.0 == client && InWindow(h, from) && Admitted(h, p)
  }

  function Count(hits: seq<Hit>, w: Which): nat {
    if hits == [] then 0
    else Count(hits[..|hits| - 1], w) + if Is(w, hits[|hits| - 1]) then 1 else 0
  }

  lemma CountGrows(hits: seq<Hit>, h: Hit, w: Which)
    ensures Count(hits + [h], w) == Count(hits, w) + if Is(w, h) then 1 else 0
  {
    assert (hits + [h])[..|hits|] == hits;
  }

  function Starts(hits: seq<Hit>, key: Key): nat {
    Count(hits, Start1(key))
  }

  /** When the counter of a key last started from 1. */
  function LastStart(hits: seq<Hit>, key: Key): int {
    if hits == [] then 0
    else if Is(Start1(key), hits[|hits| - 1]) then hits[|hits| - 1].time
    else LastStart(hits[..|hits| - 1], key)
  }

  lemma LastStartGrows(hits: seq<Hit>, h: Hit, key: Key)
    ensures LastStart(hits + [h], key) == if Is(Start1(key), h) then h.time else LastStart(hits, key)
  {
    assert (hits + [h])[..|hits|] == hits;
  }

  lemma {:induction false} LastStartIsHit(hits: seq<Hit>, key: Key) returns (i: nat)
    requires Starts(hits, key) > 0
    ensures i < |hits| && hits[i].key == key && hits[i].time == LastStart(hits, key)
  {
    if Is(Start1(key), hits[|hits| - 1]) {
      i := |hits| - 1;
    } else {
      i := LastStartIsHit(hits[..|hits| - 1], key);
    }
  }

  function Min(a: int, b: int): int {
    if a < b then a else b
  }

  function Max(a: int, b: int): int {
    if a < b then b else a
  }

  // ---- What the counters say ----

  /** Every timely increment returned its rank among the timely increments of its key. */
  ghost predicate Ranked(hits: seq<Hit>) {
    forall i :: 0 <= i < |hits| && Timely(hits[i]) ==> hits[i].value == Count(hits[..i], InTime(hits[i].key)) + 1
  }

  /** While the minute of a key lasts, its counter is the number of its increments. */
  ghost predicate CounterOk(s: State, key: Key) {
    MinuteOf(s.now) <= key.1 ==>
      (if key in s.counters then s.counters[key].value else 0) == Count(s.hits, InTime(key))
  }

  /** Each start of a counter comes a minute or more after the one before, and so does its expiry. */
  ghost predicate StartsOk(s: State, key: Key) {
    if key in s.counters then
      var last := LastStart(s.hits, key);
      && s.counters[key].value >= 1 && Starts(s.hits, key) >= 1
      && (key.1 + Starts(s.hits, key) - 1) * MINUTE <= last <= s.now
      && (s.counters[key].expireAt.Some? ==> s.counters[key].expireAt.value >= last + MINUTE)
    else
      Starts(s.hits, key) == 0
  }

  ghost predicate KeyOf(key: Key, arrived: int, now: int) {
    key.1 == MinuteOf(arrived) && arrived <= now
  }

  ghost predicate Inv(s: State) {
    && Ranked(s.hits)
    && (forall key :: CounterOk(s, key))
    && (forall key :: StartsOk(s, key))
    && (forall key :: key in s.counters ==> key.1 <= MinuteOf(s.now))
    && (forall r :: 0 <= r < |s.requests| && s.requests[r].Stamped? ==>
          KeyOf(s.requests[r].key, s.requests[r].at, s.now))
    && (forall r :: 0 <= r < |s.requests| && s.requests[r].MustExpire? ==> s.requests[r].key.1 <= MinuteOf(s.now))
    && (forall i :: 0 <= i < |s.hits| ==>
          s.hits[i].time <= s.now && KeyOf(s.hits[i].key, s.hits[i].arrived, s.hits[i].time))
  }

  lemma MinuteGrows(a: int, b: int)
    requires a <= b
    ensures MinuteOf(a) <= MinuteOf(b)
    ensures MinuteOf(a) * MINUTE <= a < (MinuteOf(a) + 1) * MINUTE
  {
  }

  lemma RankedGrows(hits: seq<Hit>, h: Hit)
    requires Ranked(hits) && (Timely(h) ==> h.value == Count(hits, InTime(h.key)) + 1)
    ensures Ranked(hits + [h])
  {
    forall i | 0 <= i < |hits + [h]|
      ensures (hits + [h])[..i] == hits[..if i < |hits| then i else |hits|]
    {
    }
    assert hits[..|hits|] == hits;
  }

  lemma PassKeepsInv(s: State, time: nat)
    requires Inv(s)
    ensures Inv(Next(s, Pass(time)))
  {
    hide Count, Ranked, LastStart;
    var t := Next(s, Pass(time));
    MinuteGrows(s.now, t.now);
    assert forall key :: CounterOk(s, key) ==> CounterOk(t, key);
    assert forall key :: StartsOk(s, key) ==> StartsOk(t, key);
  }

  lemma IncrKeepsCounter(s: State, r: nat, reply: Reply, k: Key)
    requires Inv(s) && r < |s.requests| && s.requests[r].Stamped? && reply != Lost
    ensures CounterOk(DoIncr(s, r, reply), k)
  {
    hide Count, Ranked, LastStart;
    var t := DoIncr(s, r, reply);
    assert CounterOk(s, k) && StartsOk(s, k);
    MinuteGrows(s.now, s.now);
    CountGrows(s.hits, t.hits[|s.hits|], InTime(k));
  }

  lemma IncrKeepsStarts(s: State, r: nat, reply: Reply, k: Key)
    requires Inv(s) && r < |s.requests| && s.requests[r].Stamped? && reply != Lost
    ensures StartsOk(DoIncr(s, r, reply), k)
  {
    hide Count, Ranked, LastStart;
    var t := DoIncr(s, r, reply);
    var h := t.hits[|s.hits|];
    assert StartsOk(s, k);
    assert KeyOf(s.requests[r].key, s.requests[r].at, s.now);
    MinuteGrows(s.requests[r].at, s.now);
    MinuteGrows(s.now, s.now);
    CountGrows(s.hits, h, Start1(k));
    LastStartGrows(s.hits, h, k);
  }

  lemma IncrKeepsInv(s: State, r: nat, reply: Reply)
    requires Inv(s) && r < |s.requests| && s.requests[r].Stamped? && reply != Lost
    ensures Inv(DoIncr(s, r, reply))
  {
    hide Count, Ranked, LastStart;
    var key := s.requests[r].key;
    var t := DoIncr(s, r, reply);
    var h := t.hits[|s.hits|];
    assert CounterOk(s, key) && StartsOk(s, key);
    assert KeyOf(key, s.requests[r].at, s.now);
    MinuteGrows(s.requests[r].at, s.now);
    MinuteGrows(s.now, s.now);
    RankedGrows(s.hits, h);
    forall k
      ensures CounterOk(t, k) && StartsOk(t, k)
    {
      IncrKeepsCounter(s, r, reply, k);
      IncrKeepsStarts(s, r, reply, k);
    }
  }

  lemma ExpireKeepsInv(s: State, r: nat, ok: bool)
    requires Inv(s) && r < |s.requests| && s.requests[r].MustExpire?
    ensures Inv(DoExpire(s, r, s.requests[r].key, ok))
  {
    hide Count, Ranked, LastStart;
    var key := s.requests[r].key;
    var t := DoExpire(s, r, key, ok);
    assert CounterOk(s, key) && StartsOk(s, key);
    forall k
      ensures CounterOk(t, k) && StartsOk(t, k)
    {
      assert CounterOk(s, k) && StartsOk(s, k);
    }
  }

  lemma SameCounters(s: State, t: State)
    requires Inv(s) && t.counters == s.counters && t.hits == s.hits && t.now == s.now
    ensures forall key :: CounterOk(t, key) && StartsOk(t, key)
  {
    hide Count, Ranked, LastStart;
    forall key
      ensures CounterOk(t, key) && StartsOk(t, key)
    {
      assert CounterOk(s, key) && StartsOk(s, key);
    }
  }

  /** The step that counts. */
  predicate Counts(s: State, l: Label) {
    l.Incr? && l.request < |s.requests| && s.requests[l.request].Stamped? && l.reply != Lost
  }

  lemma NextKeepsInv(s: State, l: Label)
    requires Inv(s)
    ensures Inv(Next(s, l))
  {
    hide Count, Ranked, LastStart;
    match l
    case Pass(time) => PassKeepsInv(s, time);
    case Incr(r, reply) => if Counts(s, l) { IncrKeepsInv(s, r, reply); } else { SameCounters(s, Next(s, l)); }
    case Expire(r, ok) =>
      if r < |s.requests| && s.requests[r].MustExpire? {
        ExpireKeepsInv(s, r, ok);
      }
    case Arrive(client) => SameCounters(s, Next(s, l));
  }

  lemma {:induction false} RunKeepsInv(start: int, ls: seq<Label>)
    ensures Inv(Run(Start(start), ls))
  {
    hide Next;
    if ls != [] {
      RunKeepsInv(start, ls[..|ls| - 1]);
      hide Inv;
      NextKeepsInv(Run(Start(start), ls[..|ls| - 1]), ls[|ls| - 1]);
    }
  }

  // ---- In the minute of a key ----

  lemma {:induction false} AdmittedAreRanked(hits: seq<Hit>, key: Key, perMinute: nat)
    requires Ranked(hits)
    ensures var n := Count(hits, AdmitInTime(key, perMinute));
            && n <= Min(perMinute, Count(hits, InTime(key)))
            && (AllHeard(hits, key) ==> n == Min(perMinute, Count(hits, InTime(key))))
  {
    if hits != [] {
      var init := hits[..|hits| - 1];
      assert forall i :: 0 <= i < |init| ==> hits[..i] == init[..i];
      AdmittedAreRanked(init, key, perMinute);
    }
  }

  /** Every reply to an increment of the key arrived. */
  ghost predicate AllHeard(hits: seq<Hit>, key: Key) {
    forall i :: 0 <= i < |hits| && hits[i].key == key ==> hits[i].heard
  }

  /** In every run, of the increments executed within the minute of their key at most perMinute are
      admitted, exactly the first perMinute of them if every reply arrives, and none is refused before. */
  lemma AtMostPerMinute(start: int, ls: seq<Label>, key: Key, perMinute: nat)
    ensures var hits := Run(Start(start), ls).hits; var n := Count(hits, AdmitInTime(key, perMinute));
            && n <= perMinute
            && (AllHeard(hits, key) ==> n == Min(perMinute, Count(hits, InTime(key))))
            && (forall i :: 0 <= i < |hits| && Timely(hits[i]) && hits[i].heard ==>
                  (Admitted(hits[i], perMinute) <==> Count(hits[..i], InTime(hits[i].key)) < perMinute))
  {
    RunKeepsInv(start, ls);
    AdmittedAreRanked(Run(Start(start), ls).hits, key, perMinute);
  }

  // ---- Over all starts of a key ----

  /** Every start of the counter admits at most perMinute requests. */
  ghost predicate Limited(s: State, key: Key, perMinute: nat) {
    if key in s.counters then
      Count(s.hits, Admit(key, perMinute)) <=
        (Starts(s.hits, key) - 1) * perMinute + Min(perMinute, s.counters[key].value)
    else
      Count(s.hits, Admit(key, perMinute)) == 0
  }

  /** What is admitted with all replies heard: the current start admits as many as it can, the earlier ones
      together all of theirs or the limit, and at least one. */
  ghost predicate Segmented(s: State, key: Key, perMinute: nat) {
    if key in s.counters then
      SegmentsOk(Count(s.hits, Admit(key, perMinute)), Count(s.hits, OfKey(key)), Starts(s.hits, key),
                 s.counters[key].value, perMinute)
    else
      Count(s.hits, Admit(key, perMinute)) == Count(s.hits, OfKey(key)) == 0
  }

  predicate SegmentsOk(admitted: nat, hits: nat, starts: nat, value: nat, perMinute: nat) {
    var earlier := admitted - Min(perMinute, value);
    && value <= hits && admitted <= hits && earlier >= Min(hits - value, perMinute)
    && (starts >= 2 && perMinute > 0 ==> earlier >= 1)
    && (starts == 1 ==> hits == value && earlier == 0)
  }

  /** In the 60 seconds from `from` a key admits at most perMinute requests after a start in them, and
      before it one less, whose start lies outside. */
  ghost predicate Windowed(s: State, key: Key, from: int, perMinute: nat) {
    var n := Count(s.hits, AdmitWindow(key, from, perMinute));
    && (s.now < from ==> n == 0)
    && if key in s.counters then
         var last, value := LastStart(s.hits, key), s.counters[key].value;
         n <= if last < from then Max(0, Min(perMinute, value) - 1)
              else if last < from + MINUTE then Max(0, perMinute - 1) + Min(perMinute, value)
              else Max(0, 2 * perMinute - 1)
       else
         n == 0
  }

  lemma IncrKeepsLimited(s: State, r: nat, reply: Reply, key: Key, perMinute: nat)
    requires Inv(s) && Limited(s, key, perMinute) && r < |s.requests| && s.requests[r].Stamped? && reply != Lost
    ensures Limited(DoIncr(s, r, reply), key, perMinute)
  {
    var h := DoIncr(s, r, reply).hits[|s.hits|];
    assert StartsOk(s, key);
    hide Inv, Count, MinuteOf, LastStart;
    CountGrows(s.hits, h, Start1(key));
    CountGrows(s.hits, h, Admit(key, perMinute));
    if key in s.counters {
      LimitStep(Count(s.hits, Admit(key, perMinute)), Starts(s.hits, key), perMinute, s.counters[key].value);
    }
  }

  lemma LimitStep(all: int, n: nat, perMinute: nat, value: nat)
    requires all <= (n - 1) * perMinute + Min(perMinute, value)
    ensures all + (if value + 1 <= perMinute then 1 else 0) <= (n - 1) * perMinute + Min(perMinute, value + 1)
    ensures all + (if 1 <= perMinute then 1 else 0) <= n * perMinute + Min(perMinute, 1)
  {
    assert n * perMinute == (n - 1) * perMinute + perMinute;
  }

  /** What one increment does to the counter of a key. */
  lemma IncrEffect(s: State, r: nat, reply: Reply, key: Key)
    requires r < |s.requests| && s.requests[r].Stamped? && reply != Lost
    ensures var t := DoIncr(s, r, reply);
            && |t.hits| == |s.hits| + 1
            && var h := t.hits[|s.hits|];
               && t.hits == s.hits + [h] && h.key == s.requests[r].key && h.heard == (reply == Heard)
               && if h.key == key then
                    && key in t.counters && t.counters[key].value == h.value
                    && (h.value == 1 || (key in s.counters && h.value == s.counters[key].value + 1))
                  else
                    (key in t.counters <==> key in s.counters)
                    && (key in s.counters ==> t.counters[key] == s.counters[key])
  {
  }

  lemma IncrKeepsSegmented(s: State, r: nat, reply: Reply, key: Key, perMinute: nat)
    requires Inv(s) && Segmented(s, key, perMinute) && r < |s.requests| && s.requests[r].Stamped?
    requires reply == Heard || (reply == Unheard && s.requests[r].key != key)
    ensures Segmented(DoIncr(s, r, reply), key, perMinute)
  {
    assert StartsOk(s, key);
    hide Inv, Count, LastStart, SegmentsOk, DoIncr, MinuteOf;
    IncrEffect(s, r, reply, key);
    var t := DoIncr(s, r, reply);
    var h := t.hits[|s.hits|];
    CountGrows(s.hits, h, Start1(key));
    CountGrows(s.hits, h, Admit(key, perMinute));
    CountGrows(s.hits, h, OfKey(key));
    if h.key == key {
      var value := if key in s.counters then s.counters[key].value else 0;
      SegmentsGrow(Count(s.hits, Admit(key, perMinute)), Count(s.hits, OfKey(key)), Starts(s.hits, key), value,
                   Count(t.hits, Admit(key, perMinute)), Count(t.hits, OfKey(key)), Starts(t.hits, key), h.value,
                   perMinute);
    } else {
      assert Count(t.hits, Admit(key, perMinute)) == Count(s.hits, Admit(key, perMinute));
      assert Count(t.hits, OfKey(key)) == Count(s.hits, OfKey(key)) && Starts(t.hits, key) == Starts(s.hits, key);
    }
  }

  /** One more increment of the current start, or a new start. */
  lemma SegmentsGrow(admitted: nat, hits: nat, starts: nat, value: nat,
                     admitted': nat, hits': nat, starts': nat, value': nat, perMinute: nat)
    requires if value == 0 then admitted == hits == starts == 0 && value' == 1
             else
               && SegmentsOk(admitted, hits, starts, value, perMinute) && starts > 0
               && (value' == 1 || value' == value + 1)
    requires admitted' == admitted + if value' <= perMinute then 1 else 0
    requires hits' == hits + 1 && starts' == starts + if value' == 1 then 1 else 0
    ensures SegmentsOk(admitted', hits', starts', value', perMinute)
  {
  }

  lemma IncrKeepsWindowed(s: State, r: nat, reply: Reply, key: Key, from: int, perMinute: nat)
    requires Inv(s) && Windowed(s, key, from, perMinute) && r < |s.requests| && s.requests[r].Stamped? && reply != Lost
    ensures Windowed(DoIncr(s, r, reply), key, from, perMinute)
  {
    var h := DoIncr(s, r, reply).hits[|s.hits|];
    assert StartsOk(s, key);
    hide Inv, Count, MinuteOf, LastStart;
    CountGrows(s.hits, h, AdmitWindow(key, from, perMinute));
    LastStartGrows(s.hits, h, key);
  }

  lemma {:induction false} RunKeepsLimited(start: int, ls: seq<Label>, key: Key, perMinute: nat)
    ensures Limited(Run(Start(start), ls), key, perMinute)
  {
    hide Inv, Count;
    if ls == [] {
      NothingCounted(Admit(key, perMinute));
    } else {
      var init, l := ls[..|ls| - 1], ls[|ls| - 1];
      RunKeepsLimited(start, init, key, perMinute);
      RunKeepsInv(start, init);
      var s := Run(Start(start), init);
      if Counts(s, l) {
        IncrKeepsLimited(s, l.request, l.reply, key, perMinute);
      }
    }
  }

  lemma {:induction false} RunKeepsSegmented(start: int, ls: seq<Label>, key: Key, perMinute: nat)
    requires AllHeard(Run(Start(start), ls).hits, key)
    ensures Segmented(Run(Start(start), ls), key, perMinute)
  {
    hide Inv, Count, SegmentsOk;
    if ls == [] {
      NothingCounted(Admit(key, perMinute));
      NothingCounted(OfKey(key));
    } else {
      var init, l := ls[..|ls| - 1], ls[|ls| - 1];
      var s := Run(Start(start), init);
      HeardBefore(s, l, key);
      RunKeepsSegmented(start, init, key, perMinute);
      RunKeepsInv(start, init);
      if Counts(s, l) {
        IncrKeepsSegmented(s, l.request, l.reply, key, perMinute);
      }
    }
  }

  lemma HeardBefore(s: State, l: Label, key: Key)
    requires AllHeard(Next(s, l).hits, key)
    ensures AllHeard(s.hits, key)
    ensures Counts(s, l) && s.requests[l.request].key == key ==> l.reply == Heard
  {
    assert forall i :: 0 <= i < |s.hits| ==> Next(s, l).hits[i] == s.hits[i];
    if Counts(s, l) {
      assert Next(s, l).hits[|s.hits|].key == s.requests[l.request].key;
    }
  }

  lemma {:induction false} RunKeepsWindowed(start: int, ls: seq<Label>, key: Key, from: int, perMinute: nat)
    ensures Windowed(Run(Start(start), ls), key, from, perMinute)
  {
    hide Inv, Count, LastStart;
    if ls == [] {
      NothingCounted(AdmitWindow(key, from, perMinute));
    } else {
      var init, l := ls[..|ls| - 1], ls[|ls| - 1];
      RunKeepsWindowed(start, init, key, from, perMinute);
      RunKeepsInv(start, init);
      var s := Run(Start(start), init);
      if Counts(s, l) {
        IncrKeepsWindowed(s, l.request, l.reply, key, from, perMinute);
      }
    }
  }

  lemma NothingCounted(w: Which)
    ensures Count([], w) == 0
  {
  }

  lemma FewStarts(s: State, key: Key, late: nat)
    requires Inv(s)
    requires forall i :: 0 <= i < |s.hits| && s.hits[i].key == key ==> MinuteOf(s.hits[i].time) <= key.1 + late
    ensures StartsOk(s, key) && Starts(s.hits, key) <= late + 1
  {
    assert StartsOk(s, key);
    hide Inv, Count, LastStart;
    if key in s.counters {
      var i := LastStartIsHit(s.hits, key);
      MinuteGrows((key.1 + Starts(s.hits, key) - 1) * MINUTE, s.hits[i].time);
    }
  }

  /** In every run, a key whose increments are all executed within `late` minutes after its own admits at
      most (late + 1) * perMinute requests. */
  lemma AtMostPerStart(start: int, ls: seq<Label>, key: Key, perMinute: nat, late: nat)
    requires var hits := Run(Start(start), ls).hits;
             forall i :: 0 <= i < |hits| && hits[i].key == key ==> MinuteOf(hits[i].time) <= key.1 + late
    ensures Count(Run(Start(start), ls).hits, Admit(key, perMinute)) <= (late + 1) * perMinute
  {
    hide Inv, Count, Starts, Run, MinuteOf, StartsOk, Limited;
    RunKeepsInv(start, ls);
    RunKeepsLimited(start, ls, key, perMinute);
    FewStarts(Run(Start(start), ls), key, late);
    LimitedCost(Run(Start(start), ls), key, perMinute, late);
  }

  lemma LimitedCost(s: State, key: Key, perMinute: nat, late: nat)
    requires Limited(s, key, perMinute) && Starts(s.hits, key) <= late + 1
    ensures Count(s.hits, Admit(key, perMinute)) <= (late + 1) * perMinute
  {
    hide Count, Starts;
    var value := if key in s.counters then s.counters[key].value else 0;
    StartsCost(Count(s.hits, Admit(key, perMinute)), Starts(s.hits, key), late, perMinute, value, key in s.counters);
  }

  lemma StartsCost(all: int, n: nat, late: nat, perMinute: nat, value: nat, some: bool)
    requires n - 1 <= late && if some then all <= (n - 1) * perMinute + Min(perMinute, value) else all == 0
    ensures all <= (late + 1) * perMinute
  {
    TimesGrows(n - 1, late, perMinute);
    TimesGrows(0, late + 1, perMinute);
    assert (late + 1) * perMinute == late * perMinute + perMinute;
  }

  lemma TimesGrows(a: int, b: int, p: nat)
    requires a <= b
    ensures a * p <= b * p
  {
    assert (b - a) * p >= 0;
  }

  /** In every run in which all its replies arrive, a key admits more than perMinute requests if and only
      if it has more than perMinute increments and its counter expired before one of them. */
  lemma ExceedsIffRestarted(start: int, ls: seq<Label>, key: Key, perMinute: nat)
    requires perMinute > 0 && AllHeard(Run(Start(start), ls).hits, key)
    ensures var hits := Run(Start(start), ls).hits;
            Count(hits, Admit(key, perMinute)) > perMinute <==>
            Count(hits, OfKey(key)) > perMinute && Starts(hits, key) >= 2
  {
    RunKeepsInv(start, ls);
    RunKeepsSegmented(start, ls, key, perMinute);
    var s := Run(Start(start), ls);
    assert StartsOk(s, key);
    hide Inv, Run, Count, LastStart, SegmentsOk;
    if key in s.counters {
      SegmentsExceed(Count(s.hits, Admit(key, perMinute)), Count(s.hits, OfKey(key)), Starts(s.hits, key),
                     s.counters[key].value, perMinute);
    }
  }

  lemma SegmentsExceed(admitted: nat, hits: nat, starts: nat, value: nat, perMinute: nat)
    requires SegmentsOk(admitted, hits, starts, value, perMinute) && perMinute > 0 && value > 0 && starts > 0
    ensures admitted > perMinute <==> hits > perMinute && starts >= 2
  {
  }

  /** Every increment of the client was executed less than a minute after its request arrived. */
  ghost predicate Prompt(hits: seq<Hit>, client: nat) {
    forall i :: 0 <= i < |hits| && hits[i].key.0 == client ==> hits[i].time - hits[i].arrived < MINUTE
  }

  /** In every run in which this holds a key admits at most 2 * perMinute requests. */
  lemma AtMostTwicePerKey(start: int, ls: seq<Label>, key: Key, perMinute: nat)
    requires Prompt(Run(Start(start), ls).hits, key.0)
    ensures Count(Run(Start(start), ls).hits, Admit(key, perMinute)) <= 2 * perMinute
  {
    RunKeepsInv(start, ls);
    var hits := Run(Start(start), ls).hits;
    forall i | 0 <= i < |hits| && hits[i].key == key
      ensures MinuteOf(hits[i].time) <= key.1 + 1
    {
      MinuteGrows(hits[i].arrived, hits[i].time);
    }
    AtMostPerStart(start, ls, key, perMinute, 1);
  }

  // ---- In any 60 seconds ----

  /** In every run, in any 60 seconds a key admits fewer than 2 * perMinute requests, however late. */
  lemma FewPerKeyInWindow(start: int, ls: seq<Label>, key: Key, from: int, perMinute: nat)
    ensures Count(Run(Start(start), ls).hits, AdmitWindow(key, from, perMinute)) <= Max(0, 2 * perMinute - 1)
  {
    hide Run, Count, LastStart;
    RunKeepsWindowed(start, ls, key, from, perMinute);
  }

  /** Whatever is counted by w is counted by one of the three. */
  lemma {:induction false} CountSplits(hits: seq<Hit>, w: Which, a: Which, b: Which, c: Which)
    requires forall i :: 0 <= i < |hits| && Is(w, hits[i]) ==> Is(a, hits[i]) || Is(b, hits[i]) || Is(c, hits[i])
    ensures Count(hits, w) <= Count(hits, a) + Count(hits, b) + Count(hits, c)
  {
    if hits != [] {
      var init := hits[..|hits| - 1];
      assert forall i :: 0 <= i < |init| ==> init[i] == hits[i];
      hide Is;
      CountSplits(init, w, a, b, c);
    }
  }

  /** In every run in which every increment is executed less than a minute after its request arrived, a
      client gets at most 5 * perMinute - 2 requests through in any 60 seconds. */
  lemma AtMostPerWindow(start: int, ls: seq<Label>, client: nat, from: int, perMinute: nat)
    requires perMinute > 0 && Prompt(Run(Start(start), ls).hits, client)
    ensures Count(Run(Start(start), ls).hits, ClientWindow(client, from, perMinute)) <= 5 * perMinute - 2
  {
    RunKeepsInv(start, ls);
    var hits, m := Run(Start(start), ls).hits, MinuteOf(from);
    var w := ClientWindow(client, from, perMinute);
    var a, b := AdmitWindow((client, m - 1), from, perMinute), AdmitWindow((client, m), from, perMinute);
    var c := AdmitInTime((client, m + 1), perMinute);
    forall i | 0 <= i < |hits| && Is(w, hits[i])
      ensures Is(a, hits[i]) || Is(b, hits[i]) || Is(c, hits[i])
    {
      WindowMinutes(hits[i], from);
    }
    hide Inv, Run, Count, Is;
    CountSplits(hits, w, a, b, c);
    FewPerKeyInWindow(start, ls, (client, m - 1), from, perMinute);
    FewPerKeyInWindow(start, ls, (client, m), from, perMinute);
    AtMostPerMinute(start, ls, (client, m + 1), perMinute);
  }

  lemma WindowMinutes(h: Hit, from: int)
    requires InWindow(h, from) && KeyOf(h.key, h.arrived, h.time) && h.time - h.arrived < MINUTE
    ensures var m := MinuteOf(from);
            h.key.1 == m - 1 || h.key.1 == m || (h.key.1 == m + 1 && Timely(h))
  {
    MinuteGrows(from, h.time);
    MinuteGrows(h.arrived, h.time);
  }

  ghost predicate NoneLate(hits: seq<Hit>, client: nat, from: int) {
    forall i :: 0 <= i < |hits| && hits[i].key.0 == client && InWindow(hits[i], from) ==> Timely(hits[i])
  }

  lemma TimelyMinutes(h: Hit, from: int)
    requires InWindow(h, from) && Timely(h)
    ensures h.key.1 == MinuteOf(from) || h.key.1 == MinuteOf(from) + 1
  {
    MinuteGrows(from, h.time);
    MinuteGrows(h.time, from + MINUTE);
  }

  /** In every run, a client gets at most 2 * perMinute requests through in any 60 seconds in which none of
      its increments is executed after its minute. */
  lemma AtMostTwicePerWindow(start: int, ls: seq<Label>, client: nat, from: int, perMinute: nat)
    requires NoneLate(Run(Start(start), ls).hits, client, from)
    ensures Count(Run(Start(start), ls).hits, ClientWindow(client, from, perMinute)) <= 2 * perMinute
  {
    var hits, m := Run(Start(start), ls).hits, MinuteOf(from);
    var w := ClientWindow(client, from, perMinute);
    var a, b := AdmitInTime((client, m), perMinute), AdmitInTime((client, m + 1), perMinute);
    forall i | 0 <= i < |hits| && Is(w, hits[i])
      ensures Is(a, hits[i]) || Is(b, hits[i])
    {
      TimelyMinutes(hits[i], from);
    }
    hide Run, Is;
    CountSplits(hits, w, a, b, AdmitInTime((client, m), 0));
    hide Count;
    AtMostPerMinute(start, ls, (client, m), perMinute);
    AtMostPerMinute(start, ls, (client, m), 0);
    AtMostPerMinute(start, ls, (client, m + 1), perMinute);
  }

  // ---- Expiries ----

  /** Requests that will send the expiry of this key. */
  function Expiring(requests: seq<Phase>, key: Key): nat {
    if requests == [] then 0
    else
      Expiring(requests[..|requests| - 1], key) + if requests[|requests| - 1] == MustExpire(key) then 1 else 0
  }

  lemma {:induction false} ExpiringUpdate(requests: seq<Phase>, r: nat, p: Phase, key: Key)
    requires r < |requests|
    ensures Expiring(requests[r := p], key) ==
            Expiring(requests, key) - (if requests[r] == MustExpire(key) then 1 else 0)
            + if p == MustExpire(key) then 1 else 0
  {
    var n := |requests| - 1;
    if r == n {
      assert requests[r := p][..n] == requests[..n];
    } else {
      assert requests[r := p][..n] == requests[..n][r := p];
      ExpiringUpdate(requests[..n], r, p, key);
    }
  }

  lemma ExpiringStep(s: State, l: Label, key: Key)
    requires Expiring(s.requests, key) <= Count(s.hits, Start1(key))
    ensures Expiring(Next(s, l).requests, key) <= Count(Next(s, l).hits, Start1(key))
  {
    hide Count, Incremented;
    match l
    case Pass(_) =>
    case Arrive(client) => assert Next(s, l).requests[..|s.requests|] == s.requests;
    case Incr(r, reply) =>
      if r < |s.requests| && s.requests[r].Stamped? {
        var n, own := Next(s, l), s.requests[r].key;
        ExpiringUpdate(s.requests, r, n.requests[r], key);
        hide Expiring;
        if reply != Lost {
          var c := Incremented(s, own);
          CountGrows(s.hits, Hit(own, s.requests[r].at, s.now, c.value, reply == Heard), Start1(key));
        }
      }
    case Expire(r, _) =>
      if r < |s.requests| {
        ExpiringUpdate(s.requests, r, Decided, key);
      }
  }

  /** In every run a key is given an expiry at most once for each start of its counter: later increments never
      prolong it. */
  lemma {:induction false} OneExpiryPerStart(start: int, ls: seq<Label>, key: Key)
    ensures Expiring(Run(Start(start), ls).requests, key) <= Starts(Run(Start(start), ls).hits, key)
  {
    if ls != [] {
      hide Next;
      OneExpiryPerStart(start, ls[..|ls| - 1], key);
      ExpiringStep(Run(Start(start), ls[..|ls| - 1]), ls[|ls| - 1], key);
    }
  }

  // ---- The middleware ----

  class Limiter {
    var now: int
    var requests: seq<Phase>
    var counters: map<Key, Counter>
    var hits: seq<Hit>

    function Shared(): State
      reads this
    {
      State(now, requests, counters, hits)
    }

    /** INCR, when the request's own key is its only concern. */
    method Increment(r: nat, reply: Reply) returns (n: nat)
      requires r < |requests| && requests[r].Stamped?
      modifies this`requests, this`counters, this`hits
      ensures Shared() == DoIncr(old(Shared()), r, reply)
      ensures reply != Lost ==> n == Incremented(old(Shared()), old(requests[r].key)).value
    {
      var key, arrived := requests[r].key, requests[r].at;
      requests := requests[r := Decided];
      if reply == Lost {
        return 0;
      }
      n := 1;
      if key in counters && (counters[key].expireAt.None? || now <= counters[key].expireAt.value) {
        n := counters[key].value + 1;
        counters := counters[key := counters[key].(value := n)];
      } else {
        counters := counters[key := Counter(1, None)];
      }
      hits := hits + [Hit(key, arrived, now, n, reply == Heard)];
      if reply == Heard && n == 1 {
        requests := requests[r := MustExpire(key)];
      }
    }

    /** One request with nothing in between; `d1` and `d2` pass before its two calls to Redis. */
    method RateLimitMiddleware(client: nat, perMinute: int, connected: bool, d1: nat, reply: Reply, d2: nat, ok: bool)
      returns (admitted: bool)
      modifies this
      ensures perMinute <= 0 || !connected ==> admitted && Shared() == old(Shared())
      ensures perMinute > 0 && connected ==>
                var r := |old(requests)|;
                && Shared() == Next(Next(Next(Next(Next(old(Shared()), Arrive(client)), Pass(d1)), Incr(r, reply)),
                                         Pass(d2)), Expire(r, ok))
                && (reply != Heard ==> admitted)
                && (reply == Heard ==> |hits| > 0 && admitted == Admitted(hits[|hits| - 1], perMinute))
    {
      if perMinute <= 0 || !connected {
        return true;
      }
      var key, r := (client, MinuteOf(now)), |requests|;
      requests := requests + [Stamped(key, now)];
      now := now + d1;
      var n := Increment(r, reply);
      now := now + d2;
      if reply == Heard && n == 1 {
        requests := requests[r := Decided];
        if ok && Live(Shared(), key) {
          counters := counters[key := counters[key].(expireAt := Some(now + MINUTE))];
        }
      }
      return !(reply == Heard && n > perMinute);
    }
  }
}
