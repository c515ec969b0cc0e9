/** Wallet rows, ledger entries and addLedger, the one primitive that moves credits. */
module Credits {

  datatype Option<+T> = None | Some(value: T)

  const MAX_INT64: int := 0x7fff_ffff_ffff_ffff
  const MIN_INT64: int := -0x8000_0000_0000_0000

  predicate IsInt64(n: int) {
    MIN_INT64 <= n <= MAX_INT64
  }

  /** The range of an INT column. */
  predicate IsInt32(n: int) {
    -0x8000_0000 <= n <= 0x7fff_ffff
  }

  /** Two's-complement wrap-around of Go's int64 addition. */
  function Wrap64(n: int): (r: int)
    ensures IsInt64(r)
    ensures IsInt64(n) ==> r == n
  {
    (n - MIN_INT64) % 0x1_0000_0000_0000_0000 + MIN_INT64
  }

  datatype EntryType =
    | Grant | Reserve | ReleaseReserve | DebitUsage | CreditProviderReward | AdminAdjustment

  /** What a caller asks addLedger for: two deltas. */
  datatype Op = Op(kind: EntryType, amount: int, reservedDelta: int)

  /** One row of wallet_ledger. */
  datatype Entry = Entry(op: Op, balanceAfter: int, reservedAfter: int)

  /** A wallets row together with its ledger rows in commit order. */
  datatype Account = Account(balance: int, reserved: int, ledger: seq<Entry>)

  const NEW_ACCOUNT := Account(0, 0, [])

  /** addLedger on the locked row: add with wrap-around, refuse negative results, write and append. */
  function AddLedger(a: Account, op: Op): Option<Account> {
    var balance := Wrap64(a.balance + op.amount);
    var reserved := Wrap64(a.reserved + op.reservedDelta);
    if balance < 0 || reserved < 0 then None
    else Some(Account(balance, reserved, a.ledger + [Entry(op, balance, reserved)]))
  }

  /** The addLedger calls of one transaction on one wallet, all or nothing. */
  function RunOps(a: Account, ops: seq<Op>): Option<Account> {
    if ops == [] then Some(a)
    else
      var r := RunOps(a, ops[..|ops| - 1]);
      if r.None? then None else AddLedger(r.value, ops[|ops| - 1])
  }

  // ---- What a ledger says ----

  function SumAmounts(ledger: seq<Entry>): int {
    if ledger == [] then 0
    else SumAmounts(ledger[..|ledger| - 1]) + ledger[|ledger| - 1].op.amount
  }

  function SumReserved(ledger: seq<Entry>): int {
    if ledger == [] then 0
    else SumReserved(ledger[..|ledger| - 1]) + ledger[|ledger| - 1].op.reservedDelta
  }

  predicate IsOp(op: Op) {
    IsInt64(op.amount) && IsInt64(op.reservedDelta)
  }

  predicate InRange(a: Account) {
    0 <= a.balance <= MAX_INT64 && 0 <= a.reserved <= MAX_INT64
  }

  /** Entry k records the running totals over the ledger up to and including k. */
  predicate EntryIsPrefixSum(ledger: seq<Entry>, k: nat)
    requires k < |ledger|
  {
    && ledger[k].balanceAfter == SumAmounts(ledger[..k + 1])
    && ledger[k].reservedAfter == SumReserved(ledger[..k + 1])
    && ledger[k].balanceAfter >= 0
    && ledger[k].reservedAfter >= 0
  }

  /** Replaying the ledger from zero gives the row, through non-negative prefixes only. */
  ghost predicate Replays(a: Account) {
    && a.balance == SumAmounts(a.ledger)
    && a.reserved == SumReserved(a.ledger)
    && forall k :: 0 <= k < |a.ledger| ==> EntryIsPrefixSum(a.ledger, k)
  }

  ghost predicate Sound(a: Account) {
    InRange(a) && Replays(a)
  }

  /** The sign test after the wrapping addition is an exact overflow check: an operation is
      accepted if and only if both true sums are non-negative and fit in 64 bits, and then
      nothing wrapped. */
  lemma AddLedgerAccepts(a: Account, op: Op)
    requires InRange(a) && IsOp(op)
    ensures AddLedger(a, op).Some? <==>
            0 <= a.balance + op.amount <= MAX_INT64 && 0 <= a.reserved + op.reservedDelta <= MAX_INT64
    ensures AddLedger(a, op).Some? ==>
            var b := AddLedger(a, op).value;
            b.balance == a.balance + op.amount && b.reserved == a.reserved + op.reservedDelta && InRange(b)
  {
  }

  /** The new entry records the new row. */
  lemma NewEntrySound(a: Account, op: Op)
    requires Sound(a) && IsOp(op) && AddLedger(a, op).Some?
    ensures var b := AddLedger(a, op).value;
            && |b.ledger| == |a.ledger| + 1 && a.ledger <= b.ledger && InRange(b)
            && b.balance == SumAmounts(b.ledger) && b.reserved == SumReserved(b.ledger)
            && EntryIsPrefixSum(b.ledger, |a.ledger|)
  {
    hide Wrap64;
    AddLedgerAccepts(a, op);
    var b := AddLedger(a, op).value;
    assert b.ledger[..|a.ledger|] == a.ledger && b.ledger[..|a.ledger| + 1] == b.ledger;
  }

  lemma AddLedgerSound(a: Account, op: Op)
    requires Sound(a) && IsOp(op) && AddLedger(a, op).Some?
    ensures Sound(AddLedger(a, op).value)
  {
    NewEntrySound(a, op);
    var b := AddLedger(a, op).value;
    hide AddLedger, EntryIsPrefixSum;
    forall k | 0 <= k < |b.ledger|
      ensures EntryIsPrefixSum(b.ledger, k)
    {
      if k < |a.ledger| {
        PrefixOfLonger(a.ledger, b.ledger, k);
      }
    }
  }

  lemma PrefixOfLonger(short: seq<Entry>, long: seq<Entry>, k: nat)
    requires short <= long && k < |short| && EntryIsPrefixSum(short, k)
    ensures EntryIsPrefixSum(long, k)
  {
    assert long[..k + 1] == short[..k + 1];
  }

  lemma AddLedgerAppends(a: Account, op: Op)
    requires AddLedger(a, op).Some?
    ensures var b := AddLedger(a, op).value;
            a.ledger <= b.ledger && |b.ledger| == |a.ledger| + 1 && b.ledger[|a.ledger|].op == op
  {
    hide Wrap64;
  }

  /** Every accepted transaction keeps the wallet in range and its ledger replayable, moves the row
      by the sum of its deltas, and only appends to the ledger. */
  lemma {:induction false} RunOpsSound(a: Account, ops: seq<Op>)
    requires Sound(a) && RunOps(a, ops).Some? && forall k :: 0 <= k < |ops| ==> IsOp(ops[k])
    ensures Sound(RunOps(a, ops).value)
    ensures var b := RunOps(a, ops).value;
            && a.ledger <= b.ledger
            && |b.ledger| == |a.ledger| + |ops|
            && forall k :: 0 <= k < |ops| ==> b.ledger[|a.ledger| + k].op == ops[k]
  {
    hide AddLedger, Sound;
    if ops != [] {
      var init := ops[..|ops| - 1];
      RunOpsSound(a, init);
      AddLedgerAppends(RunOps(a, init).value, ops[|ops| - 1]);
      AddLedgerSound(RunOps(a, init).value, ops[|ops| - 1]);
    }
  }

  lemma {:induction false} RunOpsAppend(a: Account, p: seq<Op>, q: seq<Op>)
    ensures RunOps(a, p + q) ==
            if RunOps(a, p).None? then None else RunOps(RunOps(a, p).value, q)
  {
    if q == [] {
      assert p + q == p;
    } else {
      assert (p + q)[..|p + q| - 1] == p + q[..|q| - 1];
      RunOpsAppend(a, p, q[..|q| - 1]);
    }
  }
}
