/** HBAR transfer checks (internal/chain/hedera/parse.go, scheme.go). Amounts are exact integers in tinybars. */
module Hedera {
  import opened Results

  datatype Transfer = Transfer(account: string, amount: int)

  // ----- what a transfer list does -----

  function Net(ts: seq<Transfer>, account: string): int {
    if ts == [] then 0
    else Net(ts[..|ts| - 1], account) + if ts[|ts| - 1].account == account then ts[|ts| - 1].amount else 0
  }

  function Total(ts: seq<Transfer>): int {
    if ts == [] then 0 else Total(ts[..|ts| - 1]) + ts[|ts| - 1].amount
  }

  function Debits(ts: seq<Transfer>): (ds: seq<Transfer>)
    ensures |ds| <= |ts|
  {
    if ts == [] then []
    else Debits(ts[..|ts| - 1]) + if ts[|ts| - 1].amount < 0 then [ts[|ts| - 1]] else []
  }

  ghost predicate UniqueAccounts(ts: seq<Transfer>) {
    forall i, j :: 0 <= i < j < |ts| ==> ts[i].account != ts[j].account
  }

  /** One account pays exactly want, payTo receives exactly want, nobody else gains or loses. */
  ghost predicate ExactPayment(ts: seq<Transfer>, payer: string, payTo: string, want: int) {
    && want > 0 && payer != payTo
    && Net(ts, payer) == -want
    && Net(ts, payTo) == want
    && forall a: string :: a != payer && a != payTo ==> Net(ts, a) == 0
  }

  // ----- the checks, in source order -----

  /** The account loop of Parse: approvals, hooks and repeated accounts are refused. */
  datatype RawAmount = RawAmount(account: Option<string>, amount: int, approvalOrHook: bool)

  ghost predicate Plain(aas: seq<RawAmount>) {
    && (forall i :: 0 <= i < |aas| ==> !aas[i].approvalOrHook && aas[i].account.Some?)
    && forall i, j :: 0 <= i < j < |aas| ==> aas[i].account != aas[j].account
  }

  method ParseTransfers(aas: seq<RawAmount>) returns (r: Result<seq<Transfer>>)
    ensures r.Ok? <==> Plain(aas)
    ensures r.Ok? ==> UniqueAccounts(r.value) && |r.value| == |aas|
    ensures r.Ok? ==> forall i :: 0 <= i < |aas| ==> r.value[i] == Transfer(aas[i].account.value, aas[i].amount)
  {
    var seen: set<string> := {};
    var ts: seq<Transfer> := [];
    var i := 0;
    while i < |aas|
      invariant 0 <= i <= |aas| && |ts| == i
      invariant forall k :: 0 <= k < i ==> !aas[k].approvalOrHook && aas[k].account.Some?
      invariant forall k :: 0 <= k < i ==> ts[k] == Transfer(aas[k].account.value, aas[k].amount)
      invariant forall a :: a in seen <==> exists k :: 0 <= k < i && ts[k].account == a
      invariant UniqueAccounts(ts)
      invariant forall j, k :: 0 <= j < k < i ==> aas[j].account != aas[k].account
    {
      var aa := aas[i];
      if aa.approvalOrHook {
        return Err("approved or hooked transfers are not accepted");
      }
      if aa.account.None? || aa.account.value in seen {
        return Err("invalid or repeated transfer account");
      }
      seen := seen + {aa.account.value};
      ts := ts + [Transfer(aa.account.value, aa.amount)];
      i := i + 1;
    }
    r := Ok(ts);
  }

  method NetOf(ts: seq<Transfer>, account: string) returns (sum: int)
    ensures sum == Net(ts, account)
  {
    sum := 0;
    for i := 0 to |ts|
      invariant sum == Net(ts[..i], account)
    {
      assert ts[..i + 1][..i] == ts[..i];
      if ts[i].account == account {
        sum := sum + ts[i].amount;
      }
    }
    assert ts[..|ts|] == ts;
  }

  method SumOf(ts: seq<Transfer>) returns (sum: int)
    ensures sum == Total(ts)
  {
    sum := 0;
    for i := 0 to |ts|
      invariant sum == Total(ts[..i])
    {
      assert ts[..i + 1][..i] == ts[..i];
      sum := sum + ts[i].amount;
    }
    assert ts[..|ts|] == ts;
  }

  /**
   * The amount checks of verify. They accept exactly the lists that move want from one account
   * other than the fee payer to payTo, and then name that account.
   */
  method CheckAmounts(ts: seq<Transfer>, feePayer: string, payTo: string, want: int) returns (r: Result<string>)
    requires UniqueAccounts(ts)
    ensures r.Ok? ==> r.value != feePayer && ExactPayment(ts, r.value, payTo, want)
    ensures (exists payer :: payer != feePayer && ExactPayment(ts, payer, payTo, want)) ==> r.Ok?
  {
    var total := SumOf(ts);
    if total != 0 {
      ExactPaymentMeans(ts, feePayer, payTo, want);
      return Err("invalid_exact_hedera_payload_hbar_sum_non_zero");
    }
    var fee := NetOf(ts, feePayer);
    if fee < 0 {
      return Err("invalid_exact_hedera_payload_fee_payer_transferring_hbar");
    }
    var received := NetOf(ts, payTo);
    if received != want {
      return Err("invalid_exact_hedera_payload_amount_mismatch");
    }
    var i := 0;
    while i < |ts|
      invariant 0 <= i <= |ts|
      invariant forall k :: 0 <= k < i && ts[k].amount > 0 ==> ts[k].account == payTo
    {
      if ts[i].amount > 0 && ts[i].account != payTo {
        NetIsAmount(ts, i);
        return Err("invalid_exact_hedera_payload_extra_positive_transfers");
      }
      i := i + 1;
    }
    var payers: seq<Transfer> := [];
    i := 0;
    while i < |ts|
      invariant 0 <= i <= |ts|
      invariant payers == Debits(ts[..i])
    {
      assert ts[..i + 1][..i] == ts[..i];
      if ts[i].amount < 0 {
        payers := payers + [ts[i]];
      }
      i := i + 1;
    }
    assert ts[..|ts|] == ts;
    if |payers| != 1 {
      ExactPaymentMeans(ts, feePayer, payTo, want);
      return Err("invalid_exact_hedera_payload_multiple_payers");
    }
    OnePayerPaysAll(ts, payTo, want);
    NetIsAmount(ts, IndexOfDebit(ts));
    r := Ok(payers[0].account);
  }

  // ----- why the checks suffice -----

  lemma {:induction false} NetOfAbsent(ts: seq<Transfer>, account: string)
    requires forall i :: 0 <= i < |ts| ==> ts[i].account != account
    ensures Net(ts, account) == 0
  {
    if ts != [] {
      NetOfAbsent(ts[..|ts| - 1], account);
    }
  }

  lemma {:induction false} NetIsAmount(ts: seq<Transfer>, i: nat)
    requires UniqueAccounts(ts) && i < |ts|
    ensures Net(ts, ts[i].account) == ts[i].amount
  {
    var front := ts[..|ts| - 1];
    if i == |ts| - 1 {
      NetOfAbsent(front, ts[i].account);
    } else {
      NetIsAmount(front, i);
    }
  }

  /** The only debit of a list with one debit. */
  ghost function IndexOfDebit(ts: seq<Transfer>): (i: nat)
    requires |Debits(ts)| == 1
    ensures i < |ts| && ts[i].amount < 0 && Debits(ts) == [ts[i]]
    ensures forall k :: 0 <= k < |ts| && k != i ==> ts[k].amount >= 0
  {
    if ts[|ts| - 1].amount < 0 then
      NoDebits(ts[..|ts| - 1]);
      |ts| - 1
    else IndexOfDebit(ts[..|ts| - 1])
  }

  lemma {:induction false} NoDebits(ts: seq<Transfer>)
    ensures Debits(ts) == [] <==> forall k :: 0 <= k < |ts| ==> ts[k].amount >= 0
  {
    if ts != [] {
      NoDebits(ts[..|ts| - 1]);
    }
  }

  /** If at most positions i and j differ from zero, they make up the whole total. */
  lemma {:induction false} TotalOfTwo(ts: seq<Transfer>, i: nat, j: nat)
    requires i < |ts| && j < |ts| && i != j
    requires forall k :: 0 <= k < |ts| && k != i && k != j ==> ts[k].amount == 0
    ensures Total(ts) == ts[i].amount + ts[j].amount
  {
    var last := |ts| - 1;
    if last == i {
      TotalOfOne(ts[..last], j);
    } else if last == j {
      TotalOfOne(ts[..last], i);
    } else {
      TotalOfTwo(ts[..last], i, j);
    }
  }

  lemma {:induction false} TotalOfOne(ts: seq<Transfer>, i: nat)
    requires i < |ts|
    requires forall k :: 0 <= k < |ts| && k != i ==> ts[k].amount == 0
    ensures Total(ts) == ts[i].amount
  {
    var last := |ts| - 1;
    if last == i {
      TotalOfNone(ts[..last]);
    } else {
      TotalOfOne(ts[..last], i);
    }
  }

  lemma {:induction false} TotalOfNone(ts: seq<Transfer>)
    requires forall k :: 0 <= k < |ts| ==> ts[k].amount == 0
    ensures Total(ts) == 0
  {
    if ts != [] {
      TotalOfNone(ts[..|ts| - 1]);
    }
  }

  lemma {:induction false} SignOfTotal(ts: seq<Transfer>)
    ensures (forall k :: 0 <= k < |ts| ==> ts[k].amount <= 0) && Debits(ts) != [] ==> Total(ts) < 0
    ensures (forall k :: 0 <= k < |ts| ==> ts[k].amount <= 0) ==> Total(ts) <= 0
  {
    if ts != [] {
      SignOfTotal(ts[..|ts| - 1]);
    }
  }

  /**
   * Conservation: a zero-sum list whose only gains are payTo's want and whose debits are one entry
   * takes exactly want from that entry's account and leaves every other account alone.
   */
  lemma OnePayerPaysAll(ts: seq<Transfer>, payTo: string, want: int)
    requires UniqueAccounts(ts) && Total(ts) == 0 && Net(ts, payTo) == want
    requires forall k :: 0 <= k < |ts| && ts[k].amount > 0 ==> ts[k].account == payTo
    requires |Debits(ts)| == 1
    ensures ExactPayment(ts, Debits(ts)[0].account, payTo, want)
  {
    var d := IndexOfDebit(ts);
    SignOfTotal(ts);
    var g :| 0 <= g < |ts| && ts[g].amount > 0;
    NetIsAmount(ts, g);
    NetIsAmount(ts, d);
    TotalOfTwo(ts, d, g);
    forall a: string | a != ts[d].account && a != payTo ensures Net(ts, a) == 0 {
      if i :| 0 <= i < |ts| && ts[i].account == a {
        NetIsAmount(ts, i);
      } else {
        NetOfAbsent(ts, a);
      }
    }
  }

  lemma NetNonzeroHasEntry(ts: seq<Transfer>, a: string) returns (i: nat)
    requires UniqueAccounts(ts) && Net(ts, a) != 0
    ensures i < |ts| && ts[i].account == a && ts[i].amount == Net(ts, a)
  {
    if forall k :: 0 <= k < |ts| ==> ts[k].account != a {
      NetOfAbsent(ts, a);
    }
    i :| 0 <= i < |ts| && ts[i].account == a;
    NetIsAmount(ts, i);
  }

  /** Conversely, an exact payment sums to zero and has one debit, so the checks let it through. */
  lemma ExactPaymentMeans(ts: seq<Transfer>, feePayer: string, payTo: string, want: int)
    requires UniqueAccounts(ts)
    ensures (exists payer :: payer != feePayer && ExactPayment(ts, payer, payTo, want)) ==>
              Total(ts) == 0 && |Debits(ts)| == 1
  {
    if payer :| payer != feePayer && ExactPayment(ts, payer, payTo, want) {
      var d := NetNonzeroHasEntry(ts, payer);
      var g := NetNonzeroHasEntry(ts, payTo);
      forall k | 0 <= k < |ts| && k != d && k != g ensures ts[k].amount == 0 {
        NetIsAmount(ts, k);
      }
      TotalOfTwo(ts, d, g);
      OneDebit(ts, d);
    }
  }

  lemma {:induction false} OneDebit(ts: seq<Transfer>, d: nat)
    requires d < |ts| && ts[d].amount < 0
    requires forall k :: 0 <= k < |ts| && k != d ==> ts[k].amount >= 0
    ensures Debits(ts) == [ts[d]]
  {
    var last := |ts| - 1;
    if last == d {
      NoDebits(ts[..last]);
    } else {
      OneDebit(ts[..last], d);
    }
  }
}
