/** The balance ledger: balances, allowances, total supply and the holder
    registry, with the credit/debit primitives every value-moving operation
    of the token is built from. */
module BalanceLedger {
  import opened Base

  /** Balances and allowances default to 0 for absent keys; allowances are
      keyed by (owner, spender). `holders` is the append-only registry of
      every address that has ever been credited a positive amount, in the
      order of first credit. */
  datatype Ledger = Ledger(
    balances: map<Address, nat>,
    allowances: map<(Address, Address), nat>,
    totalSupply: nat,
    holders: seq<Address>)

  const Empty: Ledger := Ledger(map[], map[], 0, [])

  function BalanceOf(l: Ledger, a: Address): nat {
    if a in l.balances then l.balances[a] else 0
  }

  function AllowanceOf(l: Ledger, owner: Address, spender: Address): nat {
    if (owner, spender) in l.allowances then l.allowances[(owner, spender)] else 0
  }

  predicate NoDup(s: seq<Address>) {
    forall i, j :: 0 <= i < j < |s| ==> s[i] != s[j]
  }

  /** Some key of a non-empty map; Sum peels keys off in this order. */
  ghost function Pick(m: map<Address, nat>): (k: Address)
    requires m != map[]
    ensures k in m
  {
    assert m.Keys != {};
    var k :| k in m.Keys; k
  }

  /** The sum of all balances. */
  ghost function Sum(m: map<Address, nat>): nat
    decreases m.Keys
  {
    if m == map[] then 0
    else
      var k := Pick(m);
      m[k] + Sum(m - {k})
  }

  /** Any key may be peeled off first: the sum does not depend on the order
      Pick happens to choose. */
  lemma {:induction false} SumRemove(m: map<Address, nat>, k: Address)
    requires k in m
    ensures Sum(m) == m[k] + Sum(m - {k})
    decreases m.Keys
  {
    var j := Pick(m);
    if j != k {
      var mj := m - {j};
      var mk := m - {k};
      SumRemove(mj, k);
      SumRemove(mk, j);
      assert mj - {k} == mk - {j};
    }
  }

  /** Overwriting one entry changes the sum by exactly the difference. */
  lemma SumUpdate(m: map<Address, nat>, k: Address, v: nat)
    ensures Sum(m[k := v]) == Sum(m) - (if k in m then m[k] else 0) + v
  {
    var m' := m[k := v];
    SumRemove(m', k);
    assert m' - {k} == m - {k};
    if k in m {
      SumRemove(m, k);
    } else {
      assert m - {k} == m;
    }
  }

  /** No single balance exceeds the sum of all balances. */
  lemma BalanceAtMostSum(l: Ledger, a: Address)
    ensures BalanceOf(l, a) <= Sum(l.balances)
  {
    if a in l.balances {
      SumRemove(l.balances, a);
    }
  }

  /** The ledger invariant: supply is the sum of balances and fits in a
      word, every allowance fits in a word, the registry has no duplicates
      and lists every address that currently holds a positive balance. */
  ghost predicate Consistent(l: Ledger) {
    && l.totalSupply == Sum(l.balances)
    && l.totalSupply < TWO_256
    && NoDup(l.holders)
    && (forall a :: BalanceOf(l, a) > 0 ==> a in l.holders)
    && (forall p :: p in l.allowances ==> l.allowances[p] < TWO_256)
  }

  lemma EmptyConsistent()
    ensures Consistent(Empty)
  {
  }

  /** In a valid ledger every balance is a 256-bit word. */
  lemma ConsistentBalanceBounded(l: Ledger, a: Address)
    requires Consistent(l)
    ensures BalanceOf(l, a) <= l.totalSupply < TWO_256
  {
    BalanceAtMostSum(l, a);
  }

  /** The holder-registry primitive: append `a` when it receives a positive
      amount and is not listed yet; otherwise leave the registry alone. */
  function Register(holders: seq<Address>, a: Address, v: nat): (r: seq<Address>)
    ensures forall b :: b in r <==> b in holders || (b == a && v > 0)
    ensures |r| == |holders| + 1 <==> v > 0 && a !in holders
    ensures r == holders || r == holders + [a]
    ensures NoDup(holders) ==> NoDup(r)
  {
    if v > 0 && a !in holders then holders + [a] else holders
  }

  /** Add `v` to the balance of `to` (supply untouched) and register `to`. */
  function Credit(l: Ledger, to: Address, v: nat): (r: Ledger)
    ensures BalanceOf(r, to) == BalanceOf(l, to) + v
    ensures forall a :: a != to ==> BalanceOf(r, a) == BalanceOf(l, a)
    ensures Sum(r.balances) == Sum(l.balances) + v
    ensures r.totalSupply == l.totalSupply && r.allowances == l.allowances
    ensures r.holders == Register(l.holders, to, v)
  {
    SumUpdate(l.balances, to, BalanceOf(l, to) + v);
    l.(balances := l.balances[to := BalanceOf(l, to) + v],
       holders := Register(l.holders, to, v))
  }

  /** Three credits in a row add up per address. */
  lemma CreditThrice(l: Ledger, a1: Address, v1: nat, a2: Address, v2: nat, a3: Address, v3: nat, x: Address)
    ensures BalanceOf(Credit(Credit(Credit(l, a1, v1), a2, v2), a3, v3), x)
            == BalanceOf(l, x) + (if x == a1 then v1 else 0) + (if x == a2 then v2 else 0) + (if x == a3 then v3 else 0)
  {
  }

  /** Take `v` from the balance of `from` (supply and registry untouched). */
  function Debit(l: Ledger, from: Address, v: nat): (r: Ledger)
    requires v <= BalanceOf(l, from)
    ensures BalanceOf(r, from) + v == BalanceOf(l, from)
    ensures forall a :: a != from ==> BalanceOf(r, a) == BalanceOf(l, a)
    ensures Sum(r.balances) + v == Sum(l.balances)
    ensures r.totalSupply == l.totalSupply && r.allowances == l.allowances
    ensures r.holders == l.holders
  {
    SumUpdate(l.balances, from, BalanceOf(l, from) - v);
    l.(balances := l.balances[from := BalanceOf(l, from) - v])
  }

  /** Move `v` from `from` to `to`: the debit happens first, so a transfer
      to oneself leaves the balance where it was. */
  function Move(l: Ledger, from: Address, to: Address, v: nat): (r: Ledger)
    requires v <= BalanceOf(l, from)
    ensures from != to ==> BalanceOf(r, from) + v == BalanceOf(l, from)
    ensures from != to ==> BalanceOf(r, to) == BalanceOf(l, to) + v
    ensures from == to ==> BalanceOf(r, from) == BalanceOf(l, from)
    ensures forall a :: a != from && a != to ==> BalanceOf(r, a) == BalanceOf(l, a)
    ensures Sum(r.balances) == Sum(l.balances)
    ensures r.totalSupply == l.totalSupply && r.allowances == l.allowances
    ensures r.holders == Register(l.holders, to, v)
  {
    Credit(Debit(l, from, v), to, v)
  }

  /** Mint: credit `to` and grow the supply by the same amount. */
  function Issue(l: Ledger, to: Address, v: nat): (r: Ledger)
    ensures BalanceOf(r, to) == BalanceOf(l, to) + v
    ensures forall a :: a != to ==> BalanceOf(r, a) == BalanceOf(l, a)
    ensures r.totalSupply == l.totalSupply + v
    ensures Sum(r.balances) - r.totalSupply == Sum(l.balances) - l.totalSupply
    ensures r.allowances == l.allowances
    ensures r.holders == Register(l.holders, to, v)
  {
    var c := Credit(l, to, v);
    c.(totalSupply := l.totalSupply + v)
  }

  /** Burn: debit `from` and shrink the supply by the same amount. */
  function Destroy(l: Ledger, from: Address, v: nat): (r: Ledger)
    requires v <= BalanceOf(l, from) && v <= l.totalSupply
    ensures BalanceOf(r, from) + v == BalanceOf(l, from)
    ensures forall a :: a != from ==> BalanceOf(r, a) == BalanceOf(l, a)
    ensures r.totalSupply + v == l.totalSupply
    ensures Sum(r.balances) - r.totalSupply == Sum(l.balances) - l.totalSupply
    ensures r.allowances == l.allowances && r.holders == l.holders
  {
    var d := Debit(l, from, v);
    d.(totalSupply := l.totalSupply - v)
  }

  /** Overwrite the allowance `owner` grants `spender`. */
  function SetAllowance(l: Ledger, owner: Address, spender: Address, v: nat): (r: Ledger)
    ensures AllowanceOf(r, owner, spender) == v
    ensures forall o: Address, sp: Address :: (o, sp) != (owner, spender) ==> AllowanceOf(r, o, sp) == AllowanceOf(l, o, sp)
    ensures r.balances == l.balances && r.totalSupply == l.totalSupply && r.holders == l.holders
  {
    l.(allowances := l.allowances[(owner, spender) := v])
  }

  /** Every positive balance is listed, the registry has no duplicate and
      the registry only grows: these survive a registering credit. */
  lemma {:induction false} RegistryKeptByCredit(l: Ledger, r: Ledger, to: Address, v: nat)
    requires NoDup(l.holders)
    requires forall a :: BalanceOf(l, a) > 0 ==> a in l.holders
    requires r.holders == Register(l.holders, to, v)
    requires BalanceOf(r, to) <= BalanceOf(l, to) + v
    requires forall a :: a != to ==> BalanceOf(r, a) <= BalanceOf(l, a)
    ensures NoDup(r.holders)
    ensures forall a :: BalanceOf(r, a) > 0 ==> a in r.holders
  {
    forall a | BalanceOf(r, a) > 0
      ensures a in r.holders
    {
      if a != to {
        assert BalanceOf(l, a) > 0;
      }
    }
  }

  lemma IssueKeepsConsistent(l: Ledger, to: Address, v: nat)
    requires Consistent(l)
    requires l.totalSupply + v < TWO_256
    ensures Consistent(Issue(l, to, v))
  {
    var r := Issue(l, to, v);
    RegistryKeptByCredit(l, r, to, v);
  }

  lemma MoveKeepsConsistent(l: Ledger, from: Address, to: Address, v: nat)
    requires Consistent(l)
    requires v <= BalanceOf(l, from)
    ensures Consistent(Move(l, from, to, v))
  {
    var r := Move(l, from, to, v);
    if from == to {
      RegistryKeptByCredit(l, r, to, 0);
    } else {
      RegistryKeptByCredit(l, r, to, v);
    }
  }

  lemma DestroyKeepsConsistent(l: Ledger, from: Address, v: nat)
    requires Consistent(l)
    requires v <= BalanceOf(l, from) && v <= l.totalSupply
    ensures Consistent(Destroy(l, from, v))
  {
    var r := Destroy(l, from, v);
    RegistryKeptByCredit(l, r, from, 0);
  }

  lemma SetAllowanceKeepsConsistent(l: Ledger, owner: Address, spender: Address, v: nat)
    requires Consistent(l)
    requires v < TWO_256
    ensures Consistent(SetAllowance(l, owner, spender, v))
  {
    var r := SetAllowance(l, owner, spender, v);
    assert forall a :: BalanceOf(r, a) == BalanceOf(l, a);
  }
}
