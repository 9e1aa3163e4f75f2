/** Per-account balances and the total they add up to. */
module Balances {
  import opened Words

  type Accounts = map<Address, u64>

  function Balance(m: Accounts, a: Address): u64 {
    if a in m then m[a] else 0
  }

  /** Add to a balance, creating the account when it is missing. */
  function Credit(m: Accounts, a: Address, amount: u64): Result<Accounts> {
    if Balance(m, a) + amount <= MAX_U64 then Ok(m[a := Balance(m, a) + amount]) else Err(InvalidBalance)
  }

  /** Take from a balance; an account that reaches zero is removed, a missing one cannot pay at all. */
  function Debit(m: Accounts, a: Address, amount: u64): Result<Accounts> {
    if a !in m || m[a] < amount then Err(InvalidBalance)
    else if m[a] == amount then Ok(m - {a})
    else Ok(m[a := m[a] - amount])
  }

  ghost function Total(m: Accounts): nat
    decreases |m|
  {
    if m == map[] then 0
    else
      var a :| a in m;
      m[a] + Total(m - {a})
  }

  /** Any account may be counted first. */
  lemma {:induction false} TotalSplit(m: Accounts, a: Address)
    requires a in m
    ensures Total(m) == m[a] + Total(m - {a})
    decreases |m|
  {
    var b :| b in m && Total(m) == m[b] + Total(m - {b});
    if a != b {
      TotalSplit(m - {b}, a);
      TotalSplit(m - {a}, b);
      assert m - {a} - {b} == m - {b} - {a};
    }
  }

  lemma TotalSet(m: Accounts, a: Address, v: u64)
    ensures Total(m[a := v]) == Total(m) - Balance(m, a) + v
  {
    var n := m[a := v];
    TotalSplit(n, a);
    assert n - {a} == m - {a};
    if a in m { TotalSplit(m, a); } else { assert m - {a} == m; }
  }

  lemma BalanceWithinTotal(m: Accounts, a: Address)
    ensures Balance(m, a) <= Total(m)
  {
    if a in m { TotalSplit(m, a); }
  }

  /** A credit raises the total by its amount, and fits whenever the new total does. */
  lemma CreditTotal(m: Accounts, a: Address, amount: u64)
    ensures Credit(m, a, amount).Ok? ==> Total(Credit(m, a, amount).value) == Total(m) + amount
    ensures Total(m) + amount <= MAX_U64 ==> Credit(m, a, amount).Ok?
  {
    BalanceWithinTotal(m, a);
    if Credit(m, a, amount).Ok? { TotalSet(m, a, Balance(m, a) + amount); }
  }

  /** A debit lowers the total by its amount. */
  lemma DebitTotal(m: Accounts, a: Address, amount: u64)
    ensures Debit(m, a, amount).Ok? ==> Total(Debit(m, a, amount).value) == Total(m) - amount
    ensures Debit(m, a, amount).Ok? ==> amount <= Balance(m, a) <= Total(m)
  {
    BalanceWithinTotal(m, a);
    if a in m && amount <= m[a] {
      TotalSplit(m, a);
      TotalSet(m, a, m[a] - amount);
    }
  }

  /** A debit needs a covering account, takes the amount from it alone, and removes it exactly when nothing is left. */
  lemma DebitExact(m: Accounts, a: Address, amount: u64, b: Address)
    ensures Debit(m, a, amount).Ok? <==> a in m && amount <= m[a]
    ensures Debit(m, a, amount).Ok? ==>
              var n := Debit(m, a, amount).value;
              && (b in n <==> b in m && (b == a ==> amount < m[a]))
              && (b in n ==> n[b] == m[b] - if b == a then amount else 0)
  {
  }

  /** A credit needs a sum that fits a word, and adds the amount to one account, which is there afterwards. */
  lemma CreditExact(m: Accounts, a: Address, amount: u64, b: Address)
    ensures Credit(m, a, amount).Ok? <==> (if a in m then m[a] as int else 0) + amount < TWO_64
    ensures Credit(m, a, amount).Ok? ==>
              var n := Credit(m, a, amount).value;
              && (b in n <==> b in m || b == a)
              && (b in n ==> n[b] == (if b in m then m[b] as int else 0) + if b == a then amount else 0)
  {
  }
}
