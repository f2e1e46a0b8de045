/** The per-breeding-count tables (BUSD fee, SING fee, cooldown) and the fee ledger. */
module FeeSchedule {
  import opened Passes

  /** The default entry for tier i that resizing the tables fills in. */
  datatype Tier = Tier(busdFee: nat, singFee: nat, cooldown: nat)

  /** `table` resized to `n` entries: entries below both lengths are kept, entries past
      the old length take `fill(i)`. */
  function Resized(table: seq<nat>, n: nat, fill: nat -> nat): seq<nat>
  {
    seq(n, i requires 0 <= i < n => if i < |table| then table[i] else fill(i))
  }

  /** Growing keeps every existing entry and appends the defaults. */
  lemma GrowKeeps(table: seq<nat>, n: nat, fill: nat -> nat)
    requires |table| <= n
    ensures Resized(table, n, fill) == table + seq(n - |table|, j requires 0 <= j < n - |table| => fill(|table| + j))
  {
  }

  /** Shrinking then growing does not bring the dropped entries back: every entry from
      the shrunk length on is the default again. */
  lemma ShrinkThenGrow(table: seq<nat>, m: nat, n: nat, fill: nat -> nat)
    requires m <= |table| && m <= n
    ensures Resized(Resized(table, m, fill), n, fill)
         == table[..m] + seq(n - m, j requires 0 <= j < n - m => fill(m + j))
  {
  }

  /** Resizes one table: the result is the table truncated to `n` entries, followed by
      `fill(i)` for each new index i until it has `n`. */
  method ResizeTable(table: seq<nat>, n: nat, fill: nat -> nat) returns (t: seq<nat>)
    ensures t == Resized(table, n, fill)
  {
    t := if n < |table| then table[..n] else table;
    var i := |t|;
    while i < n
      invariant |t| == i <= n || (n < |table| && i == n)
      invariant t == Resized(table, i, fill)
    {
      t := t + [fill(i)];
      i := i + 1;
    }
  }

  /** The token balance of `a` in a balance map (absent means 0). */
  function Balance(balances: map<Address, nat>, a: Address): nat
  {
    if a in balances then balances[a] else 0
  }

  /** An ERC20 transfer of `amount` from `from` to `to`. The payer loses exactly what
      the payee gains and no other balance changes. */
  function Transfer(balances: map<Address, nat>, from: Address, to: Address, amount: nat): (r: map<Address, nat>)
    requires amount <= Balance(balances, from)
    ensures from != to ==> Balance(r, from) == Balance(balances, from) - amount
    ensures from != to ==> Balance(r, to) == Balance(balances, to) + amount
    ensures from == to ==> Balance(r, from) == Balance(balances, from)
    ensures forall a :: a != from && a != to ==> Balance(r, a) == Balance(balances, a)
  {
    var debited := balances[from := Balance(balances, from) - amount];
    debited[to := Balance(debited, to) + amount]
  }
}
