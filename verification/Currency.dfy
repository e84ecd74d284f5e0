/**
 The currency both pallets pay with: a ledger of free balances. A transfer moves exactly the amount or
 changes nothing; a sender that may die and falls below the existential deposit leaves dust, which is burned.
 */
module Currency {
  import opened Prelude
  import opened Sums

  type Ledger = map<AccountId, u128>

  /** `AllowDeath` lets the sender fall below the existential deposit, and then it loses what is left;
      `KeepAlive` does not. */
  datatype Existence = KeepAlive | AllowDeath

  function Free(l: Ledger, a: AccountId): u128 {
    GetOr(l, a, 0)
  }

  /** The sender's side of a transfer: enough funds, and enough left over. */
  predicate Affordable(ed: nat, l: Ledger, from: AccountId, amount: nat, mode: Existence) {
    amount <= Free(l, from) && (mode.KeepAlive? ==> ed <= Free(l, from) - amount)
  }

  /** The receiver's side: the new balance is a live account's balance and fits its type. */
  predicate Receivable(ed: nat, l: Ledger, to: AccountId, amount: nat) {
    ed <= Free(l, to) + amount && Fits(Free(l, to) + amount)
  }

  predicate Transferable(ed: nat, l: Ledger, from: AccountId, to: AccountId, amount: nat, mode: Existence) {
    amount == 0 || from == to || (Affordable(ed, l, from, amount, mode) && Receivable(ed, l, to, amount))
  }

  /** What is burned of a sender that a transfer leaves with less than the existential deposit. */
  function Dust(ed: nat, l: Ledger, from: AccountId, to: AccountId, amount: nat, mode: Existence): (d: nat)
    ensures mode.KeepAlive? ==> d == 0
    ensures ed <= Free(l, from) - amount ==> d == 0
  {
    if mode.AllowDeath? && amount != 0 && from != to && Transferable(ed, l, from, to, amount, mode)
       && Free(l, from) - amount < ed
    then Free(l, from) - amount else 0
  }

  /** `let _ = Currency::transfer(..)`: the result of the transfer is thrown away. */
  function Transfer(ed: nat, l: Ledger, from: AccountId, to: AccountId, amount: nat, mode: Existence): (r: Ledger)
    ensures !Transferable(ed, l, from, to, amount, mode) ==> r == l
    ensures Transferable(ed, l, from, to, amount, mode) && from != to ==>
              Free(r, from) == Free(l, from) - amount - Dust(ed, l, from, to, amount, mode)
              && Free(r, to) == Free(l, to) + amount
    ensures from == to ==> r == l
    ensures forall a :: a != from && a != to ==> Free(r, a) == Free(l, a)
    ensures Free(l, to) <= Free(r, to) || from == to
  {
    if amount == 0 || from == to || !Transferable(ed, l, from, to, amount, mode) then l
    else l[from := Free(l, from) - amount - Dust(ed, l, from, to, amount, mode)][to := Free(l, to) + amount]
  }

  ghost function TotalIssuance(l: Ledger): nat {
    SumMap(l)
  }

  /** No transfer creates currency, and none destroys any but the dust. */
  lemma TransferConservesIssuance(ed: nat, l: Ledger, from: AccountId, to: AccountId, amount: nat, mode: Existence)
    ensures TotalIssuance(Transfer(ed, l, from, to, amount, mode))
            == TotalIssuance(l) - Dust(ed, l, from, to, amount, mode)
  {
    if amount != 0 && from != to && Transferable(ed, l, from, to, amount, mode) {
      var rest := Free(l, from) - amount - Dust(ed, l, from, to, amount, mode);
      var l1 := l[from := rest];
      SumMapUpdate(l, from, rest);
      SumMapUpdate(l1, to, Free(l, to) + amount);
    }
  }

  /** No account holds less than the existential deposit, unless it holds nothing. */
  ghost predicate NoDust(ed: nat, l: Ledger) {
    forall a :: Free(l, a) == 0 || ed <= Free(l, a)
  }

  /** Every transfer keeps it so. */
  lemma TransferKeepsNoDust(ed: nat, l: Ledger, from: AccountId, to: AccountId, amount: nat, mode: Existence)
    requires NoDust(ed, l)
    ensures NoDust(ed, Transfer(ed, l, from, to, amount, mode))
  {
    forall a: AccountId
      ensures Free(Transfer(ed, l, from, to, amount, mode), a) == 0
              || ed <= Free(Transfer(ed, l, from, to, amount, mode), a)
    {
      assert Free(l, a) == 0 || ed <= Free(l, a);
    }
  }
}
