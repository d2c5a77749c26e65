/** A wallet record as the scene code reads it. The scene receives both kinds
    of records of the loader and reads `amount`, `fartAmount` and
    `goatAmount` off either; a field the record does not have is
    `undefined`, written NaN here. */
module WalletRecords {
  import opened JsNumber
  import opened DataLoader

  datatype Wallet = Wallet(address: string, amount: Num, fartAmount: Num, goatAmount: Num)

  function FromHolder(e: HolderEntry): (w: Wallet)
    ensures w.address == e.address && w.amount == e.amount
    ensures w.fartAmount.NaN? && w.goatAmount.NaN?
  {
    Wallet(e.address, e.amount, NaN, NaN)
  }

  function FromShared(e: SharedEntry): (w: Wallet)
    ensures w.address == e.address && w.amount.NaN?
    ensures w.fartAmount == e.fartAmount && w.goatAmount == e.goatAmount
  {
    Wallet(e.address, NaN, e.fartAmount, e.goatAmount)
  }

  function Holders(entries: seq<HolderEntry>): (ws: seq<Wallet>)
    ensures |ws| == |entries|
    ensures forall i :: 0 <= i < |entries| ==> ws[i] == FromHolder(entries[i])
  {
    seq(|entries|, i requires 0 <= i < |entries| => FromHolder(entries[i]))
  }

  function SharedWallets(entries: seq<SharedEntry>): (ws: seq<Wallet>)
    ensures |ws| == |entries|
    ensures forall i :: 0 <= i < |entries| ==> ws[i] == FromShared(entries[i])
  {
    seq(|entries|, i requires 0 <= i < |entries| => FromShared(entries[i]))
  }

  /** `wallet.amount || (wallet.fartAmount + wallet.goatAmount)` */
  function AmountOrSum(w: Wallet): (a: Num)
    ensures Truthy(w.amount) ==> a == w.amount
    ensures !Truthy(w.amount) ==> a == Add(w.fartAmount, w.goatAmount)
  {
    if Truthy(w.amount) then w.amount else Add(w.fartAmount, w.goatAmount)
  }

  /** `wallet.amount || 0` */
  function AmountOrZero(w: Wallet): (a: Num)
    ensures Truthy(w.amount) ==> a == w.amount
    ensures !Truthy(w.amount) ==> a == Fin(0.0)
    ensures !a.NaN?
  {
    if Truthy(w.amount) then w.amount else Fin(0.0)
  }

  /** The shared wallets carry their combined holding as their amount, and a
      holder with a non-zero amount carries that amount; a holder whose amount
      is 0 ends up with NaN, since it falls through to the sum of two absent
      fields. */
  lemma AmountOrSumCases(e: HolderEntry, s: SharedEntry)
    ensures AmountOrSum(FromShared(s)) == Add(s.fartAmount, s.goatAmount)
    ensures e.amount != Fin(0.0) && !e.amount.NaN? ==> AmountOrSum(FromHolder(e)) == e.amount
    ensures e.amount == Fin(0.0) ==> AmountOrSum(FromHolder(e)).NaN?
  {
  }
}
