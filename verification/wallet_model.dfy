/**
 * The wallet record (`Wallet` collection): who owns it, its address, its
 * balance and its embedded Credit/Debit history, with the schema's
 * defaults, enums and required paths.
 */
module WalletModel {
  import opened Common

  /** The `refType` enum: the owner is a user or a bereavement fund. */
  datatype RefType = UserRef | BfRef

  /** The `type` enum of a history entry. */
  datatype TxType = Credit | Debit

  datatype TxEntry = TxEntry(txType: TxType, amount: int, date: Millis, user: string)

  datatype Wallet = Wallet(
    refType: Option<RefType>,
    ref: Option<Id>,
    walletAddress: string,
    transactionHistory: seq<TxEntry>,
    balance: int)

  /** The document handed to `create`: only the paths the caller sets. */
  datatype WalletDoc = WalletDoc(
    refType: Option<string>,
    ref: Option<Id>,
    walletAddress: Option<string>,
    transactionHistory: Option<seq<TxEntry>>,
    balance: Option<int>)

  /** Casting a `refType` string against the enum `['User', 'Bf']`. */
  function CastRefType(s: string): (r: Option<RefType>)
    ensures r == Some(UserRef) <==> s == "User"
    ensures r == Some(BfRef) <==> s == "Bf"
    ensures r.None? <==> s != "User" && s != "Bf"
  {
    if s == "User" then Some(UserRef)
    else if s == "Bf" then Some(BfRef)
    else None
  }

  /** `refType` is optional; when given it must be one of the enum's values. */
  predicate RefTypeAccepted(s: Option<string>)
  {
    s.None? || CastRefType(s.value).Some?
  }

  /** A stored wallet satisfies the schema: `walletAddress` is required and every entry names a user. */
  predicate ValidWallet(w: Wallet)
  {
    && w.walletAddress != ""
    && forall i :: 0 <= i < |w.transactionHistory| ==> w.transactionHistory[i].user != ""
  }

  /**
   * What `Wallet.create(doc)` stores: the schema's validation and defaults
   * (balance 0, empty history), or `None` when validation rejects the document.
   */
  function CreateWallet(doc: WalletDoc): (r: Option<Wallet>)
    ensures r.Some? <==>
      && Present(doc.walletAddress)
      && RefTypeAccepted(doc.refType)
      && (doc.transactionHistory.Some? ==>
            forall i :: 0 <= i < |doc.transactionHistory.value| ==> doc.transactionHistory.value[i].user != "")
    ensures r.Some? ==> ValidWallet(r.value)
    ensures r.Some? ==> r.value.walletAddress == doc.walletAddress.value && r.value.ref == doc.ref
    ensures r.Some? && doc.refType.Some? ==> r.value.refType == CastRefType(doc.refType.value)
    ensures r.Some? && doc.refType.None? ==> r.value.refType.None?
    ensures r.Some? && doc.balance.None? ==> r.value.balance == 0
    ensures r.Some? && doc.balance.Some? ==> r.value.balance == doc.balance.value
    ensures r.Some? && doc.transactionHistory.Some? ==> r.value.transactionHistory == doc.transactionHistory.value
    ensures r.Some? && doc.transactionHistory.None? ==> r.value.transactionHistory == []
  {
    var history := if doc.transactionHistory.Some? then doc.transactionHistory.value else [];
    if !Present(doc.walletAddress) || !RefTypeAccepted(doc.refType)
       || exists i :: 0 <= i < |history| && history[i].user == "" then None
    else
      var refType := if doc.refType.Some? then CastRefType(doc.refType.value) else None;
      var balance := if doc.balance.Some? then doc.balance.value else 0;
      Some(Wallet(refType, doc.ref, doc.walletAddress.value, history, balance))
  }

  /**
   * A history sub-document: `type` (enum, required), `amount` (required),
   * `user` (required) and `date` (defaults to the time of creation, `now`).
   */
  function CreateEntry(txType: Option<string>, amount: Option<int>, user: Option<string>,
                       date: Option<Millis>, now: Millis): (r: Option<TxEntry>)
    ensures r.Some? <==>
      txType.Some? && txType.value in {"Credit", "Debit"} && amount.Some? && Present(user)
    ensures r.Some? ==> r.value.amount == amount.value && r.value.user == user.value
    ensures r.Some? ==> (r.value.txType == Credit <==> txType.value == "Credit")
    ensures r.Some? && date.Some? ==> r.value.date == date.value
    ensures r.Some? && date.None? ==> r.value.date == now
  {
    if txType.None? || txType.value !in {"Credit", "Debit"} || amount.None? || !Present(user) then None
    else
      var t := if txType.value == "Credit" then Credit else Debit;
      Some(TxEntry(t, amount.value, if date.Some? then date.value else now, user.value))
  }

  /** The collection holds valid wallets; no uniqueness is asked of their addresses. */
  predicate StoreAccepts(ws: seq<Wallet>)
  {
    forall i :: 0 <= i < |ws| ==> ValidWallet(ws[i])
  }

  /** `walletAddress` carries no `unique` index: two wallets with one address are both accepted. */
  lemma DuplicateAddressesAccepted(ws: seq<Wallet>, w: Wallet)
    requires StoreAccepts(ws) && ValidWallet(w)
    requires exists i :: 0 <= i < |ws| && ws[i].walletAddress == w.walletAddress
    ensures StoreAccepts(ws + [w])
    ensures exists i, j :: 0 <= i < j < |ws + [w]| && (ws + [w])[i].walletAddress == (ws + [w])[j].walletAddress
  {
    var i :| 0 <= i < |ws| && ws[i].walletAddress == w.walletAddress;
    assert (ws + [w])[i] == ws[i] && (ws + [w])[|ws|] == w;
  }
}
