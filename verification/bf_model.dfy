/**
 * The bereavement-fund record (`Bf` collection): where its money is held
 * (`accountType`) and the two paths whose `required` flag depends on it.
 */
module BfModel {
  import opened Common

  /** The `accountType` enum: 'bank', 'mobile' or 'wallet'. */
  datatype AccountType = Bank | Mobile | WalletAccount

  function CastAccountType(s: string): (r: Option<AccountType>)
    ensures r == Some(Bank) <==> s == "bank"
    ensures r == Some(Mobile) <==> s == "mobile"
    ensures r == Some(WalletAccount) <==> s == "wallet"
    ensures r.None? <==> s !in {"bank", "mobile", "wallet"}
  {
    if s == "bank" then Some(Bank)
    else if s == "mobile" then Some(Mobile)
    else if s == "wallet" then Some(WalletAccount)
    else None
  }

  /** `accountInfo`'s `required` callback. */
  predicate AccountInfoRequired(t: AccountType)
  {
    t != WalletAccount
  }

  /** `walletAddress`'s `required` callback. */
  predicate WalletAddressRequired(t: AccountType)
  {
    t == WalletAccount
  }

  /** A stored fund. */
  datatype Fund = Fund(
    fundName: string,
    fundDetails: string,
    accountType: AccountType,
    accountInfo: Option<string>,
    walletAddress: Option<string>,
    groupId: Id,
    createdBy: Id)

  predicate ValidFund(f: Fund)
  {
    && f.fundName != ""
    && f.fundDetails != ""
    && (AccountInfoRequired(f.accountType) ==> Present(f.accountInfo))
    && (WalletAddressRequired(f.accountType) ==> Present(f.walletAddress))
  }

  /** The document `new Bf({...})` is built from. */
  datatype FundDoc = FundDoc(
    fundName: Option<string>,
    fundDetails: Option<string>,
    accountType: Option<string>,
    accountInfo: Option<string>,
    walletAddress: Option<string>,
    groupId: Option<Id>,
    createdBy: Option<Id>)

  /** The schema's validation on `save()`: the fund stored, or `None` when a rule fails. */
  function ValidateFund(d: FundDoc): (r: Option<Fund>)
    ensures r.Some? <==>
      && OtherwiseValid(d)
      && var t := CastAccountType(d.accountType.value).value;
         && (AccountInfoRequired(t) ==> Present(d.accountInfo))
         && (WalletAddressRequired(t) ==> Present(d.walletAddress))
    ensures r.Some? ==> ValidFund(r.value)
    ensures r.Some? ==>
      && Some(r.value.fundName) == d.fundName
      && Some(r.value.fundDetails) == d.fundDetails
      && d.accountType.Some? && Some(r.value.accountType) == CastAccountType(d.accountType.value)
      && r.value.accountInfo == d.accountInfo
      && r.value.walletAddress == d.walletAddress
      && Some(r.value.groupId) == d.groupId
      && Some(r.value.createdBy) == d.createdBy
    ensures !Present(d.fundName) || !Present(d.fundDetails) || d.groupId.None? || d.createdBy.None? ==> r.None?
    ensures d.accountType.None? || CastAccountType(d.accountType.value).None? ==> r.None?
  {
    if !Present(d.fundName) || !Present(d.fundDetails) || !Present(d.accountType)
       || d.groupId.None? || d.createdBy.None? then None
    else
      var t := CastAccountType(d.accountType.value);
      if t.None? then None
      else if AccountInfoRequired(t.value) && !Present(d.accountInfo) then None
      else if WalletAddressRequired(t.value) && !Present(d.walletAddress) then None
      else Some(Fund(d.fundName.value, d.fundDetails.value, t.value, d.accountInfo,
                     d.walletAddress, d.groupId.value, d.createdBy.value))
  }

  /** Every other rule of the schema holds of `d`: only the two account paths are in question. */
  predicate OtherwiseValid(d: FundDoc)
  {
    && Present(d.fundName) && Present(d.fundDetails)
    && d.accountType.Some? && CastAccountType(d.accountType.value).Some?
    && d.groupId.Some? && d.createdBy.Some?
  }

  /** Leaving out `accountInfo` is rejected exactly when the account type is not 'wallet'. */
  lemma AccountInfoRequiredUnlessWallet(d: FundDoc)
    requires OtherwiseValid(d) && Present(d.walletAddress)
    ensures ValidateFund(d.(accountInfo := None)).None? <==> d.accountType.value != "wallet"
  {
  }

  /** Leaving out `walletAddress` is rejected exactly when the account type is 'wallet'. */
  lemma WalletAddressRequiredForWallet(d: FundDoc)
    requires OtherwiseValid(d) && Present(d.accountInfo)
    ensures ValidateFund(d.(walletAddress := None)).None? <==> d.accountType.value == "wallet"
  {
  }

  /** Whatever its type, a valid fund says where its money is: account details or a wallet. */
  lemma ValidFundHasDestination(f: Fund)
    requires ValidFund(f)
    ensures Present(f.accountInfo) || Present(f.walletAddress)
  {
  }
}
