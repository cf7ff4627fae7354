/**
 * `createBf` and `getGroupBf`: a group gets at most one bereavement fund,
 * guarded by the group's `has_bf` flag.
 */
module BfController {
  import opened Common
  import opened BfModel

  /** A group, as far as these operations read and write it. */
  datatype Group = Group(name: string, hasBf: bool)

  /** The request body of `createBf`. */
  datatype FundRequest = FundRequest(
    fundName: Option<string>,
    fundDetails: Option<string>,
    accountType: Option<string>,
    accountInfo: Option<string>,
    walletAddress: Option<string>,
    groupId: Option<Id>)

  /** The responses of `createBf`: 403, 404, 400, 500 (the save threw) and 201. */
  datatype CreateOutcome = AccessDenied | GroupNotFound | AlreadyHasFund | SaveFailed | Created(fund: Fund)

  /** The groups and funds collections. */
  datatype BfState = BfState(groups: map<Id, Group>, funds: seq<Fund>)

  datatype CreateResult = CreateResult(state: BfState, outcome: CreateOutcome)

  /** The fund document `createBf` builds from the body and the requesting user. */
  function FundDocOf(req: FundRequest, requester: Option<Id>): FundDoc
  {
    FundDoc(req.fundName, req.fundDetails, req.accountType, req.accountInfo, req.walletAddress,
            req.groupId, requester)
  }

  /** One call of `createBf`: token, group lookup, `has_bf` guard, fund save, flag update. */
  function CreateBfStep(s: BfState, tokenValid: bool, req: FundRequest, requester: Option<Id>): (r: CreateResult)
    ensures !tokenValid ==> r == CreateResult(s, AccessDenied)
    ensures tokenValid && (req.groupId.None? || req.groupId.value !in s.groups) ==> r == CreateResult(s, GroupNotFound)
    ensures tokenValid && req.groupId.Some? && req.groupId.value in s.groups && s.groups[req.groupId.value].hasBf ==>
      r == CreateResult(s, AlreadyHasFund)
    ensures !r.outcome.Created? ==> r.state == s
    ensures tokenValid && req.groupId.Some? && req.groupId.value in s.groups && !s.groups[req.groupId.value].hasBf ==>
      && (r.outcome.Created? <==> ValidateFund(FundDocOf(req, requester)).Some?)
      && (r.outcome == SaveFailed <==> ValidateFund(FundDocOf(req, requester)).None?)
    ensures r.outcome.Created? ==> Some(r.outcome.fund) == ValidateFund(FundDocOf(req, requester))
    ensures r.outcome.Created? ==>
      && tokenValid && req.groupId.Some?
      && var g := req.groupId.value;
         && g in s.groups && !s.groups[g].hasBf
         && r.state.funds == s.funds + [r.outcome.fund]
         && r.outcome.fund.groupId == g
         && Some(r.outcome.fund.createdBy) == requester
         && Some(r.outcome.fund.fundName) == req.fundName
         && ValidFund(r.outcome.fund)
         && r.state.groups == s.groups[g := s.groups[g].(hasBf := true)]
  {
    if !tokenValid then CreateResult(s, AccessDenied)
    else if req.groupId.None? || req.groupId.value !in s.groups then CreateResult(s, GroupNotFound)
    else
      var g := req.groupId.value;
      if s.groups[g].hasBf then CreateResult(s, AlreadyHasFund)
      else
        var saved := ValidateFund(FundDocOf(req, requester));
        if saved.None? then CreateResult(s, SaveFailed)
        else CreateResult(BfState(s.groups[g := s.groups[g].(hasBf := true)], s.funds + [saved.value]),
                        Created(saved.value))
  }

  /** `has_bf` is set exactly on the groups that own a fund. */
  ghost predicate FlagsMatchFunds(s: BfState)
  {
    forall g :: g in s.groups ==>
      (s.groups[g].hasBf <==> exists i :: 0 <= i < |s.funds| && s.funds[i].groupId == g)
  }

  /** No two funds belong to the same group. */
  ghost predicate OneFundPerGroup(s: BfState)
  {
    forall i, j :: 0 <= i < j < |s.funds| ==> s.funds[i].groupId != s.funds[j].groupId
  }

  /**
   * When the flags agree with the funds, `createBf` keeps them in agreement
   * and never gives a group a second fund.
   */
  lemma CreateBfKeepsOneFundPerGroup(s: BfState, tokenValid: bool, req: FundRequest, requester: Option<Id>)
    requires FlagsMatchFunds(s) && OneFundPerGroup(s)
    ensures FlagsMatchFunds(CreateBfStep(s, tokenValid, req, requester).state)
    ensures OneFundPerGroup(CreateBfStep(s, tokenValid, req, requester).state)
  {
    var r := CreateBfStep(s, tokenValid, req, requester);
    if r.outcome.Created? {
      var g := req.groupId.value;
      var t := r.state;
      assert forall i :: 0 <= i < |s.funds| ==> s.funds[i].groupId != g;
      forall h | h in t.groups
        ensures t.groups[h].hasBf <==> exists i :: 0 <= i < |t.funds| && t.funds[i].groupId == h
      {
        if h == g {
          assert t.funds[|s.funds|].groupId == g;
        } else {
          assert (exists i :: 0 <= i < |t.funds| && t.funds[i].groupId == h)
             <==> (exists i :: 0 <= i < |s.funds| && s.funds[i].groupId == h) by {
            forall i | 0 <= i < |s.funds| ensures t.funds[i] == s.funds[i] { }
          }
        }
      }
    }
  }

  /** The first fund of a group, as `Bf.findOne({ groupId })` returns it. */
  function FindGroupFund(funds: seq<Fund>, groupId: Id): (r: Option<nat>)
    ensures r.None? <==> forall i :: 0 <= i < |funds| ==> funds[i].groupId != groupId
    ensures r.Some? ==> r.value < |funds| && funds[r.value].groupId == groupId
    ensures r.Some? ==> forall i :: 0 <= i < r.value ==> funds[i].groupId != groupId
  {
    FindFirst(funds, (f: Fund) => f.groupId == groupId)
  }

  /** The responses of `getGroupBf`: 403, 404 and 200 with the fund. */
  datatype LookupOutcome = LookupDenied | FundNotFound | FundFound(fund: Fund)

  function GetGroupBf(funds: seq<Fund>, tokenValid: bool, groupId: Id): (r: LookupOutcome)
    ensures !tokenValid ==> r == LookupDenied
    ensures tokenValid ==>
      (r == FundNotFound <==> forall i :: 0 <= i < |funds| ==> funds[i].groupId != groupId)
    ensures r.FundFound? ==> r.fund in funds && r.fund.groupId == groupId
    ensures tokenValid && FindGroupFund(funds, groupId).Some? ==>
      r == FundFound(funds[FindGroupFund(funds, groupId).value])
  {
    if !tokenValid then LookupDenied
    else
      var i := FindGroupFund(funds, groupId);
      if i.None? then FundNotFound else FundFound(funds[i.value])
  }

  /** After a fund is created for a group, looking that group up returns it (given one fund per group). */
  lemma CreatedFundIsFound(s: BfState, req: FundRequest, requester: Option<Id>)
    requires FlagsMatchFunds(s)
    requires CreateBfStep(s, true, req, requester).outcome.Created?
    ensures var r := CreateBfStep(s, true, req, requester);
      GetGroupBf(r.state.funds, true, req.groupId.value) == FundFound(r.outcome.fund)
  {
    var r := CreateBfStep(s, true, req, requester);
    var g := req.groupId.value;
    assert g in s.groups && !s.groups[g].hasBf;
    assert forall i :: 0 <= i < |s.funds| ==> s.funds[i].groupId != g;
    assert forall i :: 0 <= i < |s.funds| ==> r.state.funds[i] == s.funds[i];
    assert r.state.funds[|s.funds|] == r.outcome.fund;
    var k := FindGroupFund(r.state.funds, g);
    assert k.Some?;
    assert k.value == |s.funds|;
  }

  /** The groups and funds collections, updated in place by `createBf`. */
  class BfStore {
    var groups: map<Id, Group>
    var funds: seq<Fund>

    constructor (groups: map<Id, Group>)
      ensures this.groups == groups && funds == []
    {
      this.groups := groups;
      funds := [];
    }

    ghost function State(): BfState
      reads this
    {
      BfState(groups, funds)
    }

    method CreateBf(tokenValid: bool, req: FundRequest, requester: Option<Id>) returns (outcome: CreateOutcome)
      modifies this
      ensures CreateResult(State(), outcome) == CreateBfStep(old(State()), tokenValid, req, requester)
      ensures old(FlagsMatchFunds(State()) && OneFundPerGroup(State())) ==>
        FlagsMatchFunds(State()) && OneFundPerGroup(State())
    {
      if FlagsMatchFunds(State()) && OneFundPerGroup(State()) {
        CreateBfKeepsOneFundPerGroup(State(), tokenValid, req, requester);
      }
      if !tokenValid {
        return AccessDenied;
      }
      if req.groupId.None? || req.groupId.value !in groups {
        return GroupNotFound;
      }
      var groupId := req.groupId.value;
      var group := groups[groupId];
      if group.hasBf {
        return AlreadyHasFund;
      }
      var newFund := ValidateFund(FundDocOf(req, requester));
      if newFund.None? {
        return SaveFailed;
      }
      funds := funds + [newFund.value];
      group := group.(hasBf := true);
      groups := groups[groupId := group];
      outcome := Created(newFund.value);
    }
  }
}
