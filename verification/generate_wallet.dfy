/**
 * `generateWallet`: read the newest wallet, take its address from index 9
 * on, add one to that number, zero-pad it back to the old width, and store
 * a new wallet whose address is DDMM ++ objectCode ++ sequence.
 * Calls are taken one at a time (no interleaving of the read and the write).
 */
module GenerateWallet {
  import opened Common
  import opened JsText
  import opened Moment
  import opened WalletModel

  /** The sequence used when there is no previous address. */
  const FirstSequence: string := "00001"

  /** Where the previous address's sequence is read from. */
  const SuffixStart: nat := 9

  /** The newest wallet's address: wallets are kept in creation order, so the last one. */
  function LastAddress(ws: seq<Wallet>): (r: Option<string>)
    ensures r.None? <==> ws == []
    ensures r.Some? ==> r.value == ws[|ws| - 1].walletAddress
  {
    if ws == [] then None else Some(ws[|ws| - 1].walletAddress)
  }

  /** There is a previous address and it is not empty (JavaScript truthiness of `lastWallet?.walletAddress`). */
  predicate HasPrevious(last: Option<string>)
  {
    last.Some? && last.value != ""
  }

  /** The previous address's numeric part, `walletAddress.slice(9)`. */
  function PreviousSuffix(last: Option<string>): string
    requires HasPrevious(last)
  {
    Slice(last.value, SuffixStart)
  }

  /** The sequence component of the next address, computed from the previous address. */
  function NextSequence(last: Option<string>): (code: string)
    ensures !HasPrevious(last) ==> code == FirstSequence
    ensures HasPrevious(last) ==> |code| >= |PreviousSuffix(last)|
    ensures HasPrevious(last) && ParseInt(PreviousSuffix(last)).Int? && ParseInt(PreviousSuffix(last)).value + 1 >= 0 ==>
      var v := ParseInt(PreviousSuffix(last)).value + 1;
      && AllDigits(code)
      && ValueOf(code) == v
      && ParseInt(code) == Int(v)
      && |code| == Max(|PreviousSuffix(last)|, |NatToString(v)|)
    ensures HasPrevious(last) && ParseInt(PreviousSuffix(last)).Int? && ParseInt(PreviousSuffix(last)).value + 1 < 0 ==>
      code == PadStart("-" + NatToString(-(ParseInt(PreviousSuffix(last)).value + 1)), |PreviousSuffix(last)|, '0')
    ensures HasPrevious(last) && ParseInt(PreviousSuffix(last)).NaN? ==>
      code == PadStart("NaN", |PreviousSuffix(last)|, '0')
  {
    if !HasPrevious(last) then FirstSequence
    else
      var suffix := PreviousSuffix(last);
      var n := Add1(ParseInt(suffix));
      if n.Int? && n.value >= 0 then
        ParseIntPadded(n.value, |suffix|);
        PadStart(NumToString(n), |suffix|, '0')
      else
        assert n.Int? ==> NumToString(n) == "-" + NatToString(-n.value);
        PadStart(NumToString(n), |suffix|, '0')
  }

  /** The address the next call builds, for a given date stamp and object code. */
  function NextAddress(ws: seq<Wallet>, day: nat, month: nat, objectCode: string): (a: string)
    requires ValidDayMonth(day, month)
    ensures a == DayMonth(day, month) + objectCode + NextSequence(LastAddress(ws))
    ensures |a| == 4 + |objectCode| + |NextSequence(LastAddress(ws))|
  {
    DayMonth(day, month) + objectCode + NextSequence(LastAddress(ws))
  }

  /** What a call returns: the new address, or a rejection by the schema (an unknown `refType`). */
  datatype Outcome = Rejected | Address(address: string)

  /** The store after a call, and what the call returned. */
  datatype Generated = Generated(wallets: seq<Wallet>, outcome: Outcome)

  /** The record `generateWallet` asks the store to create. */
  function NewWalletDoc(address: string, refId: Id, refType: Option<string>): WalletDoc
  {
    WalletDoc(refType, Some(refId), Some(address), None, None)
  }

  /** One call of `generateWallet` against the wallet collection `ws`. */
  function Generate(ws: seq<Wallet>, day: nat, month: nat, objectCode: string,
                    refId: Id, refType: Option<string>): (g: Generated)
    requires ValidDayMonth(day, month)
    ensures g.outcome.Address? <==> RefTypeAccepted(refType)
    ensures g.outcome.Rejected? ==> g.wallets == ws
    ensures g.outcome.Address? ==>
      var a := g.outcome.address;
      && a == NextAddress(ws, day, month, objectCode)
      && |g.wallets| == |ws| + 1
      && g.wallets[..|ws|] == ws
      && var w := g.wallets[|ws|];
         && w.walletAddress == a && w.ref == Some(refId)
         && w.balance == 0 && w.transactionHistory == []
         && (refType.Some? ==> w.refType == CastRefType(refType.value))
         && ValidWallet(w)
         && LastAddress(g.wallets) == Some(a)
  {
    var a := NextAddress(ws, day, month, objectCode);
    var created := CreateWallet(NewWalletDoc(a, refId, refType));
    if created.None? then Generated(ws, Rejected)
    else
      assert (ws + [created.value])[..|ws|] == ws;
      Generated(ws + [created.value], Address(a))
  }

  /** The wallet collection, newest last. */
  class WalletStore {
    var wallets: seq<Wallet>

    constructor ()
      ensures wallets == []
    {
      wallets := [];
    }

    /** `generateWallet(objectCode, refId, refType)` on the date `day`/`month`. */
    method GenerateWallet(day: nat, month: nat, objectCode: string, refId: Id, refType: Option<string>)
      returns (outcome: Outcome)
      requires ValidDayMonth(day, month)
      modifies this
      ensures Generated(wallets, outcome) == Generate(old(wallets), day, month, objectCode, refId, refType)
    {
      var registrationDate := DayMonth(day, month);
      var lastWallet: Option<Wallet> := if |wallets| == 0 then None else Some(wallets[|wallets| - 1]);
      var walletCode := FirstSequence;
      if lastWallet.Some? && lastWallet.value.walletAddress != "" {
        walletCode := NextSequence(Some(lastWallet.value.walletAddress));
      }
      var walletAddress := registrationDate + objectCode + walletCode;
      var newWallet := CreateWallet(NewWalletDoc(walletAddress, refId, refType));
      if newWallet.None? {
        return Rejected;
      }
      wallets := wallets + [newWallet.value];
      outcome := Address(walletAddress);
    }
  }

  /** The previous address holds a number from index 9 on: a non-empty run of digits. */
  predicate DigitSuffix(a: string)
  {
    |a| > SuffixStart && AllDigits(a[SuffixStart..])
  }

  /**
   * With a five-character object code, the sequence read back from the new
   * address is the previous one plus one, whatever day, owner type or object
   * code the previous wallet had.
   */
  lemma SequenceAdvances(ws: seq<Wallet>, day: nat, month: nat, objectCode: string,
                         refId: Id, refType: Option<string>)
    requires ValidDayMonth(day, month) && |objectCode| == 5 && RefTypeAccepted(refType)
    requires ws != [] && DigitSuffix(LastAddress(ws).value)
    ensures var g := Generate(ws, day, month, objectCode, refId, refType);
      && g.outcome.Address?
      && DigitSuffix(g.outcome.address)
      && ValueOf(g.outcome.address[SuffixStart..]) == ValueOf(LastAddress(ws).value[SuffixStart..]) + 1
      && |g.outcome.address[SuffixStart..]| >= |LastAddress(ws).value[SuffixStart..]|
  {
  }

  /** From an empty collection the first address ends in "00001". */
  lemma FirstAddress(day: nat, month: nat, objectCode: string, refId: Id, refType: Option<string>)
    requires ValidDayMonth(day, month) && RefTypeAccepted(refType)
    ensures var g := Generate([], day, month, objectCode, refId, refType);
      && g.outcome == Address(DayMonth(day, month) + objectCode + "00001")
      && |g.wallets| == 1
  {
  }

  /** One call's arguments. */
  datatype Call = Call(day: nat, month: nat, objectCode: string, refId: Id, refType: Option<string>)

  predicate ValidCall(c: Call)
  {
    ValidDayMonth(c.day, c.month)
  }

  /** The addresses returned by calls made one after another, and the final collection. */
  datatype Run = Run(wallets: seq<Wallet>, addresses: seq<string>)

  function GenerateAll(ws: seq<Wallet>, calls: seq<Call>): (r: Run)
    requires forall i :: 0 <= i < |calls| ==> ValidCall(calls[i])
    decreases |calls|
  {
    if calls == [] then Run(ws, [])
    else
      var c := calls[0];
      assert ValidCall(c);
      assert forall i :: 0 <= i < |calls[1..]| ==> calls[1..][i] == calls[i + 1];
      var g := Generate(ws, c.day, c.month, c.objectCode, c.refId, c.refType);
      var rest := GenerateAll(g.wallets, calls[1..]);
      match g.outcome
      case Rejected => rest
      case Address(a) => Run(rest.wallets, [a] + rest.addresses)
  }

  /** Calls with a valid date and an accepted `refType`. */
  predicate AcceptedCalls(calls: seq<Call>)
  {
    forall i :: 0 <= i < |calls| ==> ValidCall(calls[i]) && RefTypeAccepted(calls[i].refType)
  }

  /** Each address after the first is built on the one before it. */
  predicate Chained(calls: seq<Call>, addresses: seq<string>)
    requires AcceptedCalls(calls) && |addresses| == |calls|
  {
    forall i :: 1 <= i < |calls| ==>
      addresses[i] == DayMonth(calls[i].day, calls[i].month) + calls[i].objectCode + NextSequence(Some(addresses[i - 1]))
  }

  lemma ChainedCons(calls: seq<Call>, a: string, rest: seq<string>)
    requires calls != [] && AcceptedCalls(calls) && |rest| == |calls| - 1
    requires AcceptedCalls(calls[1..]) && Chained(calls[1..], rest)
    requires rest != [] ==>
      rest[0] == DayMonth(calls[1].day, calls[1].month) + calls[1].objectCode + NextSequence(Some(a))
    ensures Chained(calls, [a] + rest)
  {
  }

  lemma AcceptedTail(calls: seq<Call>)
    requires calls != [] && AcceptedCalls(calls)
    ensures AcceptedCalls(calls[1..])
    ensures ValidCall(calls[0]) && RefTypeAccepted(calls[0].refType)
    ensures forall i :: 0 <= i < |calls| ==> ValidCall(calls[i])
  {
  }

  /**
   * In a run of accepted calls each call reads the address the one before it
   * stored: the first builds on the collection's newest wallet, every later
   * one on the previous call's address.
   */
  lemma {:induction false} RunChain(ws: seq<Wallet>, calls: seq<Call>)
    requires AcceptedCalls(calls)
    ensures forall i :: 0 <= i < |calls| ==> ValidCall(calls[i])
    ensures |GenerateAll(ws, calls).addresses| == |calls|
    ensures calls != [] ==>
      GenerateAll(ws, calls).addresses[0] == NextAddress(ws, calls[0].day, calls[0].month, calls[0].objectCode)
    ensures Chained(calls, GenerateAll(ws, calls).addresses)
    decreases |calls|
  {
    if calls != [] {
      AcceptedTail(calls);
      var c := calls[0];
      GenerateAllStep(ws, calls);
      var g := Generate(ws, c.day, c.month, c.objectCode, c.refId, c.refType);
      RunChain(g.wallets, calls[1..]);
      assert LastAddress(g.wallets) == Some(g.outcome.address);
      ChainedCons(calls, g.outcome.address, GenerateAll(g.wallets, calls[1..]).addresses);
    }
  }

  /** The numeric value the generator reads from the newest wallet (0 for an empty collection). */
  function BaseValue(ws: seq<Wallet>): nat
    requires ws == [] || DigitSuffix(LastAddress(ws).value)
  {
    if ws == [] then 0 else ValueOf(LastAddress(ws).value[SuffixStart..])
  }

  /** Calls with a valid date, a five-character object code and an accepted `refType`. */
  predicate FiveCharacterCalls(calls: seq<Call>)
  {
    forall i :: 0 <= i < |calls| ==> ValidCall(calls[i]) && |calls[i].objectCode| == 5 && RefTypeAccepted(calls[i].refType)
  }

  lemma FiveCharacterTail(calls: seq<Call>)
    requires calls != [] && FiveCharacterCalls(calls)
    ensures FiveCharacterCalls(calls[1..])
    ensures ValidCall(calls[0]) && |calls[0].objectCode| == 5 && RefTypeAccepted(calls[0].refType)
    ensures forall i :: 0 <= i < |calls[1..]| ==> ValidCall(calls[1..][i])
  {
  }

  /** Every address carries a digit suffix, numbered base+1, base+2, ... in order. */
  predicate Numbered(addresses: seq<string>, base: nat)
  {
    forall i :: 0 <= i < |addresses| ==>
      DigitSuffix(addresses[i]) && ValueOf(addresses[i][SuffixStart..]) == base + i + 1
  }

  lemma NumberedCons(a: string, rest: seq<string>, base: nat)
    requires DigitSuffix(a) && ValueOf(a[SuffixStart..]) == base + 1
    requires Numbered(rest, base + 1)
    ensures Numbered([a] + rest, base)
  {
  }

  /** One successful call, then the others: the first address heads the list. */
  lemma GenerateAllStep(ws: seq<Wallet>, calls: seq<Call>)
    requires calls != [] && forall i :: 0 <= i < |calls| ==> ValidCall(calls[i])
    requires RefTypeAccepted(calls[0].refType)
    ensures ValidCall(calls[0]) && forall i :: 0 <= i < |calls[1..]| ==> ValidCall(calls[1..][i])
    ensures var c := calls[0];
      var g := Generate(ws, c.day, c.month, c.objectCode, c.refId, c.refType);
      GenerateAll(ws, calls) == Run(GenerateAll(g.wallets, calls[1..]).wallets,
                                    [g.outcome.address] + GenerateAll(g.wallets, calls[1..]).addresses)
  {
  }

  /** The first address in an empty collection is numbered 1. */
  lemma FirstAddressNumbered(c: Call)
    requires ValidCall(c) && RefTypeAccepted(c.refType)
    ensures var g := Generate([], c.day, c.month, c.objectCode, c.refId, c.refType);
      && g.outcome.Address?
      && |g.outcome.address| == |DayMonth(c.day, c.month) + c.objectCode| + 5
      && g.outcome.address[|DayMonth(c.day, c.month) + c.objectCode|..] == "00001"
  {
  }

  /** "00001" is a digit string denoting 1. */
  lemma FirstSequenceValue()
    ensures AllDigits(FirstSequence) && ValueOf(FirstSequence) == 1
  {
    assert FirstSequence[1..] == "0001" && "0001"[1..] == "001" && "001"[1..] == "01" && "01"[1..] == "1";
  }

  /** The first call on an empty collection is numbered 1. */
  lemma NumberedFirst(c: Call)
    requires ValidCall(c) && |c.objectCode| == 5 && RefTypeAccepted(c.refType)
    ensures var a := Generate([], c.day, c.month, c.objectCode, c.refId, c.refType).outcome.address;
      DigitSuffix(a) && ValueOf(a[SuffixStart..]) == 1
  {
    var a := Generate([], c.day, c.month, c.objectCode, c.refId, c.refType).outcome.address;
    FirstAddressNumbered(c);
    FirstSequenceValue();
    assert a[SuffixStart..] == FirstSequence;
  }

  /** One call advances the base value by one and its address is numbered base+1. */
  lemma NextBase(ws: seq<Wallet>, c: Call)
    requires ValidCall(c) && |c.objectCode| == 5 && RefTypeAccepted(c.refType)
    requires ws == [] || DigitSuffix(LastAddress(ws).value)
    ensures var g := Generate(ws, c.day, c.month, c.objectCode, c.refId, c.refType);
      && g.outcome.Address?
      && DigitSuffix(g.outcome.address)
      && ValueOf(g.outcome.address[SuffixStart..]) == BaseValue(ws) + 1
      && g.wallets != [] && DigitSuffix(LastAddress(g.wallets).value)
      && BaseValue(g.wallets) == BaseValue(ws) + 1
  {
    if ws == [] {
      NumberedFirst(c);
    } else {
      SequenceAdvances(ws, c.day, c.month, c.objectCode, c.refId, c.refType);
    }
  }

  /**
   * Calls with five-character object codes made one after another get the
   * sequence values base+1, base+2, ...: strictly increasing, never reset
   * by a new day or another owner type.
   */
  lemma {:induction false} SequencesIncrease(ws: seq<Wallet>, calls: seq<Call>)
    requires FiveCharacterCalls(calls)
    requires ws == [] || DigitSuffix(LastAddress(ws).value)
    ensures forall i :: 0 <= i < |calls| ==> ValidCall(calls[i])
    ensures |GenerateAll(ws, calls).addresses| == |calls|
    ensures Numbered(GenerateAll(ws, calls).addresses, BaseValue(ws))
    decreases |calls|
  {
    if calls != [] {
      FiveCharacterTail(calls);
      var c := calls[0];
      GenerateAllStep(ws, calls);
      NextBase(ws, c);
      var g := Generate(ws, c.day, c.month, c.objectCode, c.refId, c.refType);
      SequencesIncrease(g.wallets, calls[1..]);
      NumberedCons(g.outcome.address, GenerateAll(g.wallets, calls[1..]).addresses, BaseValue(ws));
    }
  }

  /** Hence, with five-character object codes, sequential calls never return the same address twice. */
  lemma SequentialAddressesDistinct(ws: seq<Wallet>, calls: seq<Call>)
    requires FiveCharacterCalls(calls)
    requires ws == [] || DigitSuffix(LastAddress(ws).value)
    ensures forall i :: 0 <= i < |calls| ==> ValidCall(calls[i])
    ensures var r := GenerateAll(ws, calls);
      forall i, j :: 0 <= i < j < |r.addresses| ==> r.addresses[i] != r.addresses[j]
  {
    SequencesIncrease(ws, calls);
    var r := GenerateAll(ws, calls);
    forall i, j | 0 <= i < j < |r.addresses|
      ensures r.addresses[i] != r.addresses[j]
    {
      assert ValueOf(r.addresses[i][SuffixStart..]) != ValueOf(r.addresses[j][SuffixStart..]);
    }
  }
}

module GenerateWalletShortCode {
  import opened Common
  import opened JsText
  import opened Moment
  import opened WalletModel
  import opened GenerateWallet

  lemma SuffixAfterFirst(prefix: string)
    requires |prefix| == 6
    ensures NextSequence(Some(prefix + "00001")) == "02"
  {
    var a := prefix + "00001";
    assert Slice(a, SuffixStart) == "01";
    assert ValueOf("01") == 1 by { assert "01"[1..] == "1"; }
    assert ParseInt("01") == Int(1);
    assert NatToString(2) == "2";
  }

  lemma SuffixPastEnd(a: string)
    requires a != "" && |a| <= SuffixStart
    ensures NextSequence(Some(a)) == "NaN"
  {
  }

  /** The second call with a 2-character code, after "DDMM<code>00001", returns "DDMM<code>02". */
  lemma ShortCodeSecond(ws: seq<Wallet>, day: nat, month: nat, code: string, refId: Id, refType: Option<string>)
    requires ValidDayMonth(day, month) && |code| == 2 && RefTypeAccepted(refType)
    requires LastAddress(ws) == Some(DayMonth(day, month) + code + "00001")
    ensures Generate(ws, day, month, code, refId, refType).outcome == Address(DayMonth(day, month) + code + "02")
  {
    SuffixAfterFirst(DayMonth(day, month) + code);
  }

  /** Any call after an address of at most 9 characters returns "DDMM<code>NaN". */
  lemma ShortCodeLater(ws: seq<Wallet>, day: nat, month: nat, code: string, refId: Id, refType: Option<string>, last: string)
    requires ValidDayMonth(day, month) && RefTypeAccepted(refType)
    requires LastAddress(ws) == Some(last) && last != "" && |last| <= SuffixStart
    ensures Generate(ws, day, month, code, refId, refType).outcome == Address(DayMonth(day, month) + code + "NaN")
  {
    SuffixPastEnd(last);
  }

  /**
   * Reading the sequence from index 9 assumes a five-character object code.
   * With a two-character code four calls made one after another on an empty
   * collection return "DDMM<code>00001", then "DDMM<code>02", then
   * "DDMM<code>NaN" twice: from the third call on the address repeats.
   */
  lemma TwoCharacterCodeRepeats(day: nat, month: nat, code: string, refId: Id, refType: Option<string>)
    requires ValidDayMonth(day, month) && |code| == 2 && RefTypeAccepted(refType)
    ensures var p := DayMonth(day, month) + code;
      var g1 := Generate([], day, month, code, refId, refType);
      var g2 := Generate(g1.wallets, day, month, code, refId, refType);
      var g3 := Generate(g2.wallets, day, month, code, refId, refType);
      var g4 := Generate(g3.wallets, day, month, code, refId, refType);
      && g1.outcome == Address(p + "00001")
      && g2.outcome == Address(p + "02")
      && g3.outcome == Address(p + "NaN")
      && g4.outcome == Address(p + "NaN")
  {
    var p := DayMonth(day, month) + code;
    var g1 := Generate([], day, month, code, refId, refType);
    FirstAddress(day, month, code, refId, refType);
    ShortCodeSecond(g1.wallets, day, month, code, refId, refType);
    var g2 := Generate(g1.wallets, day, month, code, refId, refType);
    ShortCodeLater(g2.wallets, day, month, code, refId, refType, p + "02");
    var g3 := Generate(g2.wallets, day, month, code, refId, refType);
    ShortCodeLater(g3.wallets, day, month, code, refId, refType, p + "NaN");
  }
}
