/** A fund's settings record (`Bf_settings` collection): beneficiary bounds and defaults. */
module BfSettings {
  import opened Common

  const DefaultMaxBeneficiaries: int := 1
  /** The schema's `max: 1` on `max_beneficiaries`. */
  const MaxBeneficiariesCap: int := 1
  const DefaultMinBeneficiaries: int := 0
  /** The schema's `min: 0` on `min_beneficiaries`. */
  const MinBeneficiariesFloor: int := 0

  datatype Settings = Settings(bfId: Id, maxBeneficiaries: int, minBeneficiaries: int)

  /** The document handed to `create`: each path may be absent. */
  datatype SettingsDoc = SettingsDoc(bfId: Option<Id>, maxBeneficiaries: Option<int>, minBeneficiaries: Option<int>)

  /** The schema's defaults and validators applied to a settings document. */
  function CreateSettings(d: SettingsDoc): (r: Option<Settings>)
    ensures r.Some? <==>
      && d.bfId.Some?
      && (d.maxBeneficiaries.Some? ==> d.maxBeneficiaries.value <= MaxBeneficiariesCap)
      && (d.minBeneficiaries.Some? ==> d.minBeneficiaries.value >= MinBeneficiariesFloor)
    ensures r.Some? ==> r.value.maxBeneficiaries <= MaxBeneficiariesCap && r.value.minBeneficiaries >= MinBeneficiariesFloor
    ensures r.Some? ==> Some(r.value.bfId) == d.bfId
    ensures r.Some? && d.maxBeneficiaries.None? ==> r.value.maxBeneficiaries == DefaultMaxBeneficiaries
    ensures r.Some? && d.maxBeneficiaries.Some? ==> r.value.maxBeneficiaries == d.maxBeneficiaries.value
    ensures r.Some? && d.minBeneficiaries.None? ==> r.value.minBeneficiaries == DefaultMinBeneficiaries
    ensures r.Some? && d.minBeneficiaries.Some? ==> r.value.minBeneficiaries == d.minBeneficiaries.value
  {
    var max := if d.maxBeneficiaries.Some? then d.maxBeneficiaries.value else DefaultMaxBeneficiaries;
    var min := if d.minBeneficiaries.Some? then d.minBeneficiaries.value else DefaultMinBeneficiaries;
    if d.bfId.None? || max > MaxBeneficiariesCap || min < MinBeneficiariesFloor then None
    else Some(Settings(d.bfId.value, max, min))
  }

  /** A settings document naming only its fund gets the defaults, which pass both bounds. */
  lemma DefaultsAccepted(bf: Id)
    ensures CreateSettings(SettingsDoc(Some(bf), None, None)) == Some(Settings(bf, 1, 0))
  {
  }

  /** No rule relates the two bounds: a minimum above the maximum is accepted. */
  lemma MinimumMayExceedMaximum(bf: Id, max: int, min: int)
    requires max <= 1 && min >= 0
    ensures CreateSettings(SettingsDoc(Some(bf), Some(max), Some(min))) == Some(Settings(bf, max, min))
  {
  }
}
