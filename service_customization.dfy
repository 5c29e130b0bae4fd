/** The customization picker (src/components/ServiceCustomization.tsx): the
    groups it starts with and choosing an option in one group. */
module Customization {
  import opened Wrappers
  import opened Types

  const MockCustomizations: seq<ServiceCustomization> := [
    ServiceCustomization("1", "Service Level", [
      CustomizationOption("1-1", "Standard", 0.0),
      CustomizationOption("1-2", "Premium", 20.0),
      CustomizationOption("1-3", "Deluxe", 50.0)], None, true),
    ServiceCustomization("2", "Additional Options", [
      CustomizationOption("2-1", "Express Service", 15.0),
      CustomizationOption("2-2", "Weekend Service", 25.0),
      CustomizationOption("2-3", "After-hours Service", 35.0)], None, false)
  ]

  /** A group as the picker first shows it: a required group preselects its
      first option (nothing, when it has no options), an optional group none. */
  function Preselected(c: ServiceCustomization): (r: ServiceCustomization)
    ensures r.(selectedOption := c.selectedOption) == c
    ensures r.selectedOption.Some? <==> c.required && |c.options| > 0
    ensures r.selectedOption.Some? ==> r.selectedOption.value == c.options[0]
  {
    c.(selectedOption := if c.required && |c.options| > 0 then Some(c.options[0]) else None)
  }

  /** The picker's starting groups: the ones handed in, else the mock groups
      preselected. */
  function InitialCustomizations(initialCustomizations: Option<seq<ServiceCustomization>>): (r: seq<ServiceCustomization>)
    ensures initialCustomizations.Some? ==> r == initialCustomizations.value
    ensures initialCustomizations.None? ==> |r| == |MockCustomizations|
    ensures initialCustomizations.None? ==>
              forall i :: 0 <= i < |r| ==>
                (r[i].id == MockCustomizations[i].id && r[i].options == MockCustomizations[i].options &&
                 (r[i].required ==> r[i].selectedOption == Some(r[i].options[0])) &&
                 (!r[i].required ==> r[i].selectedOption.None?))
  {
    match initialCustomizations
    case Some(given) => given
    case None => seq(|MockCustomizations|, i requires 0 <= i < |MockCustomizations| => Preselected(MockCustomizations[i]))
  }

  /** `options.find(option => option.id === optionId)`. */
  function FindOption(options: seq<CustomizationOption>, optionId: string): (r: Option<CustomizationOption>)
    ensures r.None? <==> forall i :: 0 <= i < |options| ==> options[i].id != optionId
    ensures r.Some? ==> exists i :: 0 <= i < |options| && options[i] == r.value && r.value.id == optionId &&
                          forall j :: 0 <= j < i ==> options[j].id != optionId
  {
    if options == [] then None
    else if options[0].id == optionId then Some(options[0])
    else
      var r := FindOption(options[1..], optionId);
      assert forall i :: 1 <= i < |options| ==> options[i] == options[1..][i - 1];
      if r.Some? then
        var i :| 0 <= i < |options[1..]| && options[1..][i] == r.value && r.value.id == optionId &&
                 forall j :: 0 <= j < i ==> options[1..][j].id != optionId;
        assert options[i + 1] == r.value;
        r
      else r
  }

  /** The groups after choosing `optionId` in group `customizationId`. */
  function WithOption(customizations: seq<ServiceCustomization>, customizationId: string, optionId: string): (r: seq<ServiceCustomization>)
    ensures |r| == |customizations|
    ensures forall i :: 0 <= i < |r| && customizations[i].id != customizationId ==> r[i] == customizations[i]
    ensures forall i :: 0 <= i < |r| && customizations[i].id == customizationId ==>
              r[i] == customizations[i].(selectedOption := FindOption(customizations[i].options, optionId))
  {
    seq(|customizations|, i requires 0 <= i < |customizations| =>
      if customizations[i].id == customizationId
      then customizations[i].(selectedOption := FindOption(customizations[i].options, optionId))
      else customizations[i])
  }

  /** Choosing an option twice is choosing it once, and choosing an option the
      group lists selects exactly that option. */
  lemma WithOptionSelects(customizations: seq<ServiceCustomization>, customizationId: string, optionId: string)
    ensures WithOption(WithOption(customizations, customizationId, optionId), customizationId, optionId) ==
            WithOption(customizations, customizationId, optionId)
    ensures forall i, k ::
              (0 <= i < |customizations| && customizations[i].id == customizationId &&
               0 <= k < |customizations[i].options| && customizations[i].options[k].id == optionId) ==>
              WithOption(customizations, customizationId, optionId)[i].selectedOption.Some? &&
              WithOption(customizations, customizationId, optionId)[i].selectedOption.value.id == optionId
  {
  }

  class CustomizationPicker {
    var customizations: seq<ServiceCustomization>

    constructor (initialCustomizations: Option<seq<ServiceCustomization>>)
      ensures customizations == InitialCustomizations(initialCustomizations)
    {
      customizations := InitialCustomizations(initialCustomizations);
    }

    /** `handleOptionSelect(customizationId, optionId)`: the new groups are
        stored and also handed to `onCustomizationChange`. */
    method HandleOptionSelect(customizationId: string, optionId: string) returns (notified: seq<ServiceCustomization>)
      modifies this
      ensures customizations == WithOption(old(customizations), customizationId, optionId)
      ensures notified == customizations
    {
      customizations := WithOption(customizations, customizationId, optionId);
      notified := customizations;
    }
  }
}
