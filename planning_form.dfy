/** The planning form of src/components/plan/planning-form.tsx: its schema
    (what the resolver accepts), its default values, the tag toggle of the
    two multi-select button groups, and `onSubmit`, which encodes the
    accepted values as form fields. */
module PlanningForm {
  import opened Wrappers
  import opened Strings
  import opened JsNumbers
  import opened Products
  import opened FormData

  const LayoutCodes: seq<string> := ["2r1l1b", "3r2l1b", "3r2l2b", "4r2l2b", "4r2l3b"]
  const BudgetTiers: seq<string> := ["economy", "premium", "luxury"]

  /** The values offered by the household-profile and focus-area buttons. */
  const HouseholdProfileOptions: seq<string> := ["single", "couple", "kids", "elderly", "pets"]
  const FocusAreaOptions: seq<string> := ["security", "entertainment", "lighting", "automation", "energy"]

  /** The area field holds the number it was initialised with, or the text
      typed into the number input. */
  datatype AreaInput = AreaNumber(n: int) | AreaText(s: string)

  /** The raw form values before validation; absent fields are None. */
  datatype FormInput = FormInput(
    area: AreaInput,
    layout: Option<string>,
    budgetLevel: Option<string>,
    householdProfile: Option<seq<string>>,
    focusAreas: Option<seq<string>>,
    customNeeds: Option<string>,
    floorPlan: Option<File>)

  /** The values the schema accepts and hands to `onSubmit`. */
  datatype PlanValues = PlanValues(
    area: int,
    layout: string,
    budgetLevel: BudgetLevel,
    householdProfile: Option<seq<string>>,
    focusAreas: Option<seq<string>>,
    customNeeds: Option<string>,
    floorPlan: Option<File>)

  /** One schema issue per failing field: area not a number or below 1,
      layout or budget tier missing or not one of the allowed values. */
  datatype PlanIssue = AreaNotANumber | AreaTooSmall | LayoutRequired | LayoutInvalid | BudgetRequired | BudgetInvalid

  /** `z.coerce.number()`: `Number(input)`. */
  function CoerceArea(area: AreaInput): NumberValue
  {
    match area
    case AreaNumber(n) => Finite(n)
    case AreaText(s) => ParseNumber(s)
  }

  /** The budget tier named by a string, when it names one. */
  function ParseBudget(s: string): (r: Option<BudgetLevel>)
    ensures r.Some? <==> s in BudgetTiers
    ensures r.Some? ==> BudgetName(r.value) == s
  {
    if s == "economy" then Some(Economy)
    else if s == "premium" then Some(Premium)
    else if s == "luxury" then Some(Luxury)
    else None
  }

  lemma ParseBudgetName(b: BudgetLevel)
    ensures ParseBudget(BudgetName(b)) == Some(b)
  {
  }

  function AreaIssues(area: AreaInput): seq<PlanIssue>
  {
    match CoerceArea(area)
    case NaN => [AreaNotANumber]
    case Finite(v) => if v < 1 then [AreaTooSmall] else []
  }

  function EnumIssues(value: Option<string>, allowed: seq<string>, required: PlanIssue, invalid: PlanIssue): seq<PlanIssue>
  {
    match value
    case None => [required]
    case Some(s) => if s in allowed then [] else [invalid]
  }

  /** `formSchema` as the resolver applies it: every field is checked and
      every failure reported, in field order.  The form is accepted iff the
      area coerces to a number of at least 1, the layout is one of the five
      codes and the budget level one of the three tiers; the other fields
      are optional and passed through unchanged. */
  function Validate(input: FormInput): (r: Result<PlanValues, seq<PlanIssue>>)
    ensures r.Ok? <==>
              CoerceArea(input.area).Finite? && CoerceArea(input.area).value >= 1
              && input.layout.Some? && input.layout.value in LayoutCodes
              && input.budgetLevel.Some? && input.budgetLevel.value in BudgetTiers
    ensures r.Ok? ==>
              Finite(r.value.area) == CoerceArea(input.area) && Some(r.value.layout) == input.layout
              && Some(BudgetName(r.value.budgetLevel)) == input.budgetLevel
              && r.value.householdProfile == input.householdProfile && r.value.focusAreas == input.focusAreas
              && r.value.customNeeds == input.customNeeds && r.value.floorPlan == input.floorPlan
    ensures r.Err? ==> r.error != []
    ensures r.Err? ==> (AreaNotANumber in r.error <==> CoerceArea(input.area).NaN?)
    ensures r.Err? ==> (AreaTooSmall in r.error <==> CoerceArea(input.area).Finite? && CoerceArea(input.area).value < 1)
    ensures r.Err? ==> (LayoutRequired in r.error <==> input.layout.None?)
    ensures r.Err? ==> (BudgetRequired in r.error <==> input.budgetLevel.None?)
    ensures r.Err? ==> (LayoutInvalid in r.error <==> input.layout.Some? && input.layout.value !in LayoutCodes)
    ensures r.Err? ==> (BudgetInvalid in r.error <==> input.budgetLevel.Some? && input.budgetLevel.value !in BudgetTiers)
  {
    var issues := AreaIssues(input.area)
      + EnumIssues(input.layout, LayoutCodes, LayoutRequired, LayoutInvalid)
      + EnumIssues(input.budgetLevel, BudgetTiers, BudgetRequired, BudgetInvalid);
    if issues == [] then
      Ok(PlanValues(CoerceArea(input.area).value, input.layout.value, ParseBudget(input.budgetLevel.value).value,
                    input.householdProfile, input.focusAreas, input.customNeeds, input.floorPlan))
    else Err(issues)
  }

  /** The form's `defaultValues`: area 110, layout '3r2l2b', empty tag lists
      and needs, and no budget tier. */
  const Defaults := FormInput(AreaNumber(110), Some("3r2l2b"), None, Some([]), Some([]), Some(""), None)

  /** The untouched form is rejected, for the missing budget tier alone. */
  lemma DefaultsRejected()
    ensures Validate(Defaults) == Err([BudgetRequired])
  {
    assert "3r2l2b" == LayoutCodes[2];
    assert AreaIssues(Defaults.area) == [];
    assert EnumIssues(Defaults.layout, LayoutCodes, LayoutRequired, LayoutInvalid) == [];
    assert EnumIssues(Defaults.budgetLevel, BudgetTiers, BudgetRequired, BudgetInvalid) == [BudgetRequired];
    assert [] + [] + [BudgetRequired] == [BudgetRequired];
  }

  /** Choosing any budget tier is all the untouched form needs. */
  lemma DefaultsWithBudgetAccepted(b: BudgetLevel)
    ensures Validate(Defaults.(budgetLevel := Some(BudgetName(b)))).Ok?
  {
    assert "3r2l2b" == LayoutCodes[2];
    assert BudgetName(b) in BudgetTiers;
  }

  /** `values.filter(v => v !== option)`: every occurrence removed, the rest
      kept with their multiplicities and, by `WithoutConcat`, in order. */
  function Without(values: seq<string>, option: string): (r: seq<string>)
    ensures multiset(r) == multiset(values)[option := 0]
    ensures |values| == 1 ==> r == (if values[0] == option then [] else values)
    decreases |values|
  {
    if values == [] then []
    else
      assert values == [values[0]] + values[1..];
      (if values[0] == option then [] else [values[0]]) + Without(values[1..], option)
  }

  /** The button's `onClick`: a selected option is removed (every occurrence),
      an unselected one appended at the end.  Its membership flips and no
      other value's membership changes. */
  function Toggle(current: Option<seq<string>>, option: string): (r: seq<string>)
    ensures option in r <==> !(current.Some? && option in current.value)
    ensures forall y :: y != option ==> (y in r <==> current.Some? && y in current.value)
    ensures !(current.Some? && option in current.value) ==> r == OrEmpty(current) + [option]
    ensures current.Some? && option in current.value ==> r == Without(current.value, option)
  {
    if current.Some? && option in current.value then
      var r := Without(current.value, option);
      assert forall y :: y in r <==> y in multiset(r);
      r
    else OrEmpty(current) + [option]
  }

  function OrEmpty(values: Option<seq<string>>): seq<string>
  {
    if values.Some? then values.value else []
  }

  /** The filter works piece by piece: filtering a concatenation filters
      each part and keeps them in order.  With the one-element case in
      `Without`'s contract this fixes the order of the kept values. */
  lemma {:induction false} WithoutConcat(xs: seq<string>, ys: seq<string>, option: string)
    ensures Without(xs + ys, option) == Without(xs, option) + Without(ys, option)
    decreases |xs|
  {
    if xs == [] {
      assert xs + ys == ys;
    } else {
      assert (xs + ys)[1..] == xs[1..] + ys;
      WithoutConcat(xs[1..], ys, option);
    }
  }

  lemma {:induction false} WithoutAbsent(values: seq<string>, option: string)
    requires option !in values
    ensures Without(values, option) == values
    decreases |values|
  {
    if values != [] {
      WithoutAbsent(values[1..], option);
      assert values == [values[0]] + values[1..];
    }
  }

  lemma {:induction false} WithoutAppended(values: seq<string>, option: string)
    ensures Without(values + [option], option) == Without(values, option)
    decreases |values|
  {
    if values == [] {
      assert Without([option], option) == [] + Without([], option);
    } else {
      assert (values + [option])[1..] == values[1..] + [option];
      WithoutAppended(values[1..], option);
    }
  }

  /** Toggling an unselected option twice gives back the original list. */
  lemma ToggleTwice(values: seq<string>, option: string)
    requires option !in values
    ensures Toggle(Some(Toggle(Some(values), option)), option) == values
  {
    WithoutAppended(values, option);
    WithoutAbsent(values, option);
  }

  /** One text entry per value, all under `name`, in order. */
  function TagEntries(name: string, values: seq<string>): (r: seq<Entry>)
    ensures |r| == |values|
    decreases |values|
  {
    if values == [] then []
    else TagEntries(name, values[..|values| - 1]) + [Entry(name, Text(values[|values| - 1]))]
  }

  /** The values as text form values, in order. */
  function Texts(values: seq<string>): (r: seq<EntryValue>)
    ensures |r| == |values|
    ensures forall i :: 0 <= i < |values| ==> r[i] == Text(values[i])
    decreases |values|
  {
    if values == [] then [] else [Text(values[0])] + Texts(values[1..])
  }

  /** `values.customNeeds || ''`. */
  function NeedsText(customNeeds: Option<string>): string
  {
    if customNeeds.Some? then customNeeds.value else ""
  }

  /** The fields `onSubmit` appends, in order: area as `String(area)`, layout,
      budget tier, the needs text, one entry per household-profile value,
      one per focus-area value, and the floor plan when one was chosen. */
  function Encoded(values: PlanValues): (entries: seq<Entry>)
    ensures |entries| == 4 + |OrEmpty(values.householdProfile)| + |OrEmpty(values.focusAreas)|
                           + (if values.floorPlan.Some? then 1 else 0)
  {
    [Entry("area", Text(IntToString(values.area))),
     Entry("layout", Text(values.layout)),
     Entry("budgetLevel", Text(BudgetName(values.budgetLevel))),
     Entry("customNeeds", Text(NeedsText(values.customNeeds)))]
    + TagEntries("householdProfile[]", OrEmpty(values.householdProfile))
    + TagEntries("focusAreas[]", OrEmpty(values.focusAreas))
    + (if values.floorPlan.Some? then [Entry("floorPlan", Blob(values.floorPlan.value))] else [])
  }

  /** `onSubmit`: the form data built by successive appends. */
  method OnSubmit(values: PlanValues) returns (formData: seq<Entry>)
    ensures formData == Encoded(values)
  {
    formData := [];
    formData := formData + [Entry("area", Text(IntToString(values.area)))];
    formData := formData + [Entry("layout", Text(values.layout))];
    formData := formData + [Entry("budgetLevel", Text(BudgetName(values.budgetLevel)))];
    formData := formData + [Entry("customNeeds", Text(NeedsText(values.customNeeds)))];
    var header := formData;

    var householdProfile := OrEmpty(values.householdProfile);
    for i := 0 to |householdProfile|
      invariant formData == header + TagEntries("householdProfile[]", householdProfile[..i])
    {
      assert householdProfile[..i + 1][..i] == householdProfile[..i];
      formData := formData + [Entry("householdProfile[]", Text(householdProfile[i]))];
    }
    assert householdProfile[..|householdProfile|] == householdProfile;
    var withProfile := formData;

    var focusAreas := OrEmpty(values.focusAreas);
    for i := 0 to |focusAreas|
      invariant formData == withProfile + TagEntries("focusAreas[]", focusAreas[..i])
    {
      assert focusAreas[..i + 1][..i] == focusAreas[..i];
      formData := formData + [Entry("focusAreas[]", Text(focusAreas[i]))];
    }
    assert focusAreas[..|focusAreas|] == focusAreas;

    if values.floorPlan.Some? {
      formData := formData + [Entry("floorPlan", Blob(values.floorPlan.value))];
    }
  }

  lemma {:induction false} GetAllTagEntries(name: string, values: seq<string>, other: string)
    ensures GetAll(TagEntries(name, values), name) == Texts(values)
    ensures other != name ==> GetAll(TagEntries(name, values), other) == []
    decreases |values|
  {
    if values != [] {
      var init := values[..|values| - 1];
      var last := values[|values| - 1];
      assert values == init + [last];
      var prev := TagEntries(name, init);
      assert TagEntries(name, values) == prev + [Entry(name, Text(last))];
      GetAllTagEntries(name, init, other);
      GetAllAppend(prev, Entry(name, Text(last)), name);
      GetAllAppend(prev, Entry(name, Text(last)), other);
      TextsAppend(init, last);
    }
  }

  /** `Texts` built from the back, as the loop appends. */
  lemma TextsAppend(init: seq<string>, x: string)
    ensures Texts(init + [x]) == Texts(init) + [Text(x)]
  {
    var a := Texts(init + [x]);
    var b := Texts(init) + [Text(x)];
    forall i | 0 <= i < |a|
      ensures a[i] == b[i]
    {
      if i < |init| {
        assert (init + [x])[i] == init[i];
      }
    }
  }

  /** The three parts after the four single fields. */
  function TagsAndPlan(values: PlanValues): seq<Entry>
  {
    TagEntries("householdProfile[]", OrEmpty(values.householdProfile))
    + (TagEntries("focusAreas[]", OrEmpty(values.focusAreas))
       + (if values.floorPlan.Some? then [Entry("floorPlan", Blob(values.floorPlan.value))] else []))
  }

  lemma EncodedSplits(values: PlanValues)
    ensures Encoded(values) == Encoded(values)[..4] + TagsAndPlan(values)
    ensures Encoded(values)[..4] == [Entry("area", Text(IntToString(values.area))),
                                     Entry("layout", Text(values.layout)),
                                     Entry("budgetLevel", Text(BudgetName(values.budgetLevel))),
                                     Entry("customNeeds", Text(NeedsText(values.customNeeds)))]
  {
  }

  /** A name no entry carries reads back as nothing. */
  lemma {:induction false} AbsentName(entries: seq<Entry>, name: string)
    requires forall i :: 0 <= i < |entries| ==> entries[i].name != name
    ensures GetAll(entries, name) == [] && Get(entries, name) == None
    decreases |entries|
  {
    if entries != [] {
      var init := entries[..|entries| - 1];
      AbsentName(init, name);
      GetAllAppend(init, entries[|entries| - 1], name);
      assert entries == init + [entries[|entries| - 1]];
    }
  }

  /** An entry whose name no earlier entry carries is what `get` reads. */
  lemma FirstOfName(entries: seq<Entry>, k: nat)
    requires k < |entries|
    requires forall j :: 0 <= j < k ==> entries[j].name != entries[k].name
    ensures Get(entries, entries[k].name) == Some(entries[k].value)
  {
  }

  /** Reading the four single fields back gives what was written. */
  lemma EncodedSingleFields(values: PlanValues)
    ensures Get(Encoded(values), "area") == Some(Text(IntToString(values.area)))
    ensures Get(Encoded(values), "layout") == Some(Text(values.layout))
    ensures Get(Encoded(values), "budgetLevel") == Some(Text(BudgetName(values.budgetLevel)))
    ensures Get(Encoded(values), "customNeeds") == Some(Text(NeedsText(values.customNeeds)))
  {
    EncodedSplits(values);
    var entries := Encoded(values);
    assert entries[0].name == "area" && entries[1].name == "layout";
    assert entries[2].name == "budgetLevel" && entries[3].name == "customNeeds";
    FirstOfName(entries, 0);
    FirstOfName(entries, 1);
    FirstOfName(entries, 2);
    FirstOfName(entries, 3);
  }

  /** `getAll` of either tag name gives back its selection, in order. */
  lemma EncodedTagFields(values: PlanValues)
    ensures GetAll(Encoded(values), "householdProfile[]") == Texts(OrEmpty(values.householdProfile))
    ensures GetAll(Encoded(values), "focusAreas[]") == Texts(OrEmpty(values.focusAreas))
  {
    EncodedProfileField(values);
    EncodedFocusField(values);
  }

  lemma EncodedProfileField(values: PlanValues)
    ensures GetAll(Encoded(values), "householdProfile[]") == Texts(OrEmpty(values.householdProfile))
  {
    EncodedSplits(values);
    var head := Encoded(values)[..4];
    var profile := TagEntries("householdProfile[]", OrEmpty(values.householdProfile));
    var focus := TagEntries("focusAreas[]", OrEmpty(values.focusAreas));
    var plan := if values.floorPlan.Some? then [Entry("floorPlan", Blob(values.floorPlan.value))] else [];
    assert Encoded(values) == head + (profile + (focus + plan));
    AbsentName(head, "householdProfile[]");
    AbsentName(plan, "householdProfile[]");
    GetAllTagEntries("focusAreas[]", OrEmpty(values.focusAreas), "householdProfile[]");
    GetAllTagEntries("householdProfile[]", OrEmpty(values.householdProfile), "focusAreas[]");
    TagFieldOf(head, profile, focus, plan, "householdProfile[]");
    var householdProfile := Texts(OrEmpty(values.householdProfile));
    assert [] + (householdProfile + ([] + [])) == householdProfile;
  }

  lemma EncodedFocusField(values: PlanValues)
    ensures GetAll(Encoded(values), "focusAreas[]") == Texts(OrEmpty(values.focusAreas))
  {
    EncodedSplits(values);
    var head := Encoded(values)[..4];
    var profile := TagEntries("householdProfile[]", OrEmpty(values.householdProfile));
    var focus := TagEntries("focusAreas[]", OrEmpty(values.focusAreas));
    var plan := if values.floorPlan.Some? then [Entry("floorPlan", Blob(values.floorPlan.value))] else [];
    assert Encoded(values) == head + (profile + (focus + plan));
    AbsentName(head, "focusAreas[]");
    AbsentName(plan, "focusAreas[]");
    GetAllTagEntries("householdProfile[]", OrEmpty(values.householdProfile), "focusAreas[]");
    GetAllTagEntries("focusAreas[]", OrEmpty(values.focusAreas), "householdProfile[]");
    TagFieldOf(head, profile, focus, plan, "focusAreas[]");
    var focusAreas := Texts(OrEmpty(values.focusAreas));
    assert [] + ([] + (focusAreas + [])) == focusAreas;
  }

  lemma TagFieldOf(head: seq<Entry>, profile: seq<Entry>, focus: seq<Entry>, plan: seq<Entry>, name: string)
    ensures GetAll(head + (profile + (focus + plan)), name) ==
              GetAll(head, name) + (GetAll(profile, name) + (GetAll(focus, name) + GetAll(plan, name)))
  {
    GetAllConcat(head, profile + (focus + plan), name);
    GetAllConcat(profile, focus + plan, name);
    GetAllConcat(focus, plan, name);
  }

  /** The floor plan is read back exactly when one was chosen. */
  lemma EncodedFloorPlan(values: PlanValues)
    ensures Get(Encoded(values), "floorPlan") ==
              if values.floorPlan.Some? then Some(Blob(values.floorPlan.value)) else None
  {
    EncodedSplits(values);
    var head := Encoded(values)[..4];
    var profile := TagEntries("householdProfile[]", OrEmpty(values.householdProfile));
    var focus := TagEntries("focusAreas[]", OrEmpty(values.focusAreas));
    var plan := if values.floorPlan.Some? then [Entry("floorPlan", Blob(values.floorPlan.value))] else [];
    assert Encoded(values) == head + (profile + (focus + plan));
    AbsentName(head, "floorPlan");
    TagNames("householdProfile[]", OrEmpty(values.householdProfile));
    TagNames("focusAreas[]", OrEmpty(values.focusAreas));
    AbsentName(profile, "floorPlan");
    AbsentName(focus, "floorPlan");
    GetConcat(head, profile + (focus + plan), "floorPlan");
    GetConcat(profile, focus + plan, "floorPlan");
    GetConcat(focus, plan, "floorPlan");
  }

  lemma {:induction false} TagNames(name: string, values: seq<string>)
    ensures forall i :: 0 <= i < |values| ==> TagEntries(name, values)[i].name == name
    decreases |values|
  {
    if values != [] {
      TagNames(name, values[..|values| - 1]);
    }
  }
}
