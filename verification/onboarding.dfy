/**
  The three-step onboarding wizard: basic details, location, then crops and
  language. `Next` validates the current step before moving on; the last step
  saves the profile and leaves for the dashboard.
 */
module Onboarding {
  import opened Wrappers
  import opened Types
  import opened Seqs
  import Text
  import Storage

  const States := ["Karnataka", "Maharashtra", "Tamil Nadu", "Kerala", "Punjab", "Haryana"]
  const Crops := ["Rice", "Wheat", "Tomato", "Potato", "Onion", "Sugarcane", "Cotton", "Maize"]
  const Languages := ["English", "Hindi", "Kannada", "Tamil", "Telugu", "Marathi"]

  /** The mobile number the demo accepts without a notice. */
  const DemoOtp := "111111"
  const Dashboard := "/dashboard"

  const InitialForm := UserProfile("", "", "", "", "", "", [], "English", true)

  const FillAllFields := Toast("Please fill all fields", None, true)
  const DemoMode := Toast("Demo Mode", Some("For demo, use mobile: 111111"), false)
  const SelectLocation := Toast("Please select location", None, true)
  const SelectCrop := Toast("Please select at least one crop", None, true)
  const ProfileSaved := Toast("Profile saved!", Some("Welcome to Kisan+"), false)

  /** The form fields that text inputs and selects write. */
  datatype Field = Name | Mobile | Village | District | State | LandSize | Language

  function FieldValue(form: UserProfile, f: Field): string {
    match f
    case Name => form.name
    case Mobile => form.mobile
    case Village => form.village
    case District => form.district
    case State => form.state
    case LandSize => form.landSize
    case Language => form.language
  }

  /** `setFormData(prev => ({ ...prev, <field>: value }))`. */
  function SetField(form: UserProfile, f: Field, value: string): (r: UserProfile)
    ensures FieldValue(r, f) == value
    ensures forall g :: g != f ==> FieldValue(r, g) == FieldValue(form, g)
    ensures r.mainCrops == form.mainCrops && r.useDemoData == form.useDemoData
  {
    match f
    case Name => form.(name := value)
    case Mobile => form.(mobile := value)
    case Village => form.(village := value)
    case District => form.(district := value)
    case State => form.(state := value)
    case LandSize => form.(landSize := value)
    case Language => form.(language := value)
  }

  /**
    The crop checkbox: a crop already selected is removed (every occurrence),
    any other crop is appended at the end.
   */
  function ToggleCrop(crops: seq<string>, crop: string): (r: seq<string>)
    ensures crop in r <==> crop !in crops
    ensures forall c :: c != crop ==> (c in r <==> c in crops)
    ensures crop !in crops ==> r == crops + [crop]
    ensures crop in crops ==> IsSubsequence(r, crops) && multiset(r) == multiset(crops)[crop := 0]
  {
    if crop in crops then
      WithoutIsSubsequence(crops, crop);
      var r := Without(crops, crop);
      assert forall c :: c in r <==> multiset(r)[c] > 0;
      assert forall c :: c in crops <==> multiset(crops)[c] > 0;
      r
    else
      crops + [crop]
  }

  /** Toggling a crop that was not selected twice gives back the same list. */
  lemma ToggleTwiceRestores(crops: seq<string>, crop: string)
    requires crop !in crops
    ensures ToggleCrop(ToggleCrop(crops, crop), crop) == crops
  {
    WithoutAppend(crops, [crop], crop);
    assert Without([crop], crop) == [];
  }

  /** Toggling a selected crop twice moves it, once, to the end. */
  lemma ToggleTwiceMovesToEnd(crops: seq<string>, crop: string)
    requires crop in crops
    ensures ToggleCrop(ToggleCrop(crops, crop), crop) == Without(crops, crop) + [crop]
  {
  }

  /** A duplicate-free crop list stays duplicate-free under toggling. */
  lemma ToggleKeepsDistinct(crops: seq<string>, crop: string)
    requires Distinct(crops)
    ensures Distinct(ToggleCrop(crops, crop))
  {
  }

  /** What one press of Next/Get Started does. */
  datatype Transition = Transition(
    step: int,
    toast: Option<Toast>,
    saved: Option<UserProfile>,
    route: Option<string>)

  /** `handleNext` as a function of the step and the form. */
  function Advance(step: int, form: UserProfile): (t: Transition)
    ensures t.step == step || ((step == 1 || step == 2) && t.step == step + 1)
    ensures t.saved.Some? ==> step != 1 && step != 2 && t.saved == Some(form) && form.mainCrops != []
    ensures t.route.Some? <==> t.saved.Some?
    ensures t.route.Some? ==> t.route == Some(Dashboard)
  {
    if step == 1 then
      if form.name == "" || form.mobile == "" then Transition(step, Some(FillAllFields), None, None)
      else Transition(2, if !Text.Contains(form.mobile, DemoOtp) then Some(DemoMode) else None, None, None)
    else if step == 2 then
      if form.state == "" || form.district == "" then Transition(step, Some(SelectLocation), None, None)
      else Transition(3, None, None, None)
    else if form.mainCrops == [] then Transition(step, Some(SelectCrop), None, None)
    else Transition(step, Some(ProfileSaved), Some(form), Some(Dashboard))
  }

  /** Step 1 moves on exactly when both name and mobile are filled in. */
  lemma StepOneGate(form: UserProfile)
    ensures Advance(1, form).step == 2 <==> form.name != "" && form.mobile != ""
    ensures Advance(1, form).step != 2 ==> Advance(1, form).step == 1 && Advance(1, form).toast == Some(FillAllFields)
  {
  }

  /**
    A mobile number without the demo OTP in it only raises the demo notice:
    the wizard still moves to step 2.
   */
  lemma DemoNoticeDoesNotBlock(form: UserProfile)
    requires form.name != "" && form.mobile != ""
    ensures Advance(1, form).step == 2
    ensures Advance(1, form).toast == Some(DemoMode) <==> !Text.Occurs(form.mobile, DemoOtp)
  {
    Text.ContainsIffOccurs(form.mobile, DemoOtp);
  }

  /** Step 2 moves on exactly when state and district are filled in; village and land size are not checked. */
  lemma StepTwoGate(form: UserProfile, village: string, landSize: string)
    ensures Advance(2, form).step == 3 <==> form.state != "" && form.district != ""
    ensures Advance(2, form.(village := village, landSize := landSize)) == Advance(2, form)
  {
  }

  /** The last step saves the profile exactly when at least one crop is selected, and never moves past step 3. */
  lemma FinishGate(form: UserProfile)
    ensures Advance(3, form).saved.Some? <==> form.mainCrops != []
    ensures Advance(3, form).step == 3
    ensures form.mainCrops == [] ==> Advance(3, form).toast == Some(SelectCrop)
  {
  }

  /** The initial form holds no crops, so finishing straight away is refused. */
  lemma InitialFormCannotFinish()
    ensures InitialForm.language == "English" && InitialForm.useDemoData
    ensures Advance(3, InitialForm).saved == None && Advance(3, InitialForm).toast == Some(SelectCrop)
  {
  }

  /** The wizard's state: the current step and the form so far. */
  class Wizard {
    var step: int
    var form: UserProfile
    const store: Storage.LocalStore

    ghost predicate Valid()
      reads this
    {
      1 <= step <= 3 && Distinct(form.mainCrops)
    }

    constructor (store: Storage.LocalStore)
      ensures Valid() && step == 1 && form == InitialForm && this.store == store
    {
      step := 1;
      form := InitialForm;
      this.store := store;
    }

    /** The Back button, rendered only from step 2 on. */
    method Back()
      requires Valid() && step > 1
      modifies this
      ensures Valid() && step == old(step) - 1 && form == old(form)
    {
      step := step - 1;
    }

    /** A text input or select writing one field. */
    method Edit(f: Field, value: string)
      requires Valid()
      modifies this
      ensures Valid() && step == old(step) && form == SetField(old(form), f, value)
    {
      form := SetField(form, f, value);
    }

    /** `handleCropToggle`. */
    method HandleCropToggle(crop: string)
      requires Valid()
      modifies this
      ensures Valid() && step == old(step)
      ensures form == old(form).(mainCrops := ToggleCrop(old(form.mainCrops), crop))
    {
      ToggleKeepsDistinct(form.mainCrops, crop);
      form := form.(mainCrops := ToggleCrop(form.mainCrops, crop));
    }

    /** `handleNext`: validate the current step, then advance or save. */
    method HandleNext() returns (toast: Option<Toast>, route: Option<string>)
      requires Valid()
      modifies this, store
      ensures Valid() && form == old(form)
      ensures step == Advance(old(step), old(form)).step
      ensures toast == Advance(old(step), old(form)).toast
      ensures route == Advance(old(step), old(form)).route
      ensures store.profile == if old(step) == 3 && old(form.mainCrops) != [] then Some(old(form)) else old(store.profile)
      ensures store.history == old(store.history)
    {
      route := None;
      if step == 1 {
        if form.name == "" || form.mobile == "" {
          toast := Some(FillAllFields);
          return;
        }
        toast := None;
        if !Text.Contains(form.mobile, DemoOtp) {
          toast := Some(DemoMode);
        }
        step := 2;
      } else if step == 2 {
        if form.state == "" || form.district == "" {
          toast := Some(SelectLocation);
          return;
        }
        toast := None;
        step := 3;
      } else {
        if form.mainCrops == [] {
          toast := Some(SelectCrop);
          return;
        }
        store.SaveProfile(form);
        toast := Some(ProfileSaved);
        route := Some(Dashboard);
      }
    }
  }
}
