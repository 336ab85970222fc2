/**
 * The activity log (activity/page.tsx): the list of logged farm activities,
 * newest first, the form for a new entry, and the suggestion shown after an
 * entry is saved.
 *
 * Saving is one atomic step (the page's 1.5-second delay is not modelled).
 */
module ActivityLog {
  import opened Text

  datatype ActivityKind = Sowing | Irrigation | Fertilizer | PestIssue | Spraying | Harvest

  /** The `value` of each entry of `activityTypes`. */
  function KindValue(k: ActivityKind): string {
    match k
    case Sowing => "sowing"
    case Irrigation => "irrigation"
    case Fertilizer => "fertilizer"
    case PestIssue => "pest-issue"
    case Spraying => "spraying"
    case Harvest => "harvest"
  }

  datatype Activity = Activity(
    id: string,
    kind: ActivityKind,
    date: string,
    notes: string,
    crop: string,
    parcel: string,
    quantity: Option<string>,
    photoUrl: Option<string>)

  /** The values the form hands to `onSubmit`. */
  datatype ActivityForm = ActivityForm(
    kind: ActivityKind,
    date: string,
    crop: string,
    parcel: string,
    notes: string,
    quantity: string)

  datatype Suggestion = Suggestion(trigger: string, message: string)

  function InitialActivities(): seq<Activity> {
    [Activity("1", Sowing, "2024-07-20T10:30", "Sowed 1 acre of Uma variety paddy.", "Paddy", "p1", None,
              Some("https://picsum.photos/seed/sowing1/200/150")),
     Activity("2", Irrigation, "2024-07-22T09:00", "Canal irrigation for 2 hours.", "Paddy", "p1", None, None),
     Activity("3", PestIssue, "2024-07-25T15:00", "Spotted leafhoppers on several plants.", "Paddy", "p1", None,
              Some("https://picsum.photos/seed/pest1/200/150"))]
  }

  /** `smartSuggestions[type]`. */
  function SuggestionFor(k: ActivityKind): Option<Suggestion> {
    match k
    case Sowing => Some(Suggestion("Sowing Logged",
      "Irrigate lightly for the first 7 days to ensure good germination."))
    case PestIssue => Some(Suggestion("Pest Issue Logged",
      "An expert from our team will review the photo and provide a detailed advisory soon."))
    case Fertilizer => Some(Suggestion("Fertilizer Applied",
      "The next recommended fertilizer dose is in 15 days. Would you like to set a reminder?"))
    case _ => None
  }

  /** Exactly sowing, pest issues and fertilizer have a suggestion. */
  lemma SuggestionCases(k: ActivityKind)
    ensures SuggestionFor(k).Some? <==> k == Sowing || k == PestIssue || k == Fertilizer
  {
  }

  /** `activitySchema`: crop, parcel and date are required. */
  predicate FormValid(f: ActivityForm) {
    |f.crop| >= 1 && |f.parcel| >= 1 && |f.date| >= 1
  }

  /** `requiresQuantity`. */
  predicate RequiresQuantity(selected: Option<ActivityKind>) {
    selected == Some(Irrigation) || selected == Some(Fertilizer)
    || selected == Some(Harvest) || selected == Some(Spraying)
  }

  /** `quantityLabel`. */
  function QuantityLabel(selected: Option<ActivityKind>): string {
    if selected == Some(Irrigation) then "Duration / Amount (e.g., 2 hours)"
    else if selected == Some(Fertilizer) then "Dosage / Amount (e.g., 50kg)"
    else if selected == Some(Spraying) then "Dosage / Amount (e.g., 2L)"
    else if selected == Some(Harvest) then "Yield Quantity (e.g., 500kg)"
    else "Quantity"
  }

  /**
   * A quantity is asked for exactly for the four kinds that measure
   * something, and each of them gets a label of its own.
   */
  lemma QuantityLabels(a: Option<ActivityKind>, b: Option<ActivityKind>)
    ensures RequiresQuantity(a) <==> QuantityLabel(a) != "Quantity"
    ensures RequiresQuantity(a) && RequiresQuantity(b) && a != b ==> QuantityLabel(a) != QuantityLabel(b)
  {
  }

  // ---------------------------------------------------------------------------
  // Identifiers: each new entry is numbered one more than the length of the list.
  // ---------------------------------------------------------------------------

  /**
   * The ids of `acts` are the decimal forms of the distinct numbers `nums`,
   * each between 1 and the length of the list.
   */
  ghost predicate Numbered(acts: seq<Activity>, nums: seq<nat>) {
    |nums| == |acts|
    && (forall j :: 0 <= j < |acts| ==> acts[j].id == Decimal(nums[j]) && 1 <= nums[j] <= |acts|)
    && (forall j, k :: 0 <= j < k < |nums| ==> nums[j] != nums[k])
  }

  lemma InitialNumbered()
    ensures Numbered(InitialActivities(), [1, 2, 3])
  {
    assert Decimal(1) == "1" && Decimal(2) == "2" && Decimal(3) == "3";
  }

  /** Numbered lists have pairwise distinct ids. */
  lemma NumberedIdsDistinct(acts: seq<Activity>, nums: seq<nat>, j: nat, k: nat)
    requires Numbered(acts, nums)
    requires j < k < |acts|
    ensures acts[j].id != acts[k].id
  {
    if acts[j].id == acts[k].id {
      DecimalInjective(nums[j], nums[k]);
    }
  }

  /** Prepending an entry numbered one more than the length keeps the list numbered. */
  lemma PrependKeepsNumbered(acts: seq<Activity>, nums: seq<nat>, a: Activity)
    requires Numbered(acts, nums)
    requires a.id == Decimal(|acts| + 1)
    ensures Numbered([a] + acts, [|acts| + 1] + nums)
  {
    var acts' := [a] + acts;
    var nums' := [|acts| + 1] + nums;
    forall j, k | 0 <= j < k < |nums'|
      ensures nums'[j] != nums'[k]
    {
      if j > 0 {
        assert nums'[j] == nums[j - 1] && nums'[k] == nums[k - 1];
      } else {
        assert nums'[k] == nums[k - 1] <= |acts|;
      }
    }
    forall j | 0 <= j < |acts'|
      ensures acts'[j].id == Decimal(nums'[j]) && 1 <= nums'[j] <= |acts'|
    {
      if j > 0 {
        assert acts'[j] == acts[j - 1] && nums'[j] == nums[j - 1];
      }
    }
  }

  // ---------------------------------------------------------------------------
  // The "Set Reminder" button
  // ---------------------------------------------------------------------------

  /** As written: the button shows when the suggestion's trigger mentions "reminder". */
  predicate ReminderShownAsWritten(s: Option<Suggestion>) {
    s.Some? && Contains(s.value.trigger, "reminder")
  }

  /** As intended: the button shows when the suggestion offers a reminder, i.e. its message mentions one. */
  predicate ReminderShown(s: Option<Suggestion>) {
    s.Some? && Contains(s.value.message, "reminder")
  }

  /** No trigger mentions "reminder", so the button as written never shows. */
  lemma ReminderNeverShownAsWritten(k: ActivityKind)
    ensures !ReminderShownAsWritten(SuggestionFor(k))
  {
    // None of the triggers has the letter 'm'.
    match k
    case Sowing => MissingCharNotContained("Sowing Logged", "reminder", 2);
    case PestIssue => MissingCharNotContained("Pest Issue Logged", "reminder", 2);
    case Fertilizer => MissingCharNotContained("Fertilizer Applied", "reminder", 2);
    case _ =>
  }

  /** The intended test shows the button after logging fertilizer, whose message offers a reminder. */
  lemma ReminderShownForFertilizer()
    ensures ReminderShown(SuggestionFor(Fertilizer))
    ensures !ReminderShownAsWritten(SuggestionFor(Fertilizer))
  {
    var m := SuggestionFor(Fertilizer).value.message;
    assert m[76..84] == "reminder";
    OccursContains(m, "reminder", 76);
    ReminderNeverShownAsWritten(Fertilizer);
  }

  // ---------------------------------------------------------------------------
  // The page's state
  // ---------------------------------------------------------------------------

  class ActivityPage {
    var activities: seq<Activity>
    ghost var numbers: seq<nat>
    var isLogging: bool
    var isFormOpen: bool
    var selected: Option<ActivityKind>
    var lastSuggestion: Option<Suggestion>
    var imagePreview: Option<string>
    var form: Option<ActivityForm>

    ghost predicate Valid()
      reads this
    {
      Numbered(activities, numbers)
    }

    constructor()
      ensures Valid()
      ensures activities == InitialActivities()
      ensures !isLogging && !isFormOpen && selected.None? && lastSuggestion.None? && imagePreview.None?
    {
      activities := InitialActivities();
      numbers := [1, 2, 3];
      InitialNumbered();
      isLogging := false;
      isFormOpen := false;
      selected := None;
      lastSuggestion := None;
      imagePreview := None;
      form := None;
    }

    /** `handleActivitySelect`: a fresh form for `kind` (dated `now`) opens; preview and suggestion clear. */
    method Select(kind: ActivityKind, now: string)
      modifies this
      ensures selected == Some(kind) && form == Some(ActivityForm(kind, now, "", "", "", ""))
      ensures imagePreview.None? && lastSuggestion.None? && isFormOpen
      ensures activities == old(activities) && numbers == old(numbers) && isLogging == old(isLogging)
    {
      selected := Some(kind);
      form := Some(ActivityForm(kind, now, "", "", "", ""));
      imagePreview := None;
      lastSuggestion := None;
      isFormOpen := true;
    }

    /** The photo picker has loaded an image. */
    method SetImage(dataUrl: string)
      modifies this
      ensures imagePreview == Some(dataUrl)
      ensures activities == old(activities) && numbers == old(numbers) && form == old(form)
      ensures lastSuggestion == old(lastSuggestion) && isFormOpen == old(isFormOpen)
    {
      imagePreview := Some(dataUrl);
    }

    /** The remove button on the preview: the photo is dropped. */
    method ClearImage()
      modifies this
      ensures imagePreview.None?
      ensures activities == old(activities) && numbers == old(numbers) && form == old(form)
      ensures lastSuggestion == old(lastSuggestion) && isFormOpen == old(isFormOpen)
    {
      imagePreview := None;
    }

    /**
     * Submitting the form: invalid values change nothing; valid ones prepend
     * one entry numbered after the list's length, set the suggestion for its
     * kind, and close the form. The entry's date is `isoDate`, the form's date
     * as `new Date(date).toISOString()` writes it, which depends on the time
     * zone and is passed in; `None` when that call throws on a date it cannot
     * read, and then the saving step stops there with the log still busy. The
     * form's values are left as they are.
     */
    method Submit(data: ActivityForm, isoDate: Option<string>)
      requires Valid()
      modifies this
      ensures Valid()
      ensures !FormValid(data) ==>
        activities == old(activities) && numbers == old(numbers) && lastSuggestion == old(lastSuggestion)
        && isFormOpen == old(isFormOpen) && isLogging == old(isLogging)
      ensures FormValid(data) && isoDate.None? ==>
        activities == old(activities) && numbers == old(numbers) && lastSuggestion == old(lastSuggestion)
        && isFormOpen == old(isFormOpen) && isLogging
      ensures FormValid(data) && isoDate.Some? ==>
        activities == [Activity(Decimal(|old(activities)| + 1), data.kind, isoDate.value, data.notes, data.crop,
                                data.parcel, Some(data.quantity), old(imagePreview))] + old(activities)
        && lastSuggestion == SuggestionFor(data.kind) && !isFormOpen && !isLogging
      ensures form == old(form) && imagePreview == old(imagePreview) && selected == old(selected)
    {
      if !FormValid(data) {
        return;
      }
      isLogging := true;
      if isoDate.None? {
        return;
      }
      var a := Activity(Decimal(|activities| + 1), data.kind, isoDate.value, data.notes, data.crop,
                        data.parcel, Some(data.quantity), imagePreview);
      PrependKeepsNumbered(activities, numbers, a);
      numbers := [|activities| + 1] + numbers;
      activities := [a] + activities;
      lastSuggestion := SuggestionFor(data.kind);
      isFormOpen := false;
      isLogging := false;
    }
  }
}
