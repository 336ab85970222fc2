/**
 * The profile page (profile/page.tsx): the declared constraints on a farmer
 * profile and its parcels, and the editor state — the form's values, the
 * editing flag, adding and removing parcels, cancelling, and saving through
 * the session's `login`.
 */
module ProfileForm {
  import opened Text
  import opened Farm
  import Session

  // ---------------------------------------------------------------------------
  // The schema
  // ---------------------------------------------------------------------------

  /** `parcelSchema`: land area at least 0.1 (one tenth), crops 2+, soil and irrigation 3+ characters. */
  predicate ParcelValid(p: FarmParcel) {
    p.landArea >= 1 && |p.crops| >= 2 && |p.soilType| >= 3 && |p.irrigationMethod| >= 3
  }

  /** `profileSchema`: name and village 2+ characters, at least one parcel, every parcel valid. */
  predicate ProfileValid(p: FarmerProfile) {
    |p.name| >= 2 && |p.village| >= 2 && |p.farmParcels| >= 1
    && forall k :: 0 <= k < |p.farmParcels| ==> ParcelValid(p.farmParcels[k])
  }

  /** The parcel "Add Farm Parcel" appends. */
  function NewParcel(): FarmParcel {
    FarmParcel(10, "", "", "")
  }

  /** The form's default values before any profile is loaded. */
  function DefaultForm(): FarmerProfile {
    FarmerProfile("", "", Some(""), Some(En), Some("https://picsum.photos/seed/farmer/100/100"), [])
  }

  /** `remove(index)`: the list without the element at `i`, the others in order. */
  function RemoveAt<T>(s: seq<T>, i: nat): (r: seq<T>)
    requires i < |s|
    ensures |r| == |s| - 1
    ensures forall j :: 0 <= j < i ==> r[j] == s[j]
    ensures forall j :: i <= j < |r| ==> r[j] == s[j + 1]
  {
    s[..i] + s[i + 1..]
  }

  /** A freshly added parcel is invalid until edited, so the form cannot be saved. */
  lemma AddedParcelBlocksSave(p: FarmerProfile)
    ensures !ParcelValid(NewParcel())
    ensures !ProfileValid(p.(farmParcels := p.farmParcels + [NewParcel()]))
  {
    var ps := p.farmParcels + [NewParcel()];
    assert ps[|ps| - 1] == NewParcel();
  }

  /** Removing a parcel from a valid profile keeps it valid, unless it was the only one. */
  lemma RemoveKeepsValid(p: FarmerProfile, i: nat)
    requires ProfileValid(p) && i < |p.farmParcels|
    ensures ProfileValid(p.(farmParcels := RemoveAt(p.farmParcels, i))) <==> |p.farmParcels| >= 2
  {
    var r := RemoveAt(p.farmParcels, i);
    forall k | 0 <= k < |r|
      ensures ParcelValid(r[k])
    {
      if k < i {
        assert r[k] == p.farmParcels[k];
      } else {
        assert r[k] == p.farmParcels[k + 1];
      }
    }
  }

  /** The page's own guard sends a signed-out visitor to the login page once loading ends. */
  function PageRedirect(isAppLoading: bool, isAuthenticated: bool): (r: Option<string>)
    ensures r.Some? ==> r.value == "/login"
    ensures r.Some? <==> !isAppLoading && !isAuthenticated
  {
    if !isAppLoading && !isAuthenticated then Some("/login") else None
  }

  /** On `/profile` the page's guard and the application's guard agree. */
  lemma PageRedirectAgrees(isAppLoading: bool, isAuthenticated: bool)
    ensures PageRedirect(isAppLoading, isAuthenticated)
      == Session.RedirectTarget(isAppLoading, isAuthenticated, "/profile")
  {
  }

  // ---------------------------------------------------------------------------
  // The editor
  // ---------------------------------------------------------------------------

  class ProfileEditor {
    var form: FarmerProfile
    var isEditing: bool
    var isSaving: bool
    const session: Session.AppSession

    constructor(s: Session.AppSession)
      ensures form == DefaultForm() && !isEditing && !isSaving && session == s
    {
      form := DefaultForm();
      isEditing := false;
      isSaving := false;
      session := s;
    }

    /**
     * The effect run when the session's profile changes: the form takes the
     * profile's values, and a profile without parcels opens the editor.
     */
    method ProfileChanged()
      modifies this
      ensures match old(session.profile)
        case None => form == old(form) && isEditing == old(isEditing)
        case Some(p) => form == p && isEditing == (old(isEditing) || |p.farmParcels| == 0)
      ensures isSaving == old(isSaving)
    {
      if session.profile.Some? {
        form := session.profile.value;
        if |form.farmParcels| == 0 {
          isEditing := true;
        }
      }
    }

    /** "Edit Profile". */
    method Edit()
      modifies this
      ensures isEditing && form == old(form) && isSaving == old(isSaving)
    {
      isEditing := true;
    }

    /** "Add Farm Parcel", shown only while editing. */
    method AddParcel()
      requires isEditing
      modifies this
      ensures form == old(form).(farmParcels := old(form.farmParcels) + [NewParcel()])
      ensures isEditing && isSaving == old(isSaving)
    {
      form := form.(farmParcels := form.farmParcels + [NewParcel()]);
    }

    /** The delete button of parcel `i`, shown only while editing. */
    method RemoveParcel(i: nat)
      requires isEditing && i < |form.farmParcels|
      modifies this
      ensures form == old(form).(farmParcels := RemoveAt(old(form.farmParcels), i))
      ensures isEditing && isSaving == old(isSaving)
    {
      form := form.(farmParcels := RemoveAt(form.farmParcels, i));
    }

    /** "Cancel": leave editing and reset the form to the stored profile. */
    method Cancel()
      modifies this
      ensures !isEditing && isSaving == old(isSaving)
      ensures form == (if session.profile.Some? then session.profile.value else DefaultForm())
    {
      isEditing := false;
      form := if session.profile.Some? then session.profile.value else DefaultForm();
    }

    /**
     * "Save Profile": a form that meets the schema is passed to `login` and
     * editing ends; otherwise nothing changes.
     */
    method Submit()
      requires !isSaving
      modifies this, session
      ensures ProfileValid(old(form)) ==>
        !isEditing && session.profile == Some(Session.WithLanguage(old(form), old(session.language)))
        && session.isAuthenticated && session.Valid()
      ensures !ProfileValid(old(form)) ==>
        isEditing == old(isEditing) && unchanged(session)
      ensures form == old(form) && !isSaving
    {
      if ProfileValid(form) {
        session.Login(form);
        isEditing := false;
      }
    }
  }
}
