/**
 * The user menu of the dashboard header (components/dashboard/user-nav.tsx):
 * the avatar picture and initials, the name and village with their
 * fallbacks, and the sign-out item.
 *
 * The fallback texts are the translations of `userNav.farmer` and
 * `userNav.locationUnknown`, passed in as parameters.
 */
module UserNav {
  import opened Text
  import opened Farm
  import opened NameInitials
  import Chatbot
  import Session

  /** The picture shown when the profile has none. */
  const PlaceholderPhoto := "https://picsum.photos/seed/farmer/100/100"

  /** `profile?.photoUrl || placeholder`: a missing or empty photo URL falls back. */
  function AvatarUrl(profile: Option<FarmerProfile>): (r: string)
    ensures r == PlaceholderPhoto <==>
      profile.None? || profile.value.photoUrl.None? || profile.value.photoUrl.value in {"", PlaceholderPhoto}
    ensures r != PlaceholderPhoto ==> Some(r) == profile.value.photoUrl
  {
    if profile.Some? && profile.value.photoUrl.Some? && profile.value.photoUrl.value != ""
    then profile.value.photoUrl.value
    else PlaceholderPhoto
  }

  /** `profile?.name || farmerLabel`. */
  function DisplayName(profile: Option<FarmerProfile>, farmerLabel: string): string {
    if profile.Some? && profile.value.name != "" then profile.value.name else farmerLabel
  }

  /** `profile?.village || unknownLabel`. */
  function DisplayVillage(profile: Option<FarmerProfile>, unknownLabel: string): string {
    if profile.Some? && profile.value.village != "" then profile.value.village else unknownLabel
  }

  /**
   * The menu shows the farmer's own name and village when they are set and
   * the labels otherwise, so with non-empty labels it never shows an empty
   * line.
   */
  lemma DisplaySpec(profile: Option<FarmerProfile>, farmerLabel: string, unknownLabel: string)
    ensures DisplayName(profile, farmerLabel) != farmerLabel ==>
      profile.Some? && DisplayName(profile, farmerLabel) == profile.value.name
    ensures profile.Some? && profile.value.name != "" ==> DisplayName(profile, farmerLabel) == profile.value.name
    ensures DisplayVillage(profile, unknownLabel) != unknownLabel ==>
      profile.Some? && DisplayVillage(profile, unknownLabel) == profile.value.village
    ensures profile.Some? && profile.value.village != "" ==>
      DisplayVillage(profile, unknownLabel) == profile.value.village
    ensures farmerLabel != "" && unknownLabel != "" ==>
      DisplayName(profile, farmerLabel) != "" && DisplayVillage(profile, unknownLabel) != ""
  {
  }

  /**
   * The letters in the menu's avatar: `..` without a name or one without a
   * word. The model uses the corrected helper; on a well-spaced name it shows
   * what the page's helper as written shows.
   */
  function MenuInitials(profile: Option<FarmerProfile>): (r: string)
    ensures profile.None? || Words(profile.value.name) == [] ==> r == ".."
    ensures profile.Some? ==> r == Initials(Some(profile.value.name), "..")
    ensures profile.Some? && WellSpaced(profile.value.name) ==>
      r == InitialsAsWritten(Some(profile.value.name), "..")
  {
    if profile.None? then ".."
    else
      var name := profile.value.name;
      if WellSpaced(name) then AgreeOnWellSpaced(name, ".."); Initials(Some(name), "..")
      else Initials(Some(name), "..")
  }

  /**
   * The menu and the chat window show the same initials for a name with a
   * word in it; they differ only in their fallbacks.
   */
  lemma SameInitialsAsChat(profile: Option<FarmerProfile>)
    ensures profile.Some? && Words(profile.value.name) != [] ==>
      MenuInitials(profile) == Chatbot.AvatarInitials(profile)
    ensures profile.None? ==> MenuInitials(profile) == ".." && Chatbot.AvatarInitials(profile) == "F"
  {
  }

  /** `handleLogout`: everything is left to the session's `logout`. */
  method HandleLogout(session: Session.AppSession)
    modifies session
    ensures session.Valid()
    ensures session.storage == old(session.storage) - {Session.ProfileKey}
    ensures session.profile.None? && !session.isAuthenticated
    ensures session.language == old(session.language) && session.isLoading == old(session.isLoading)
    ensures session.pushed == old(session.pushed) + ["/login"]
  {
    session.Logout();
  }
}
