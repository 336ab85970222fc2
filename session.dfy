/**
 * The application session (app-context.tsx): the current language, the
 * signed-in farmer's profile, the authentication and loading flags, the
 * browser storage entry that keeps the profile between visits, and the rule
 * that redirects a visitor according to the session and the current path.
 *
 * Browser storage is a map from keys to texts; `router.push` is recorded as
 * the list of paths pushed so far.
 */
module Session {
  import opened Text
  import opened Farm
  import ProfileJson

  /** The storage key under which the profile is kept. */
  const ProfileKey := "farmerProfile"

  const PublicPaths := ["/", "/login", "/profile/new"]

  /**
   * The redirect `useApp` performs for a visitor on `path`: none while the
   * session is loading; a signed-in visitor on the login page goes to the
   * dashboard; a signed-out visitor outside the public paths goes to the login
   * page.
   */
  function RedirectTarget(isLoading: bool, isAuthenticated: bool, path: string): Option<string> {
    if isLoading then None
    else if isAuthenticated && path == "/login" then Some("/dashboard")
    else if !isAuthenticated && path !in PublicPaths then Some("/login")
    else None
  }

  /** Each redirect, in both directions, with the situation that calls for it. */
  lemma RedirectCases(isLoading: bool, isAuthenticated: bool, path: string)
    ensures RedirectTarget(isLoading, isAuthenticated, path) == Some("/dashboard")
      <==> !isLoading && isAuthenticated && path == "/login"
    ensures RedirectTarget(isLoading, isAuthenticated, path) == Some("/login")
      <==> !isLoading && !isAuthenticated && path != "/" && path != "/login" && path != "/profile/new"
    ensures RedirectTarget(isLoading, isAuthenticated, path).None?
      <==> (isLoading || (isAuthenticated && path != "/login")
            || (!isAuthenticated && (path == "/" || path == "/login" || path == "/profile/new")))
  {
  }

  /** Following a redirect never leads to a second one: the guard cannot loop. */
  lemma RedirectSettles(isLoading: bool, isAuthenticated: bool, path: string)
    requires RedirectTarget(isLoading, isAuthenticated, path).Some?
    ensures RedirectTarget(isLoading, isAuthenticated, RedirectTarget(isLoading, isAuthenticated, path).value).None?
  {
  }

  /** `profileData.language || language`: the profile's own language, else the session's. */
  function WithLanguage(p: FarmerProfile, current: Language): (r: FarmerProfile)
    ensures r.language.Some?
    ensures p.language.Some? ==> r.language == p.language
    ensures p.language.None? ==> r.language == Some(current)
    ensures r.(language := p.language) == p
  {
    p.(language := Some(if p.language.Some? then p.language.value else current))
  }

  class AppSession {
    var language: Language
    var profile: Option<FarmerProfile>
    var isAuthenticated: bool
    var isLoading: bool
    var storage: map<string, string>
    var pushed: seq<string>

    /**
     * The session agrees with storage: it is signed in exactly when it holds a
     * profile, and a profile it holds is the one the storage entry reads back as.
     */
    predicate Valid()
      reads this
    {
      (isAuthenticated <==> profile.Some?)
      && (profile.Some? ==> ProfileKey in storage && ProfileJson.Parse(storage[ProfileKey]) == profile)
    }

    /** The state before the load effect has run, over whatever the browser has stored. */
    constructor(stored: map<string, string>)
      ensures Valid()
      ensures language == En && profile.None? && !isAuthenticated && isLoading
      ensures storage == stored && pushed == []
    {
      language := En;
      profile := None;
      isAuthenticated := false;
      isLoading := true;
      storage := stored;
      pushed := [];
    }

    /**
     * The load effect: a non-empty stored entry that parses signs the farmer
     * in, in the profile's language (English when it has none); one that does
     * not parse is deleted. Loading ends in every case.
     */
    method Load()
      requires Valid()
      modifies this
      ensures Valid()
      ensures !isLoading && pushed == old(pushed)
      ensures old(ProfileKey !in storage || storage[ProfileKey] == "") ==>
        storage == old(storage) && profile == old(profile) && isAuthenticated == old(isAuthenticated)
        && language == old(language)
      ensures old(ProfileKey in storage && storage[ProfileKey] != "") ==>
        match old(ProfileJson.Parse(storage[ProfileKey]))
        case Some(p) =>
          storage == old(storage) && profile == Some(p) && isAuthenticated
          && language == (if p.language.Some? then p.language.value else En)
        case None =>
          storage == old(storage) - {ProfileKey} && profile == old(profile)
          && isAuthenticated == old(isAuthenticated) && language == old(language)
    {
      if ProfileKey in storage && storage[ProfileKey] != "" {
        var parsed := ProfileJson.Parse(storage[ProfileKey]);
        match parsed
        case Some(p) =>
          profile := Some(p);
          language := if p.language.Some? then p.language.value else En;
          isAuthenticated := true;
        case None =>
          // A profile held before would be the one the entry reads back as.
          assert profile.None?;
          storage := storage - {ProfileKey};
      }
      isLoading := false;
    }

    /**
     * `login`: the profile, completed with a language, is written to storage
     * and becomes the session's profile; the farmer is signed in.
     */
    method Login(p: FarmerProfile)
      modifies this
      ensures Valid()
      ensures profile == Some(WithLanguage(p, old(language)))
      ensures storage == old(storage)[ProfileKey := ProfileJson.Stringify(WithLanguage(p, old(language)))]
      ensures language == WithLanguage(p, old(language)).language.value
      ensures isAuthenticated && isLoading == old(isLoading) && pushed == old(pushed)
    {
      var data := WithLanguage(p, language);
      storage := storage[ProfileKey := ProfileJson.Stringify(data)];
      ProfileJson.RoundTrip(data);
      profile := Some(data);
      language := data.language.value;
      isAuthenticated := true;
    }

    /** `logout`: the entry is removed, the farmer signed out and sent to the login page. */
    method Logout()
      modifies this
      ensures Valid()
      ensures storage == old(storage) - {ProfileKey}
      ensures profile.None? && !isAuthenticated
      ensures language == old(language) && isLoading == old(isLoading)
      ensures pushed == old(pushed) + ["/login"]
    {
      storage := storage - {ProfileKey};
      profile := None;
      isAuthenticated := false;
      pushed := pushed + ["/login"];
    }

    /** `setLanguage`, as the language toggle calls it. */
    method SetLanguage(l: Language)
      modifies this
      requires Valid()
      ensures Valid()
      ensures language == l
      ensures profile == old(profile) && isAuthenticated == old(isAuthenticated)
      ensures isLoading == old(isLoading) && storage == old(storage) && pushed == old(pushed)
    {
      language := l;
    }

    /** The redirect effect of `useApp` on the current path. */
    method Guard(path: string)
      modifies this
      ensures pushed == old(pushed) + (match RedirectTarget(isLoading, isAuthenticated, path)
                                       case None => []
                                       case Some(t) => [t])
      ensures language == old(language) && profile == old(profile) && isAuthenticated == old(isAuthenticated)
      ensures isLoading == old(isLoading) && storage == old(storage)
    {
      var target := RedirectTarget(isLoading, isAuthenticated, path);
      if target.Some? {
        pushed := pushed + [target.value];
      }
    }
  }

  /**
   * What `login` stores is what the next visit loads: a fresh session over
   * the storage it left behind signs the same profile in.
   */
  method LoginThenReload(p: FarmerProfile, stored: map<string, string>, current: Language)
    returns (before: Option<FarmerProfile>, after: Option<FarmerProfile>)
    ensures before == after && after == Some(WithLanguage(p, current))
  {
    var s := new AppSession(stored);
    s.SetLanguage(current);
    s.Login(p);
    before := s.profile;
    var t := new AppSession(s.storage);
    var text := s.storage[ProfileKey];
    ProfileJson.RoundTrip(WithLanguage(p, current));
    assert ProfileJson.Parse(text).Some?;
    t.Load();
    after := t.profile;
  }
}
