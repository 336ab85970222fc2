/**
 * The sign-in wizard (login/page.tsx): phone number, one-time password, then
 * — for a new farmer — name and village, then the first farm parcel.
 *
 * Each press of the primary button is one atomic step (the page's one-second
 * delays are not modelled, so the loading flag is back to false after every
 * step). Whether the form library accepts the fields of the otp, newUser and
 * newFarm steps is decided outside this page and is a parameter `fieldsValid`.
 */
module Login {
  import opened Text
  import opened Farm
  import Session
  import ProfileForm

  datatype Step = Phone | Otp | NewUser | NewFarm

  /** The form's values. The land area is in tenths of an acre. */
  datatype LoginInputs = LoginInputs(
    phone: string,
    otp: string,
    name: string,
    village: string,
    landArea: int,
    crops: string,
    soilType: string)

  const DemoOtp := "123456"

  /** What one press of the primary button does. */
  datatype Action =
    | Stay(invalidOtp: bool)          // nothing changes; `invalidOtp` reports the OTP error
    | Goto(next: Step)                // the wizard moves to another step
    | SignIn(profile: FarmerProfile, title: string)  // `login` is called, then the dashboard

  /** `LoginSchema.phone`: at least ten characters. */
  predicate PhoneValid(phone: string) {
    |phone| >= 10
  }

  /** The fixed profile a returning (demo) farmer signs in with. */
  function DemoProfile(): FarmerProfile {
    FarmerProfile("Suresh Kumar", "Kuttanad", Some("9.418, 76.433"), Some(Ml), None,
      [FarmParcel(25, "Paddy", "Alluvial", "Canal"),
       FarmParcel(10, "Coconut, Banana", "Lateritic", "Well")])
  }

  /** The profile a new farmer's answers make. */
  function NewProfile(d: LoginInputs): FarmerProfile {
    FarmerProfile(d.name, d.village, None, Some(Ml), None,
      [FarmParcel(d.landArea, d.crops, d.soilType, "Unknown")])
  }

  /** `handlePrimaryAction`, step by step. */
  function Primary(step: Step, d: LoginInputs, fieldsValid: bool): Action {
    match step
    case Phone => if PhoneValid(d.phone) then Goto(Otp) else Stay(false)
    case Otp =>
      if !fieldsValid || d.otp != DemoOtp then Stay(true)
      else if EndsWith(d.phone, "0000") then Goto(NewUser)
      else SignIn(DemoProfile(), "login.loginSuccess")
    case NewUser => if fieldsValid then Goto(NewFarm) else Stay(false)
    case NewFarm => if fieldsValid then SignIn(NewProfile(d), "login.profileCreated") else Stay(false)
  }

  /** `getButtonText`: the translation key of the primary button's label. */
  function ButtonTextKey(isLoading: bool, step: Step): (r: string)
    ensures isLoading <==> r == "login.processing"
  {
    if isLoading then "login.processing"
    else match step
      case Phone => "login.sendOtp"
      case Otp => "login.verifyOtp"
      case NewUser => "login.newUser.nextButton"
      case NewFarm => "login.newFarm.completeButton"
  }

  /** `getTitle`: the translation key of the card's title. */
  function TitleKey(step: Step): (r: string)
    ensures r == "login.subtitle" <==> step == Phone || step == Otp
  {
    match step
    case NewUser => "login.newUser.title"
    case NewFarm => "login.newFarm.title"
    case _ => "login.subtitle"
  }

  /** The step the link button leads back to, where the step shows one. */
  function Back(step: Step): Option<Step> {
    match step
    case NewFarm => Some(NewUser)
    case Otp => Some(Phone)
    case _ => None
  }

  function Rank(step: Step): nat {
    match step
    case Phone => 0
    case Otp => 1
    case NewUser => 2
    case NewFarm => 3
  }

  // ---------------------------------------------------------------------------
  // What the wizard promises
  // ---------------------------------------------------------------------------

  /** From the phone step, the wizard moves on exactly when the number is long enough. */
  lemma PhoneStep(d: LoginInputs, fieldsValid: bool)
    ensures Primary(Phone, d, fieldsValid) == Goto(Otp) <==> |d.phone| >= 10
    ensures Primary(Phone, d, fieldsValid) != Goto(Otp) ==> Primary(Phone, d, fieldsValid) == Stay(false)
  {
  }

  /**
   * A wrong OTP keeps the wizard where it is and reports it; the right one
   * leads a phone ending in 0000 to registration and anyone else into the
   * demo account.
   */
  lemma OtpStep(d: LoginInputs, fieldsValid: bool)
    ensures d.otp != "123456" ==> Primary(Otp, d, fieldsValid) == Stay(true)
    ensures fieldsValid && d.otp == "123456" ==>
      (Primary(Otp, d, fieldsValid) == Goto(NewUser) <==> EndsWith(d.phone, "0000"))
    ensures fieldsValid && d.otp == "123456" && !EndsWith(d.phone, "0000") ==>
      Primary(Otp, d, fieldsValid).SignIn? && Primary(Otp, d, fieldsValid).profile == DemoProfile()
  {
  }

  /** Only a correct OTP or a completed registration signs anyone in. */
  lemma SignInOnlyAfterOtpOrRegistration(step: Step, d: LoginInputs, fieldsValid: bool)
    requires Primary(step, d, fieldsValid).SignIn?
    ensures (step == Otp && d.otp == "123456" && !EndsWith(d.phone, "0000")) || step == NewFarm
  {
  }

  /** The primary button never moves the wizard backwards; only the link buttons do. */
  lemma PrimaryMovesForward(step: Step, d: LoginInputs, fieldsValid: bool)
    requires Primary(step, d, fieldsValid).Goto?
    ensures Rank(Primary(step, d, fieldsValid).next) == Rank(step) + 1
  {
  }

  /** Each link button undoes the forward move that led to its step. */
  lemma BackUndoesForward(step: Step)
    requires Back(step).Some?
    ensures Rank(Back(step).value) + 1 == Rank(step)
    ensures step == NewFarm ==> Back(step) == Some(NewUser)
    ensures step == Otp ==> Back(step) == Some(Phone)
  {
  }

  /**
   * A new farmer's profile is in Malayalam, has exactly the one parcel
   * entered with irrigation "Unknown", and meets the profile page's schema
   * exactly when the entered fields do.
   */
  lemma NewProfileShape(d: LoginInputs)
    ensures NewProfile(d).language == Some(Ml)
    ensures |NewProfile(d).farmParcels| == 1
    ensures NewProfile(d).farmParcels[0] == FarmParcel(d.landArea, d.crops, d.soilType, "Unknown")
    ensures ProfileForm.ProfileValid(NewProfile(d)) <==>
      |d.name| >= 2 && |d.village| >= 2 && d.landArea >= 1 && |d.crops| >= 2 && |d.soilType| >= 3
  {
    var p := NewProfile(d);
    if |d.name| >= 2 && |d.village| >= 2 && d.landArea >= 1 && |d.crops| >= 2 && |d.soilType| >= 3 {
      assert ProfileForm.ParcelValid(p.farmParcels[0]);
    }
  }

  /** The demo account meets the profile page's schema. */
  lemma DemoProfileValid()
    ensures ProfileForm.ProfileValid(DemoProfile())
    ensures |DemoProfile().farmParcels| == 2
  {
    var ps := DemoProfile().farmParcels;
    assert ProfileForm.ParcelValid(ps[0]) && ProfileForm.ParcelValid(ps[1]);
  }

  // ---------------------------------------------------------------------------
  // The page's state
  // ---------------------------------------------------------------------------

  class LoginWizard {
    var step: Step
    var isLoading: bool
    var toasts: seq<string>
    var pushed: seq<string>
    const session: Session.AppSession

    constructor(s: Session.AppSession)
      ensures step == Phone && !isLoading && toasts == [] && pushed == [] && session == s
    {
      step := Phone;
      isLoading := false;
      toasts := [];
      pushed := [];
      session := s;
    }

    /** One press of the primary button; the translation keys of the toasts are recorded. */
    method HandlePrimaryAction(d: LoginInputs, fieldsValid: bool)
      requires !isLoading
      modifies this, session
      ensures !isLoading
      ensures match Primary(old(step), d, fieldsValid)
        case Stay(invalid) =>
          step == old(step) && unchanged(session) && pushed == old(pushed)
          && toasts == old(toasts) + (if invalid then ["login.invalidOtp"] else [])
        case Goto(next) =>
          step == next && unchanged(session) && pushed == old(pushed)
          && toasts == old(toasts) + (if next == Otp then ["login.otpSent"] else [])
        case SignIn(p, title) =>
          step == old(step) && pushed == old(pushed) + ["/dashboard"] && toasts == old(toasts) + [title]
          && session.Valid() && session.isAuthenticated
          && session.profile == Some(Session.WithLanguage(p, old(session.language)))
    {
      match Primary(step, d, fieldsValid)
      case Stay(invalid) =>
        if invalid {
          toasts := toasts + ["login.invalidOtp"];
        }
      case Goto(next) =>
        step := next;
        if next == Otp {
          toasts := toasts + ["login.otpSent"];
        }
      case SignIn(p, title) =>
        session.Login(p);
        toasts := toasts + [title];
        pushed := pushed + ["/dashboard"];
    }

    /** The "change number" and "go back" link buttons. */
    method GoBack()
      requires !isLoading && Back(step).Some?
      modifies this
      ensures step == old(Back(step).value)
      ensures toasts == old(toasts) && pushed == old(pushed) && !isLoading
    {
      step := Back(step).value;
    }
  }
}
