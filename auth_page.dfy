// frontend/src/pages/AuthPage.js: the three-step sign-in wizard (phone, OTP,
// registration). Each handler is a transition over the page state driven by
// the outcome of its requests; toasts and console output are not modelled,
// and `route` records the last navigate() call.
module AuthPage {
  import opened Wrappers
  import opened Models
  import Utils
  import Server
  import OtpService

  datatype Step = PhoneStep | OtpStep | RegisterStep

  /** formData: every field a text input, the role a radio value. */
  datatype FormData = FormData(
    role: string, name: string, email: string, businessName: string,
    brandShopName: string, gstNumber: string, gstRegisteredName: string)

  /** What login(user, token) of the auth context stores. */
  datatype Session = Session(user: Option<User>, token: Option<string>)

  datatype WizardState = WizardState(
    step: Step, phone: string, otp: string, otpSid: Option<string>,
    isExistingUser: bool, loading: bool, demoOtp: string, form: FormData,
    session: Option<Session>, route: Option<string>)

  const InitialForm := FormData("CUSTOMER", "", "", "", "", "", "")

  function Initial(): (st: WizardState)
    ensures st.step == PhoneStep && st.form.role == "CUSTOMER" && st.demoOtp == ""
    ensures st.session.None? && st.route.None? && !st.loading
  {
    WizardState(PhoneStep, "", "", None, false, false, "", InitialForm, None, None)
  }

  /** JavaScript's s.includes(sub). */
  predicate Includes(s: string, sub: string) {
    exists i: nat | i + |sub| <= |s| :: SubAt(s, sub, i)
  }

  predicate SubAt(s: string, sub: string, i: nat)
    requires i + |sub| <= |s|
  {
    s[i..i + |sub|] == sub
  }

  // ---------------------------------------------------------------- send OTP

  /** handleSendOTP after its request to /auth/send-otp has settled. */
  function OnSendOtp(st: WizardState, res: Outcome<Server.OtpReply>): WizardState {
    match res
    case Response(d) =>
      if d.success then
        st.(otpSid := d.sid, step := OtpStep, demoOtp := if Truthy(d.otp) then d.otp.value else st.demoOtp,
            loading := false)
      else st.(loading := false)
    case Failure(_, _) => st.(loading := false)
  }

  /** A successful send moves to the OTP step with the returned sid; the demo code
      is shown exactly when the reply carries one; otherwise nothing but loading changes. */
  lemma SendOtpTransitions(st: WizardState, res: Outcome<Server.OtpReply>)
    ensures var s := OnSendOtp(st, res);
      !s.loading && s.phone == st.phone && s.form == st.form && s.session == st.session && s.route == st.route &&
      (res.Response? && res.body.success ==>
        s.step == OtpStep && s.otpSid == res.body.sid &&
        (s.demoOtp == (if Truthy(res.body.otp) then res.body.otp.value else st.demoOtp))) &&
      (!(res.Response? && res.body.success) ==> s == st.(loading := false))
  {
  }

  // ---------------------------------------------------------------- verify OTP

  /** The catch block of handleVerifyOTP: a 404, or a message that mentions
      "not found", sends the user to registration. */
  function OnVerifyError(st: WizardState, status: Option<int>, message: Option<string>): WizardState {
    if status == Some(404) || (message.Some? && Includes(message.value, "not found")) then
      st.(isExistingUser := false, step := RegisterStep, loading := false)
    else st.(loading := false)
  }

  /** Where a signed-in user lands. */
  function HomeRoute(user: User): (r: string)
    ensures r == "/admin" <==> user.info.role == Admin
    ensures r != "/admin" ==> r == "/products"
  {
    if RoleValue(user.info.role) == "ADMIN" then "/admin" else "/products"
  }

  /** handleVerifyOTP: the verify request, then (only after a successful verify)
      the login request. Reading .role of a missing user throws inside the try. */
  function OnVerify(st: WizardState, verify: Outcome<Server.OtpReply>, login: Outcome<LoginResponse>): WizardState {
    match verify
    case Failure(status, message) => OnVerifyError(st, status, message)
    case Response(v) =>
      if !v.success then st.(loading := false)
      else match login
        case Failure(status, message) => OnVerifyError(st, status, message)
        case Response(l) =>
          if !l.success then st.(isExistingUser := false, step := RegisterStep, loading := false)
          else
            var signedIn := st.(session := Some(Session(l.user, l.token)));
            if l.user.None? then OnVerifyError(signedIn, None, None)
            else signedIn.(route := Some(HomeRoute(l.user.value)), loading := false)
  }

  /** The outcomes of the verify step, case by case. */
  lemma VerifyTransitions(st: WizardState, verify: Outcome<Server.OtpReply>, login: Outcome<LoginResponse>)
    ensures var s := OnVerify(st, verify, login);
      !s.loading && s.phone == st.phone && s.otp == st.otp && s.form == st.form &&
      (verify.Response? && !verify.body.success ==> s == st.(loading := false)) &&
      (verify.Response? && verify.body.success && login.Response? && login.body.success && login.body.user.Some? ==>
        s.step == st.step && s.session == Some(Session(login.body.user, login.body.token)) &&
        s.route == Some(HomeRoute(login.body.user.value))) &&
      (verify.Response? && verify.body.success && login.Response? && !login.body.success ==>
        s.step == RegisterStep && s.route == st.route && s.session == st.session) &&
      (verify.Response? && verify.body.success && login.Response? && login.body.success && login.body.user.None? ==>
        s == st.(session := Some(Session(None, login.body.token)), loading := false))
  {
  }

  /** A failed request during the verify step goes to registration exactly when
      it is a 404 or its message mentions "not found"; any other failure only
      clears loading. The verify request and the login request are caught alike. */
  lemma VerifyFailureTransitions(st: WizardState, verify: Outcome<Server.OtpReply>, login: Outcome<LoginResponse>)
    ensures var s := OnVerify(st, verify, login);
      var registered := st.(isExistingUser := false, step := RegisterStep, loading := false);
      (verify.Failure? && (verify.status == Some(404) || (verify.message.Some? && Includes(verify.message.value, "not found"))) ==>
        s == registered) &&
      (verify.Failure? && verify.status != Some(404) && !(verify.message.Some? && Includes(verify.message.value, "not found")) ==>
        s == st.(loading := false)) &&
      (verify.Response? && verify.body.success && login.Failure? &&
       (login.status == Some(404) || (login.message.Some? && Includes(login.message.value, "not found"))) ==>
        s == registered) &&
      (verify.Response? && verify.body.success && login.Failure? &&
       login.status != Some(404) && !(login.message.Some? && Includes(login.message.value, "not found")) ==>
        s == st.(loading := false))
  {
  }

  /** The two error paths of the catch block, on sample messages. */
  lemma VerifyFailureSamples(st: WizardState)
    ensures OnVerify(st, Failure(Some(400), Some("User not found")), Failure(None, None)).step == RegisterStep
    ensures OnVerify(st, Failure(Some(400), Some("Invalid OTP")), Failure(None, None)) == st.(loading := false)
  {
    assert "User not found"[5..5 + |"not found"|] == "not found";
    assert SubAt("User not found", "not found", 5);
    forall i: nat | i + |"not found"| <= |"Invalid OTP"|
      ensures !SubAt("Invalid OTP", "not found", i)
    {
      assert "Invalid OTP"[i + 1] != "not found"[1];
    }
  }

  /** The page only navigates once a session is stored. */
  predicate NavigatesSignedIn(st: WizardState) {
    st.route.Some? ==> st.session.Some?
  }

  lemma TransitionsKeepNavigatesSignedIn(st: WizardState, sent: Outcome<Server.OtpReply>,
                                         verify: Outcome<Server.OtpReply>, login: Outcome<LoginResponse>)
    requires NavigatesSignedIn(st)
    ensures NavigatesSignedIn(OnSendOtp(st, sent))
    ensures NavigatesSignedIn(OnVerify(st, verify, login))
    ensures NavigatesSignedIn(OnRegister(st, login))
    ensures NavigatesSignedIn(OnBack(st))
  {
  }

  // ---------------------------------------------------------------- register

  /** The registerData object: the formatted phone and null for every empty field. */
  datatype RegisterPayload = RegisterPayload(
    phone: string, role: string, name: Option<string>, email: Option<string>,
    businessName: Option<string>, brandShopName: Option<string>,
    gstNumber: Option<string>, gstRegisteredName: Option<string>)

  /** `value || null` for a string. */
  function OrNull(s: string): (r: Option<string>)
    ensures r.None? <==> s == ""
    ensures r.Some? ==> r.value == s
  {
    if s == "" then None else Some(s)
  }

  /** An optional payload field sent for a text input: null when the input is
      empty, the text itself otherwise. */
  predicate NullWhenEmpty(o: Option<string>, text: string) {
    (o.None? <==> text == "") && (o.Some? ==> o.value == text)
  }

  /** The body of handleRegister's request to /auth/register. */
  function PayloadOf(st: WizardState): (p: RegisterPayload)
    ensures p.phone == Utils.FormatPhone(st.phone) && p.role == st.form.role
    ensures NullWhenEmpty(p.name, st.form.name) && NullWhenEmpty(p.email, st.form.email)
    ensures NullWhenEmpty(p.businessName, st.form.businessName) && NullWhenEmpty(p.brandShopName, st.form.brandShopName)
    ensures NullWhenEmpty(p.gstNumber, st.form.gstNumber) && NullWhenEmpty(p.gstRegisteredName, st.form.gstRegisteredName)
  {
    var f := st.form;
    RegisterPayload(Utils.FormatPhone(st.phone), f.role, OrNull(f.name), OrNull(f.email),
                    OrNull(f.businessName), OrNull(f.brandShopName), OrNull(f.gstNumber), OrNull(f.gstRegisteredName))
  }

  /** The business and GST inputs are rendered, and `required`, for dealers and retailers. */
  predicate ShowsBusinessFields(form: FormData) {
    form.role == "DEALER" || form.role == "RETAILER"
  }

  /** The browser submits the registration form only when every rendered
      required input is non-empty. */
  predicate Submittable(form: FormData) {
    ShowsBusinessFields(form) ==>
      form.businessName != "" && form.brandShopName != "" && form.gstNumber != "" && form.gstRegisteredName != ""
  }

  /** How the backend reads the payload as a UserCreate, when the role is valid. */
  function ToUserInfo(p: RegisterPayload): Option<UserInfo> {
    match ParseRole(p.role)
    case None => None
    case Some(role) =>
      Some(UserInfo(p.phone, role, p.name, p.email, p.businessName, p.brandShopName, p.gstNumber, p.gstRegisteredName))
  }

  /** The radio group offers CUSTOMER, RETAILER and DEALER. For each of them the
      form the browser lets through is exactly the one the backend's field check
      accepts, so the server's 400 is never reached from this page. */
  lemma FormMatchesServerCheck(st: WizardState)
    requires st.form.role in {"CUSTOMER", "RETAILER", "DEALER"}
    ensures ToUserInfo(PayloadOf(st)).Some?
    ensures Submittable(st.form) <==> Server.ValidateRegistration(ToUserInfo(PayloadOf(st)).value).None?
  {
    var role := st.form.role;
    if role == "CUSTOMER" {
      assert ParseRole(role) == Some(Customer);
    } else if role == "RETAILER" {
      assert ParseRole(role) == Some(Retailer);
    } else {
      assert ParseRole(role) == Some(Dealer);
    }
  }

  /** handleRegister after the request to /auth/register has settled: a success
      stores the session and goes to /products (reading .status of a missing
      user throws before the navigation). */
  function OnRegister(st: WizardState, res: Outcome<LoginResponse>): WizardState {
    match res
    case Response(d) =>
      if d.success then
        var signedIn := st.(session := Some(Session(d.user, d.token)));
        if d.user.None? then signedIn.(loading := false)
        else signedIn.(route := Some("/products"), loading := false)
      else st.(loading := false)
    case Failure(_, _) => st.(loading := false)
  }

  lemma RegisterTransitions(st: WizardState, res: Outcome<LoginResponse>)
    ensures var s := OnRegister(st, res);
      !s.loading && s.step == st.step && s.form == st.form &&
      (res.Response? && res.body.success && res.body.user.Some? ==>
        s.session == Some(Session(res.body.user, res.body.token)) && s.route == Some("/products")) &&
      (!(res.Response? && res.body.success) ==> s == st.(loading := false))
  {
  }

  // ---------------------------------------------------------------- back and inputs

  /** The Back button: only the step changes, the typed OTP and the demo code stay. */
  function OnBack(st: WizardState): (s: WizardState)
    ensures s.step == PhoneStep && s.otp == st.otp && s.demoOtp == st.demoOtp
    ensures s.(step := st.step) == st
  {
    st.(step := PhoneStep)
  }

  function UpperChar(c: char): char {
    if 'a' <= c <= 'z' then (c as int - 32) as char else c
  }

  /** toUpperCase on ASCII letters. */
  function ToUpper(s: string): (r: string)
    ensures |r| == |s|
    ensures forall i :: 0 <= i < |s| ==> r[i] == UpperChar(s[i])
  {
    if |s| == 0 then [] else [UpperChar(s[0])] + ToUpper(s[1..])
  }

  /** The GST number never holds a lower-case letter, and uppercasing again changes nothing. */
  lemma ToUpperNormalises(s: string)
    ensures forall i :: 0 <= i < |ToUpper(s)| ==> !('a' <= ToUpper(s)[i] <= 'z')
    ensures ToUpper(ToUpper(s)) == ToUpper(s)
  {
  }

  /** The gst_number input's onChange. */
  function OnGstInput(form: FormData, text: string): FormData {
    form.(gstNumber := ToUpper(text))
  }

  /** The plain text inputs of the registration form (the GST number input
      uppercases, see OnGstInput). */
  datatype FormField = NameField | EmailField | BusinessNameField | BrandShopNameField | GstRegisteredNameField

  function FormFieldOf(form: FormData, field: FormField): string {
    match field
    case NameField => form.name
    case EmailField => form.email
    case BusinessNameField => form.businessName
    case BrandShopNameField => form.brandShopName
    case GstRegisteredNameField => form.gstRegisteredName
  }

  /** An input's onChange: `{...formData, field: e.target.value}`. */
  function OnFormInput(form: FormData, field: FormField, text: string): FormData {
    match field
    case NameField => form.(name := text)
    case EmailField => form.(email := text)
    case BusinessNameField => form.(businessName := text)
    case BrandShopNameField => form.(brandShopName := text)
    case GstRegisteredNameField => form.(gstRegisteredName := text)
  }

  /** Typing sets exactly the typed field; the role, the GST number and every
      other field are kept. */
  lemma FormInputSetsOneField(form: FormData, field: FormField, text: string)
    ensures FormFieldOf(OnFormInput(form, field, text), field) == text
    ensures forall other :: other != field ==> FormFieldOf(OnFormInput(form, field, text), other) == FormFieldOf(form, other)
    ensures OnFormInput(form, field, text).role == form.role && OnFormInput(form, field, text).gstNumber == form.gstNumber
  {
  }

  /** The OTP input has maxLength 6. */
  function OnOtpInput(st: WizardState, text: string): (s: WizardState)
    ensures |s.otp| <= 6
    ensures |text| <= 6 ==> s.otp == text
  {
    st.(otp := if |text| <= 6 then text else text[..6])
  }

  // ---------------------------------------------------------------- the page

  class Page {
    var step: Step
    var phone: string
    var otp: string
    var otpSid: Option<string>
    var isExistingUser: bool
    var loading: bool
    var demoOtp: string
    var form: FormData
    var session: Option<Session>
    var route: Option<string>

    function State(): WizardState
      reads this
    {
      WizardState(step, phone, otp, otpSid, isExistingUser, loading, demoOtp, form, session, route)
    }

    method SetState(s: WizardState)
      modifies this
      ensures State() == s
    {
      step, phone, otp, otpSid, isExistingUser := s.step, s.phone, s.otp, s.otpSid, s.isExistingUser;
      loading, demoOtp, form, session, route := s.loading, s.demoOtp, s.form, s.session, s.route;
    }

    constructor ()
      ensures State() == Initial()
    {
      step, phone, otp, otpSid, isExistingUser := PhoneStep, "", "", None, false;
      loading, demoOtp, form, session, route := false, "", InitialForm, None, None;
    }

    /** handleSendOTP: the phone it posts, and the state once the reply is in. */
    method HandleSendOtp(res: Outcome<Server.OtpReply>) returns (sentPhone: string)
      requires step == PhoneStep && phone != ""
      modifies this
      ensures sentPhone == Utils.FormatPhone(old(phone))
      ensures State() == OnSendOtp(old(State()), res)
    {
      var before := State();
      sentPhone := Utils.FormatPhone(phone);
      loading := true;
      SetState(OnSendOtp(before, res));
    }

    /** handleVerifyOTP: the verify request always, the login request only after a
        successful verify, and the state once both are settled. */
    method HandleVerifyOtp(verify: Outcome<Server.OtpReply>, login: Outcome<LoginResponse>)
      returns (verifyRequest: (string, string), loginRequest: Option<string>)
      requires step == OtpStep && otp != ""
      modifies this
      ensures verifyRequest == (Utils.FormatPhone(old(phone)), old(otp))
      ensures loginRequest == if verify.Response? && verify.body.success then Some(Utils.FormatPhone(old(phone))) else None
      ensures State() == OnVerify(old(State()), verify, login)
    {
      var before := State();
      loading := true;
      var formatted := Utils.FormatPhone(phone);
      verifyRequest, loginRequest := (formatted, otp), None;
      if verify.Response? && verify.body.success {
        loginRequest := Some(formatted);
      }
      SetState(OnVerify(before, verify, login));
    }

    /** handleRegister: the payload it posts and the state once the reply is in. */
    method HandleRegister(res: Outcome<LoginResponse>) returns (payload: RegisterPayload)
      requires step == RegisterStep && Submittable(form)
      modifies this
      ensures payload == PayloadOf(old(State()))
      ensures State() == OnRegister(old(State()), res)
    {
      var before := State();
      payload := RegisterPayload(Utils.FormatPhone(phone), form.role, OrNull(form.name), OrNull(form.email),
                                 OrNull(form.businessName), OrNull(form.brandShopName),
                                 OrNull(form.gstNumber), OrNull(form.gstRegisteredName));
      loading := true;
      SetState(OnRegister(before, res));
    }

    method Back()
      modifies this
      ensures State() == OnBack(old(State()))
    {
      step := PhoneStep;
    }

    method TypeGstNumber(text: string)
      modifies this
      ensures State() == old(State()).(form := OnGstInput(old(form), text))
    {
      form := form.(gstNumber := ToUpper(text));
    }

    /** The phone input's onChange. */
    method TypePhone(text: string)
      modifies this
      ensures State() == old(State()).(phone := text)
    {
      phone := text;
    }

    /** The role radio group's onValueChange; its items are the three roles. */
    method ChooseRole(role: string)
      requires role == "CUSTOMER" || role == "RETAILER" || role == "DEALER"
      modifies this
      ensures State() == old(State()).(form := old(form).(role := role))
    {
      form := form.(role := role);
    }

    /** Typing into one of the plain inputs of the registration form. */
    method TypeFormField(field: FormField, text: string)
      modifies this
      ensures State() == old(State()).(form := OnFormInput(old(form), field, text))
    {
      form := OnFormInput(form, field, text);
    }

    method TypeOtp(text: string)
      modifies this
      ensures State() == OnOtpInput(old(State()), text)
    {
      otp := if |text| <= 6 then text else text[..6];
    }
  }

  // ---------------------------------------------------------------- demo OTP

  /** With the send-otp route as written, the wizard never learns the demo code:
      after a successful send it is at the OTP step and demoOtp is what it was. */
  lemma DemoOtpLostAsWritten(st: WizardState, code: nat)
    ensures var s := OnSendOtp(st, Response(Server.SendOtpRoute(OtpService.DemoReply(code))));
      s.step == OtpStep && s.demoOtp == st.demoOtp
  {
  }

  /** With the corrected route the wizard shows the six-digit code it must type. */
  lemma DemoOtpShownCorrected(st: WizardState, code: nat)
    requires OtpService.MinCode <= code <= OtpService.MaxCode
    ensures var s := OnSendOtp(st, Response(Server.SendOtpRouteCorrected(OtpService.DemoReply(code))));
      s.step == OtpStep && s.demoOtp == OtpService.Decimal(code) && |s.demoOtp| == 6
  {
    OtpService.SixDigitCode(code);
  }
}
