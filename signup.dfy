/** src/app/signup/page.tsx: the registration form. Its validation, the two requests of
    `onSubmit` (register the account, then create the linked user-detail record), the
    failure message and the busy flags. The awaited requests are outcome values. */
module Signup {
  import opened Wrappers
  import opened Sessions
  import opened Uploads
  import opened Notices

  const FirstNameRequired := "First name is required."
  const LastNameRequired := "Last name is required."
  const InvalidEmail := "Invalid email address."
  const EmailRequired := "Email is required."
  const PasswordTooShort := "Password must be at least 6 characters."
  const RegistrationFailed := "Registration failed. Please try again."
  const MinPassword := 6

  datatype SignupValues = SignupValues(firstName: string, lastName: string, email: string, password: string)

  function FirstNameError(s: string): (e: Option<string>)
    ensures e.None? <==> |s| >= 1
    ensures e.Some? ==> e.value == FirstNameRequired
  {
    if |s| < 1 then Some(FirstNameRequired) else None
  }

  function LastNameError(s: string): (e: Option<string>)
    ensures e.None? <==> |s| >= 1
    ensures e.Some? ==> e.value == LastNameRequired
  {
    if |s| < 1 then Some(LastNameRequired) else None
  }

  /** `z.email(...).min(1, ...)`: the format check comes first. `wellFormed` is the
      verdict of zod's email check on `s`, which is not modelled. */
  function EmailError(s: string, wellFormed: bool): (e: Option<string>)
    ensures e.None? <==> wellFormed && |s| >= 1
    ensures !wellFormed ==> e == Some(InvalidEmail)
  {
    if !wellFormed then Some(InvalidEmail) else if |s| < 1 then Some(EmailRequired) else None
  }

  /** "Email is required." shows only for an empty text the format check accepted; as
      the check rejects the empty text, that message never appears. */
  lemma EmailRequiredUnreachable(s: string, wellFormed: bool)
    ensures EmailError(s, wellFormed) == Some(EmailRequired) ==> wellFormed && s == ""
  {
  }

  function PasswordError(s: string): (e: Option<string>)
    ensures e.None? <==> |s| >= MinPassword
    ensures e.Some? ==> e.value == PasswordTooShort
  {
    if |s| < MinPassword then Some(PasswordTooShort) else None
  }

  predicate FormValid(v: SignupValues, emailWellFormed: bool) {
    FirstNameError(v.firstName).None? && LastNameError(v.lastName).None?
    && EmailError(v.email, emailWellFormed).None? && PasswordError(v.password).None?
  }

  lemma FormValidBounds(v: SignupValues, emailWellFormed: bool)
    ensures FormValid(v, emailWellFormed)
            <==> |v.firstName| >= 1 && |v.lastName| >= 1 && |v.password| >= 6 && emailWellFormed && |v.email| >= 1
  {
  }

  datatype RegisterBody = RegisterBody(username: string, email: string, password: string)
  datatype UserDetailsBody = UserDetailsBody(firstName: string, lastName: string, user: string, resume: seq<int>)

  /** The two POSTs of a registration. */
  datatype SignupPost = RegisterPost(url: string, body: RegisterBody)
                      | UserDetailsPost(url: string, details: UserDetailsBody, headers: seq<Header>)

  /** Step 1: the email doubles as the user name. */
  function RegisterRequest(env: Option<string>, v: SignupValues): (p: SignupPost)
    ensures p.RegisterPost? && p.url == JsText(env) + "/api/auth/local/register"
    ensures p.body.username == v.email && p.body.email == v.email && p.body.password == v.password
  {
    RegisterPost(JsText(env) + "/api/auth/local/register", RegisterBody(v.email, v.email, v.password))
  }

  /** `resumeId ? [resumeId] : []`. */
  function DetailsResume(resumeId: Option<int>): (ids: seq<int>)
    ensures TruthyNumber(resumeId) ==> ids == [resumeId.value]
    ensures !TruthyNumber(resumeId) ==> ids == []
  {
    if TruthyNumber(resumeId) then [resumeId.value] else []
  }

  /** Step 2: the record links the new user's document id and is authorised by the jwt
      step 1 returned. */
  function UserDetailsRequest(env: Option<string>, v: SignupValues, resumeId: Option<int>, jwt: string,
                              userDocumentId: string): (p: SignupPost)
    ensures p.UserDetailsPost? && p.url == JsText(env) + "/api/user-details"
    ensures p.details == UserDetailsBody(v.firstName, v.lastName, userDocumentId, DetailsResume(resumeId))
    ensures p.headers == [("Authorization", "Bearer " + jwt)]
  {
    UserDetailsPost(JsText(env) + "/api/user-details",
                    UserDetailsBody(v.firstName, v.lastName, userDocumentId, DetailsResume(resumeId)),
                    [("Authorization", "Bearer " + jwt)])
  }

  /** Step 1's outcome: a failure (with the server's message, if any) or the jwt and the
      new user's document id. */
  datatype RegisterOutcome = RegisterFailed(serverMessage: Option<string>) | Registered(jwt: string, userDocumentId: string)

  datatype DetailsOutcome = DetailsFailed(serverMessage: Option<string>) | DetailsCreated

  /** `error?.response?.data?.error?.message || 'Registration failed. Please try again.'`. */
  function FailureMessage(serverMessage: Option<string>): (m: string)
    ensures Truthy(serverMessage) ==> m == serverMessage.value
    ensures !Truthy(serverMessage) ==> m == RegistrationFailed
    ensures m != ""
  {
    if Truthy(serverMessage) then serverMessage.value else RegistrationFailed
  }

  /** How a registration settles, given both outcomes. */
  function SignupSettled(register: RegisterOutcome, details: DetailsOutcome): (r: Settled)
    ensures r.navigateTo.Some? <==> register.Registered? && details.DetailsCreated?
    ensures r.navigateTo.Some? ==> r.navigateTo == Some("/login") && r.toast.SuccessToast?
    ensures register.RegisterFailed? ==> r.toast == ErrorToast(FailureMessage(register.serverMessage))
    ensures register.Registered? && details.DetailsFailed? ==> r.toast == ErrorToast(FailureMessage(details.serverMessage))
  {
    if register.RegisterFailed? then Settled(ErrorToast(FailureMessage(register.serverMessage)), None)
    else if details.DetailsFailed? then Settled(ErrorToast(FailureMessage(details.serverMessage)), None)
    else Settled(SuccessToast("Registration successful!"), Some("/login"))
  }

  /** The page's state; `posts` are the requests made so far, oldest first. */
  class SignupForm {
    var loading: bool
    var uploading: bool
    var resumeId: Option<int>
    var posts: seq<SignupPost>

    constructor()
      ensures !loading && !uploading && resumeId == None && posts == []
    {
      loading := false;
      uploading := false;
      resumeId := None;
      posts := [];
    }

    /** `disabled={loading}`. */
    predicate SubmitEnabled()
      reads this
    {
      !loading
    }

    /** Only the registration in flight disables the button: a running upload does not. */
    lemma UploadLeavesSubmitEnabled()
      requires uploading && !loading
      ensures SubmitEnabled()
    {
    }

    lemma LoadingDisablesSubmit()
      requires loading
      ensures !SubmitEnabled()
    {
    }

    /** The file input's handler up to the awaited upload. */
    method StartUpload(env: Option<string>, fileCount: nat) returns (request: Option<UploadRequest>)
      modifies this
      ensures fileCount > 0 ==> uploading && request == Some(UploadRequestFor(env, ""))
      ensures fileCount == 0 ==> uploading == old(uploading) && request == None
      ensures resumeId == old(resumeId) && loading == old(loading) && posts == old(posts)
    {
      if fileCount > 0 {
        uploading := true;
        request := Some(UploadRequestFor(env, ""));
      } else {
        request := None;
      }
    }

    /** The rest of `handleFileUpload`. */
    method FinishUpload(outcome: UploadOutcome)
      modifies this
      ensures !uploading
      ensures outcome.UploadSucceeded? ==> resumeId == UploadedId(outcome.files)
      ensures outcome.UploadFailed? ==> resumeId == old(resumeId)
      ensures loading == old(loading) && posts == old(posts)
    {
      if outcome.UploadSucceeded? {
        resumeId := UploadedId(outcome.files);
      }
      uploading := false;
    }

    /** `onSubmit` up to the first awaited request: busy, and the registration sent. */
    method BeginSubmit(env: Option<string>, v: SignupValues)
      modifies this
      ensures loading
      ensures posts == old(posts) + [RegisterRequest(env, v)]
      ensures uploading == old(uploading) && resumeId == old(resumeId)
    {
      loading := true;
      posts := posts + [RegisterRequest(env, v)];
    }

    /** The rest of `onSubmit`: the user-detail record is requested only after the
        registration succeeded; `finally` clears the busy flag in every outcome. */
    method CompleteSubmit(env: Option<string>, v: SignupValues, register: RegisterOutcome, details: DetailsOutcome)
      returns (settled: Settled)
      modifies this
      ensures !loading
      ensures register.RegisterFailed? ==> posts == old(posts)
      ensures register.Registered?
              ==> posts == old(posts) + [UserDetailsRequest(env, v, resumeId, register.jwt, register.userDocumentId)]
      ensures settled == SignupSettled(register, details)
      ensures uploading == old(uploading) && resumeId == old(resumeId)
    {
      if register.Registered? {
        posts := posts + [UserDetailsRequest(env, v, resumeId, register.jwt, register.userDocumentId)];
      }
      settled := SignupSettled(register, details);
      loading := false;
    }

    /** A whole submission. */
    method HandleSubmit(env: Option<string>, v: SignupValues, register: RegisterOutcome, details: DetailsOutcome)
      returns (settled: Settled)
      modifies this
      ensures !loading
      ensures register.RegisterFailed? ==> posts == old(posts) + [RegisterRequest(env, v)]
      ensures register.Registered?
              ==> posts == old(posts) + [RegisterRequest(env, v),
                                         UserDetailsRequest(env, v, resumeId, register.jwt, register.userDocumentId)]
      ensures settled == SignupSettled(register, details)
      ensures uploading == old(uploading) && resumeId == old(resumeId)
    {
      BeginSubmit(env, v);
      settled := CompleteSubmit(env, v, register, details);
    }
  }
}
