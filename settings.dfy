/** src/app/settings/page.tsx: the profile form. Its validation and defaults, the
    variables of the update mutation, the resume upload that keeps both the id and the
    stored file, and the argument passed to next-auth's `update()` after a successful save
    (what that call does to the session is `AuthSession.JwtOnUpdate`). */
module Settings {
  import opened Wrappers
  import opened Sessions
  import opened Uploads
  import opened Notices
  import Signup

  datatype SettingsValues = SettingsValues(firstName: string, lastName: string, email: string)

  /** The same name and email checks as the registration form, and no password. */
  predicate FormValid(v: SettingsValues, emailWellFormed: bool) {
    Signup.FirstNameError(v.firstName).None? && Signup.LastNameError(v.lastName).None?
    && Signup.EmailError(v.email, emailWellFormed).None?
  }

  lemma FormValidBounds(v: SettingsValues, emailWellFormed: bool)
    ensures FormValid(v, emailWellFormed) <==> |v.firstName| >= 1 && |v.lastName| >= 1 && emailWellFormed && |v.email| >= 1
  {
  }

  /** `x || ''`. */
  function OrEmpty(x: Option<string>): (s: string)
    ensures Truthy(x) ==> s == x.value
    ensures !Truthy(x) ==> s == ""
  {
    if Truthy(x) then x.value else ""
  }

  /** The form's default values, read from the session. */
  function Defaults(s: Option<Session>): SettingsValues {
    if s.Some? && s.value.user.Some? then
      var u := s.value.user.value;
      SettingsValues(OrEmpty(u.firstName), OrEmpty(u.lastName), OrEmpty(u.email))
    else SettingsValues("", "", "")
  }

  /** Each default is the session's value, or "" when that is missing or empty. */
  lemma DefaultsFromSession(s: Option<Session>)
    ensures s.None? || s.value.user.None? ==> Defaults(s) == SettingsValues("", "", "")
    ensures s.Some? && s.value.user.Some? ==>
              Defaults(s).firstName == OrEmpty(s.value.user.value.firstName)
              && Defaults(s).lastName == OrEmpty(s.value.user.value.lastName)
              && Defaults(s).email == OrEmpty(s.value.user.value.email)
    ensures s.Some? && s.value.user.Some? && Truthy(s.value.user.value.firstName)
            ==> Defaults(s).firstName == s.value.user.value.firstName.value
  {
  }

  /** The update mutation's variables. */
  datatype UpdateVariables = UpdateVariables(firstName: string, lastName: string, resume: ResumeField,
                                             token: Option<string>, documentId: Option<string>)

  function UpdateVariablesFor(v: SettingsValues, resumeId: Option<int>, s: Option<Session>): UpdateVariables {
    UpdateVariables(v.firstName, v.lastName, ChooseResume(resumeId, s), SessionJwt(s), UserDetailDocId(s))
  }

  /** The email is never sent: forms that differ only in it send the same update, which
      targets the session's user-detail record and carries the session's jwt. */
  lemma UpdateIgnoresEmail(v: SettingsValues, w: SettingsValues, resumeId: Option<int>, s: Option<Session>)
    requires v.firstName == w.firstName && v.lastName == w.lastName
    ensures UpdateVariablesFor(v, resumeId, s) == UpdateVariablesFor(w, resumeId, s)
    ensures UpdateVariablesFor(v, resumeId, s).documentId == UserDetailDocId(s)
    ensures UpdateVariablesFor(v, resumeId, s).token == SessionJwt(s)
  {
  }

  /** The URL the update is sent to (`updateUserDetails` in src/services/users-services.ts),
      after `apiUrl`, the text `${API_URL}` renders to there (`Api.ServiceBase`). */
  function UpdateUrl(apiUrl: string, documentId: Option<string>): (url: string)
    ensures documentId.Some? ==> url == apiUrl + "/api/user-details/" + documentId.value
    ensures documentId.None? ==> url == apiUrl + "/api/user-details/" + "undefined"
  {
    apiUrl + "/api/user-details/" + JsText(documentId)
  }

  /** The fields passed to next-auth's `update` after a successful save. */
  datatype SessionUpdate = SessionUpdate(firstName: string, lastName: string, resume: Option<StoredFile>)

  /** `resumeId ? fullResume : session?.user?.resume || null`. */
  function SessionUpdateFor(v: SettingsValues, resumeId: Option<int>, fullResume: Option<StoredFile>, s: Option<Session>)
    : (u: SessionUpdate)
    ensures u.firstName == v.firstName && u.lastName == v.lastName
    ensures TruthyNumber(resumeId) ==> u.resume == fullResume
    ensures !TruthyNumber(resumeId) ==> u.resume == SessionResume(s)
  {
    SessionUpdate(v.firstName, v.lastName, if TruthyNumber(resumeId) then fullResume else SessionResume(s))
  }

  /** The resume id kept is that of the kept file (both missing before any upload). */
  predicate UploadConsistent(resumeId: Option<int>, fullResume: Option<StoredFile>) {
    if fullResume.Some? then resumeId == Some(fullResume.value.id) else resumeId.None?
  }

  /** After an upload with a non-zero id, the resume sent and the resume passed to
      `update()` are the same file; without one, `update()` is passed the session's resume. */
  lemma SentAndSessionResumeAgree(v: SettingsValues, resumeId: Option<int>, fullResume: Option<StoredFile>, s: Option<Session>)
    requires UploadConsistent(resumeId, fullResume)
    ensures TruthyNumber(resumeId) ==>
              SessionUpdateFor(v, resumeId, fullResume, s).resume.Some?
              && NamedIds(UpdateVariablesFor(v, resumeId, s).resume) == [SessionUpdateFor(v, resumeId, fullResume, s).resume.value.id]
    ensures !TruthyNumber(resumeId) ==> SessionUpdateFor(v, resumeId, fullResume, s).resume == SessionResume(s)
  {
    ChooseResumePrefersUpload(resumeId, s);
  }

  /** After a successful save: the argument passed to `update()`, the success toast, and `/jobs`. */
  function AfterSave(v: SettingsValues, resumeId: Option<int>, fullResume: Option<StoredFile>, s: Option<Session>,
                     succeeded: bool): (r: (Option<SessionUpdate>, Settled))
    ensures r.0.Some? <==> succeeded
    ensures succeeded ==> r.0 == Some(SessionUpdateFor(v, resumeId, fullResume, s)) && r.1.navigateTo == Some("/jobs")
    ensures !succeeded ==> r.1 == Settled(ErrorToast("Something went wrong. Please try again."), None)
  {
    if succeeded then
      (Some(SessionUpdateFor(v, resumeId, fullResume, s)),
       Settled(SuccessToast("You have successfully updated your profile details."), Some("/jobs")))
    else (None, Settled(ErrorToast("Something went wrong. Please try again."), None))
  }

  /** The page's state. */
  class SettingsForm {
    var uploading: bool
    var resumeId: Option<int>
    var fullResume: Option<StoredFile>

    predicate Valid()
      reads this
    {
      UploadConsistent(resumeId, fullResume)
    }

    constructor()
      ensures !uploading && resumeId == None && fullResume == None
      ensures Valid()
    {
      uploading := false;
      resumeId := None;
      fullResume := None;
    }

    /** `disabled={isPending}`: a running upload does not disable saving. */
    predicate SubmitEnabled(isPending: bool)
      reads this
    {
      !isPending
    }

    /** Unlike the application form, a running upload leaves saving enabled. */
    lemma UploadLeavesSubmitEnabled()
      requires uploading
      ensures SubmitEnabled(false)
      ensures !SubmitEnabled(true)
    {
    }

    method StartUpload(env: Option<string>, fileCount: nat) returns (request: Option<UploadRequest>)
      requires Valid()
      modifies this
      ensures fileCount > 0 ==> uploading && request == Some(UploadRequestFor(env, ""))
      ensures fileCount == 0 ==> uploading == old(uploading) && request == None
      ensures resumeId == old(resumeId) && fullResume == old(fullResume)
      ensures Valid()
    {
      if fileCount > 0 {
        uploading := true;
        request := Some(UploadRequestFor(env, ""));
      } else {
        request := None;
      }
    }

    /** The rest of `handleFileUpload`: a successful upload keeps the first file and its
        id together. */
    method FinishUpload(outcome: UploadOutcome)
      requires Valid()
      modifies this
      ensures !uploading
      ensures outcome.UploadSucceeded? ==> resumeId == UploadedId(outcome.files) && fullResume == FirstFile(outcome.files)
      ensures outcome.UploadFailed? ==> resumeId == old(resumeId) && fullResume == old(fullResume)
      ensures Valid()
    {
      if outcome.UploadSucceeded? {
        resumeId := UploadedId(outcome.files);
        fullResume := FirstFile(outcome.files);
      }
      uploading := false;
    }

    /** `onSubmit`: the mutation variables. */
    method Submit(v: SettingsValues, s: Option<Session>) returns (vars: UpdateVariables)
      ensures vars == UpdateVariablesFor(v, resumeId, s)
    {
      vars := UpdateVariables(v.firstName, v.lastName, ChooseResume(resumeId, s), SessionJwt(s), UserDetailDocId(s));
    }

    /** The mutation's `onSuccess` and `onError`. */
    method Saved(v: SettingsValues, s: Option<Session>, succeeded: bool) returns (update: Option<SessionUpdate>, settled: Settled)
      requires Valid()
      ensures (update, settled) == AfterSave(v, resumeId, fullResume, s, succeeded)
      ensures succeeded && TruthyNumber(resumeId) ==> update.value.resume == fullResume && fullResume.Some?
    {
      var r := AfterSave(v, resumeId, fullResume, s, succeeded);
      update, settled := r.0, r.1;
    }
  }
}
