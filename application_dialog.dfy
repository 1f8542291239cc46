/** src/components/ApplicationDialog.tsx, `ProfileForm`: the application form's
    validation, its resume upload, and the variables `onSubmit` hands to the
    application mutation. */
module ApplicationDialog {
  import opened Wrappers
  import opened Sessions
  import opened Uploads
  import opened ApplicationsServices
  import opened UseApplication
  import opened Notices

  const RequiredMessage := "This field is required."
  const TooLongMessage := "Maximum 200 characters."
  const MaxInterestReason := 200

  /** The validated form fields (the resume field accepts anything, null included). */
  datatype ApplicationValues = ApplicationValues(interestReason: string, skills: string)

  /** The message shown under the interest field: the first failed check. */
  function InterestReasonError(s: string): (e: Option<string>)
    ensures e.None? <==> 1 <= |s| <= MaxInterestReason
    ensures |s| == 0 ==> e == Some(RequiredMessage)
    ensures |s| > MaxInterestReason ==> e == Some(TooLongMessage)
  {
    if |s| < 1 then Some(RequiredMessage)
    else if |s| > MaxInterestReason then Some(TooLongMessage)
    else None
  }

  function SkillsError(s: string): (e: Option<string>)
    ensures e.None? <==> |s| >= 1
    ensures e.Some? ==> e.value == RequiredMessage
  {
    if |s| < 1 then Some(RequiredMessage) else None
  }

  /** The form submits only without errors. */
  predicate FormValid(v: ApplicationValues) {
    InterestReasonError(v.interestReason).None? && SkillsError(v.skills).None?
  }

  lemma FormValidBounds(v: ApplicationValues)
    ensures FormValid(v) <==> 1 <= |v.interestReason| <= 200 && |v.skills| >= 1
  {
  }

  /** The mutation variables of `onSubmit`. */
  function SubmitVariables(v: ApplicationValues, resumeId: Option<int>, s: Option<Session>, jobDocId: string): ApplicationVariables {
    ApplicationVariables(ChooseResume(resumeId, s), v.interestReason, v.skills, jobDocId, UserId(s), SessionJwt(s))
  }

  /** The application posted on submit: the form text as typed, the dialog's job, the
      session user and, as bearer token, the session jwt; the resume is the upload, else
      the session's resume, else null. */
  lemma SubmittedApplication(apiUrl: string, v: ApplicationValues, resumeId: Option<int>, s: Option<Session>, jobDocId: string)
    ensures var post := MutationRequest(apiUrl, SubmitVariables(v, resumeId, s, jobDocId));
            post.data.interestReason == v.interestReason && post.data.skills == v.skills
            && post.data.job == jobDocId && post.data.user == UserId(s)
            && post.headers == BearerHeaders(SessionJwt(s))
            && post.data.resume == ChooseResume(resumeId, s)
    ensures TruthyNumber(resumeId)
            ==> MutationRequest(apiUrl, SubmitVariables(v, resumeId, s, jobDocId)).data.resume == ResumeIds([resumeId.value])
  {
    MutationForwardsVariables(apiUrl, SubmitVariables(v, resumeId, s, jobDocId));
  }

  function AfterSubmit(succeeded: bool): (r: Settled)
    ensures r.navigateTo.Some? <==> succeeded
    ensures succeeded ==> r.navigateTo == Some("/jobs") && r.toast.SuccessToast?
    ensures !succeeded ==> r.toast == ErrorToast("Something went wrong. Please try again.")
  {
    if succeeded then Settled(SuccessToast("You have successfully applied for this job."), Some("/jobs"))
    else Settled(ErrorToast("Something went wrong. Please try again."), None)
  }

  /** The toast of a settled upload. */
  function UploadToast(outcome: UploadOutcome): (t: Toast)
    ensures t.SuccessToast? <==> outcome.UploadSucceeded?
  {
    if outcome.UploadSucceeded? then SuccessToast("Resume uploaded successfully!") else ErrorToast("Failed to upload resume.")
  }

  /** The form's own state. */
  class ProfileForm {
    const jobDocId: string
    var uploading: bool
    var resumeId: Option<int>

    constructor(jobDocId: string)
      ensures this.jobDocId == jobDocId && !uploading && resumeId == None
    {
      this.jobDocId := jobDocId;
      uploading := false;
      resumeId := None;
    }

    /** `disabled={isPending || uploading}`. */
    predicate SubmitEnabled(isPending: bool)
      reads this
    {
      !isPending && !uploading
    }

    /** A running upload disables the submit button, whatever the mutation's state. */
    lemma UploadDisablesSubmit(isPending: bool)
      requires uploading
      ensures !SubmitEnabled(isPending)
    {
    }

    /** The file input's change handler up to the awaited upload: with at least one
        file, the busy flag is raised and the upload request is made. */
    method StartUpload(env: Option<string>, fileCount: nat) returns (request: Option<UploadRequest>)
      modifies this
      ensures fileCount > 0 ==> uploading && request == Some(UploadRequestFor(env, ""))
      ensures fileCount == 0 ==> uploading == old(uploading) && request == None
      ensures resumeId == old(resumeId)
    {
      if fileCount > 0 {
        uploading := true;
        request := Some(UploadRequestFor(env, ""));
      } else {
        request := None;
      }
    }

    /** The rest of `handleFileUpload`: a successful upload stores the first file's id;
        `finally` lowers the busy flag in either case. */
    method FinishUpload(outcome: UploadOutcome) returns (toast: Toast)
      modifies this
      ensures !uploading
      ensures outcome.UploadSucceeded? ==> resumeId == UploadedId(outcome.files)
      ensures outcome.UploadFailed? ==> resumeId == old(resumeId)
      ensures toast == UploadToast(outcome)
    {
      if outcome.UploadSucceeded? {
        resumeId := UploadedId(outcome.files);
      }
      toast := UploadToast(outcome);
      uploading := false;
    }

    /** A whole file selection: an upload only for a non-empty list, and the busy flag is
        down again afterwards. */
    method HandleFileChange(env: Option<string>, fileCount: nat, outcome: UploadOutcome)
      returns (request: Option<UploadRequest>, toast: Option<Toast>)
      modifies this
      ensures fileCount > 0 ==> !uploading
      ensures fileCount == 0 ==> uploading == old(uploading)
      ensures request.Some? <==> fileCount > 0
      ensures toast.Some? <==> fileCount > 0
      ensures fileCount > 0 ==> request == Some(UploadRequestFor(env, "")) && toast == Some(UploadToast(outcome))
      ensures fileCount > 0 && outcome.UploadSucceeded? ==> resumeId == UploadedId(outcome.files)
      ensures fileCount == 0 || outcome.UploadFailed? ==> resumeId == old(resumeId)
    {
      request := StartUpload(env, fileCount);
      if fileCount > 0 {
        var t := FinishUpload(outcome);
        toast := Some(t);
      } else {
        toast := None;
      }
    }

    /** `onSubmit`, reached only for a valid form. */
    method Submit(v: ApplicationValues, s: Option<Session>) returns (vars: ApplicationVariables)
      requires FormValid(v)
      ensures vars == SubmitVariables(v, resumeId, s, jobDocId)
    {
      vars := ApplicationVariables(ChooseResume(resumeId, s), v.interestReason, v.skills, jobDocId, UserId(s), SessionJwt(s));
    }
  }
}
