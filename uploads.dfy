/** The resume upload and resume choice shared by src/components/ApplicationDialog.tsx,
    src/app/signup/page.tsx and src/app/settings/page.tsx: the request `handleFileUpload`
    sends, what it keeps from the answer, and the resume field of a submission. */
module Uploads {
  import opened Wrappers
  import opened Sessions

  type Header = (string, string)

  /** The awaited upload: a failure (any thrown error) or the list of stored files. */
  datatype UploadOutcome = UploadFailed | UploadSucceeded(files: seq<StoredFile>)

  /** `uploadRes.data[0]`: missing for an empty list. */
  function FirstFile(files: seq<StoredFile>): (f: Option<StoredFile>)
    ensures f.Some? <==> |files| > 0
    ensures f.Some? ==> f.value == files[0]
  {
    if |files| > 0 then Some(files[0]) else None
  }

  /** `uploadRes.data[0]?.id`. */
  function UploadedId(files: seq<StoredFile>): (id: Option<int>)
    ensures id.Some? <==> |files| > 0
    ensures id.Some? ==> id == Some(FirstFile(files).value.id)
  {
    if |files| > 0 then Some(files[0].id) else None
  }

  /** The upload POST: its URL and headers (the body is the file itself). */
  datatype UploadRequest = UploadRequest(url: string, headers: seq<Header>)

  /** The request for an upload authorised by `jwt`. The URL reads the environment
      variable directly, so a missing value gives the text "undefined". */
  function UploadRequestFor(env: Option<string>, jwt: string): (r: UploadRequest)
    ensures r.url == JsText(env) + "/api/upload"
    ensures |r.headers| == 2
    ensures r.headers[0] == ("Authorization", "Bearer " + jwt)
    ensures r.headers[1] == ("Content-Type", "multipart/form-data")
  {
    UploadRequest(JsText(env) + "/api/upload",
                  [("Authorization", "Bearer " + jwt), ("Content-Type", "multipart/form-data")])
  }

  /** The file inputs call `handleFileUpload(file, '')`: the header carries no token. */
  lemma FileInputsSendNoToken(env: Option<string>)
    ensures UploadRequestFor(env, "").headers[0] == ("Authorization", "Bearer ")
  {
    assert "Bearer " + "" == "Bearer ";
  }

  /** The resume sent with a submission: a one-element id list for a fresh upload, the
      session's existing resume id, or null. */
  datatype ResumeField = ResumeIds(ids: seq<int>) | ResumeRef(id: int) | NoResume

  /** The ids a resume field names. */
  function NamedIds(r: ResumeField): seq<int> {
    match r
    case ResumeIds(ids) => ids
    case ResumeRef(id) => [id]
    case NoResume => []
  }

  /** `session?.user?.resume?.id || null`: the existing id, unless missing or 0. */
  function ExistingResumeId(s: Option<Session>): (id: Option<int>)
    ensures id.Some? <==> SessionResume(s).Some? && SessionResume(s).value.id != 0
    ensures id.Some? ==> id.value == SessionResume(s).value.id
  {
    var f := SessionResume(s);
    if f.Some? && f.value.id != 0 then Some(f.value.id) else None
  }

  /** `resumeId ? [resumeId] : session?.user?.resume?.id || null`. */
  function ChooseResume(resumeId: Option<int>, s: Option<Session>): ResumeField {
    if TruthyNumber(resumeId) then ResumeIds([resumeId.value])
    else if ExistingResumeId(s).Some? then ResumeRef(ExistingResumeId(s).value)
    else NoResume
  }

  /** A submission names at most one resume: the upload when it produced a non-zero id,
      else the session's non-zero resume id, and none only when neither exists. */
  lemma ChooseResumePrefersUpload(resumeId: Option<int>, s: Option<Session>)
    ensures |NamedIds(ChooseResume(resumeId, s))| <= 1
    ensures TruthyNumber(resumeId) ==> NamedIds(ChooseResume(resumeId, s)) == [resumeId.value]
    ensures !TruthyNumber(resumeId) && ExistingResumeId(s).Some?
            ==> NamedIds(ChooseResume(resumeId, s)) == [SessionResume(s).value.id]
    ensures ChooseResume(resumeId, s) == NoResume
            <==> !TruthyNumber(resumeId) && (SessionResume(s).None? || SessionResume(s).value.id == 0)
    ensures forall i :: 0 <= i < |NamedIds(ChooseResume(resumeId, s))| ==> NamedIds(ChooseResume(resumeId, s))[i] != 0
  {
  }
}
