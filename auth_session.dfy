/** How next-auth fills the session the pages read, from src/app/api/auth/[...nextauth]/route.ts:
    the user object `authorize` returns after the two awaited requests, the `jwt`
    callback that copies it into the token, and the `session` callback that copies the
    token into the session. The requests themselves are inputs. Next to the callbacks as
    written, corrected ones carry the user-detail document id through to the session and
    apply the data passed to `update`. */
module AuthSession {
  import opened Wrappers
  import opened Sessions
  import opened Uploads
  import Settings

  /** `fullUser.user_detail`, as far as it is read. */
  datatype UserDetail = UserDetail(documentId: string, firstName: Option<string>, lastName: Option<string>,
                                   resume: Option<StoredFile>)

  /** The token fields the callbacks write. */
  datatype Token = Token(jwt: string, id: int, email: Option<string>, firstName: Option<string>,
                         lastName: Option<string>, resume: Option<StoredFile>, userDetailDocId: Option<string>)

  /** `x || null` for a string. */
  function OrNull(x: Option<string>): (r: Option<string>)
    ensures r.Some? <==> Truthy(x)
    ensures r.Some? ==> r == x
  {
    if Truthy(x) then x else None
  }

  /** `authorize`'s user followed by the `jwt` callback, as written: the user-detail
      record's own document id is not carried over. */
  function TokenAsWritten(id: int, jwt: string, email: Option<string>, detail: Option<UserDetail>): (t: Token)
    ensures t.userDetailDocId.None?
    ensures t.jwt == jwt && t.id == id
  {
    Token(jwt, id, email,
          if detail.Some? then OrNull(detail.value.firstName) else None,
          if detail.Some? then OrNull(detail.value.lastName) else None,
          if detail.Some? then detail.value.resume else None,
          None)
  }

  /** The `session` callback as written: the user's id, names and resume and the jwt come
      from the token, the email from next-auth's default session user; `userDetailDocId`
      is never written, whatever the token holds. */
  function SessionOf(t: Token): (s: Session)
    ensures s.jwt == Some(t.jwt) && s.user.Some?
    ensures s.user.value.id == Some(t.id) && s.user.value.resume == t.resume
    ensures s.user.value.firstName == t.firstName && s.user.value.lastName == t.lastName
    ensures s.user.value.userDetailDocId.None?
  {
    Session(Some(t.jwt), Some(SessionUser(Some(t.id), t.firstName, t.lastName, t.email, t.resume, None)))
  }

  /** The `session` callback with `session.user.userDetailDocId = token.userDetailDocId`
      added: the same session, with the token's user-detail document id. */
  function SessionWithDetailDoc(t: Token): (s: Session)
    ensures s.user.Some? && s.user.value.userDetailDocId == t.userDetailDocId
    ensures s.jwt == SessionOf(t).jwt && s.user.value.(userDetailDocId := None) == SessionOf(t).user.value
  {
    var u := SessionOf(t).user.value;
    Session(SessionOf(t).jwt, Some(u.(userDetailDocId := t.userDetailDocId)))
  }

  /** As written, no session carries `userDetailDocId`, so every save on the settings page
      is sent to the user-detail id "undefined". */
  lemma SettingsSaveTargetsUndefined(id: int, jwt: string, email: Option<string>, detail: Option<UserDetail>,
                                     apiUrl: string, v: Settings.SettingsValues, resumeId: Option<int>)
    ensures var s := Some(SessionOf(TokenAsWritten(id, jwt, email, detail)));
            Settings.UpdateVariablesFor(v, resumeId, s).documentId.None?
            && Settings.UpdateUrl(apiUrl, Settings.UpdateVariablesFor(v, resumeId, s).documentId)
               == apiUrl + "/api/user-details/" + "undefined"
  {
  }

  /** The token with the user-detail record's document id carried over as well. */
  function TokenWithDetailDoc(id: int, jwt: string, email: Option<string>, detail: Option<UserDetail>): (t: Token)
    ensures detail.Some? ==> t.userDetailDocId == Some(detail.value.documentId)
    ensures detail.None? ==> t.userDetailDocId.None?
    ensures t == TokenAsWritten(id, jwt, email, detail).(userDetailDocId := t.userDetailDocId)
  {
    TokenAsWritten(id, jwt, email, detail).(userDetailDocId := if detail.Some? then Some(detail.value.documentId) else None)
  }

  /** Carrying the id into the token is not enough: the session callback as written drops
      it, so the save still goes to "undefined". */
  lemma TokenFixAloneTargetsUndefined(id: int, jwt: string, email: Option<string>, detail: UserDetail,
                                      apiUrl: string, v: Settings.SettingsValues, resumeId: Option<int>)
    ensures var s := Some(SessionOf(TokenWithDetailDoc(id, jwt, email, Some(detail))));
            Settings.UpdateUrl(apiUrl, Settings.UpdateVariablesFor(v, resumeId, s).documentId)
            == apiUrl + "/api/user-details/" + "undefined"
  {
  }

  /** With the id carried into the token and from there into the session, a save goes to
      the signed-in user's own record, with the user's jwt. */
  lemma SettingsSaveTargetsOwnRecord(id: int, jwt: string, email: Option<string>, detail: UserDetail,
                                     apiUrl: string, v: Settings.SettingsValues, resumeId: Option<int>)
    ensures var s := Some(SessionWithDetailDoc(TokenWithDetailDoc(id, jwt, email, Some(detail))));
            Settings.UpdateVariablesFor(v, resumeId, s).documentId == Some(detail.documentId)
            && Settings.UpdateUrl(apiUrl, Settings.UpdateVariablesFor(v, resumeId, s).documentId)
               == apiUrl + "/api/user-details/" + detail.documentId
            && Settings.UpdateVariablesFor(v, resumeId, s).token == Some(jwt)
  {
  }

  /** The `jwt` callback when the settings page calls `update(data)`: `user` is undefined
      on that call, so the `if (user)` branch is skipped and the token comes back as it
      was; `data` is not read. */
  function JwtOnUpdate(t: Token, data: Settings.SessionUpdate): Token {
    t
  }

  /** As written, `update` changes nothing the pages read: the rebuilt session, and so the
      settings form's defaults, are those from before the save, and a new first name does
      not reach the session. */
  lemma SessionUpdateIgnored(t: Token, v: Settings.SettingsValues, resumeId: Option<int>, fullResume: Option<StoredFile>)
    ensures var before := Some(SessionOf(t));
            var after := Some(SessionOf(JwtOnUpdate(t, Settings.SessionUpdateFor(v, resumeId, fullResume, before))));
            after == before && Settings.Defaults(after) == Settings.Defaults(before)
            && (t.firstName != Some(v.firstName) ==> after.value.user.value.firstName != Some(v.firstName))
  {
  }

  /** The `jwt` callback with an `if (trigger === 'update' && session)` branch that copies the
      names and the resume passed to `update` into the token; nothing else changes. */
  function JwtOnUpdateCorrected(t: Token, data: Settings.SessionUpdate): (r: Token)
    ensures r.firstName == Some(data.firstName) && r.lastName == Some(data.lastName) && r.resume == data.resume
    ensures r.(firstName := t.firstName, lastName := t.lastName, resume := t.resume) == t
  {
    t.(firstName := Some(data.firstName), lastName := Some(data.lastName), resume := data.resume)
  }

  /** With the corrected callbacks, a successful save puts the saved names and the kept
      resume into the session, which the settings form then shows; the jwt, id and
      user-detail record are kept. */
  lemma SessionUpdateApplied(t: Token, v: Settings.SettingsValues, resumeId: Option<int>, fullResume: Option<StoredFile>)
    requires v.firstName != "" && v.lastName != ""
    ensures var before := Some(SessionWithDetailDoc(t));
            var data := Settings.SessionUpdateFor(v, resumeId, fullResume, before);
            var after := SessionWithDetailDoc(JwtOnUpdateCorrected(t, data));
            after.user.value.firstName == Some(v.firstName) && after.user.value.lastName == Some(v.lastName)
            && after.user.value.resume == data.resume
            && after.jwt == before.value.jwt && after.user.value.id == before.value.user.value.id
            && after.user.value.userDetailDocId == t.userDetailDocId
            && Settings.Defaults(Some(after)).firstName == v.firstName
            && Settings.Defaults(Some(after)).lastName == v.lastName
  {
  }
}
