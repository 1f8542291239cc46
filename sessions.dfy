/** The next-auth session the pages read (`useSession().data`), as far as the modelled
    code looks into it, and JavaScript's rendering of a possibly missing value inside a
    template literal. */
module Sessions {
  import opened Wrappers
  import opened Text

  /** An uploaded file as the upload endpoint returns it; only `id` and the object as a
      whole are used. */
  datatype StoredFile = StoredFile(id: int, url: string)

  /** `session.user`: every field may be missing. */
  datatype SessionUser = SessionUser(id: Option<int>, firstName: Option<string>, lastName: Option<string>,
                                     email: Option<string>, resume: Option<StoredFile>,
                                     userDetailDocId: Option<string>)

  datatype Session = Session(jwt: Option<string>, user: Option<SessionUser>)

  /** `session?.user?.id`. */
  function UserId(s: Option<Session>): (r: Option<int>)
    ensures r.Some? <==> s.Some? && s.value.user.Some? && s.value.user.value.id.Some?
  {
    if s.Some? && s.value.user.Some? then s.value.user.value.id else None
  }

  /** `session?.user?.userDetailDocId`. */
  function UserDetailDocId(s: Option<Session>): (r: Option<string>)
    ensures r.Some? <==> s.Some? && s.value.user.Some? && s.value.user.value.userDetailDocId.Some?
  {
    if s.Some? && s.value.user.Some? then s.value.user.value.userDetailDocId else None
  }

  /** `session?.jwt`. */
  function SessionJwt(s: Option<Session>): (r: Option<string>)
    ensures r.Some? <==> s.Some? && s.value.jwt.Some?
  {
    if s.Some? then s.value.jwt else None
  }

  /** `session?.user?.resume`. */
  function SessionResume(s: Option<Session>): (r: Option<StoredFile>)
    ensures r.Some? <==> s.Some? && s.value.user.Some? && s.value.user.value.resume.Some?
  {
    if s.Some? && s.value.user.Some? then s.value.user.value.resume else None
  }

  /** `${v}` for a string that may be undefined. */
  function JsText(v: Option<string>): (t: string)
    ensures v.Some? ==> t == v.value
    ensures v.None? ==> t == "undefined"
  {
    if v.Some? then v.value else "undefined"
  }

  /** `${n}` for a number that may be undefined. */
  function JsNumberText(n: Option<int>): (t: string)
    ensures n.Some? ==> IsDecimal(t) && ParseDecimal(t) == n.value
    ensures n.None? ==> t == "undefined"
  {
    if n.Some? then DecimalRoundTrip(n.value); Decimal(n.value) else "undefined"
  }
}
