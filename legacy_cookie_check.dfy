/**
 * The older cookie check (`CookieValidator` of cookie_validator.py): the same three checks in the same order,
 * with one more answer from the batch endpoint singled out: code 301 means the cookies have expired.
 */
module LegacyCookieCheck {
  import opened Common
  import opened Json
  import opened Env
  import opened CookieCheck

  const Outdated := "Cookie已失效，请更新Cookie"

  /** `validate()` of the older check on the session's cookie jar and the answers of the two endpoints. */
  function LegacyValidate(jar: map<string, string>, replies: seq<Reply>): (v: Verdict)
    ensures v.ok <==> v.msg == Valid
  {
    if !CookiesSet(jar) then Verdict(false, NotSet, [])
    else
      var user := [Exchanged(Get(UserInfoUrl), Next(replies))];
      match UserInfoOk(Next(replies))
      case Err(e) => Verdict(false, CheckFailed + e.msg, user)
      case Ok(false) => Verdict(false, Expired, user)
      case Ok(true) =>
        var both := user + [Exchanged(Get(DailyTaskUrl), Next(Rest(replies)))];
        match Decode(Next(Rest(replies)))
        case Err(e) => Verdict(false, CheckFailed + e.msg, both)
        case Ok(body) =>
          match GetOr(body, "code", Null)
          case Err(e) => Verdict(false, CheckFailed + e.msg, both)
          case Ok(code) =>
            if PyEq(code, Num(301)) then Verdict(false, Outdated, both)
            else if !PyEq(code, Num(200)) then Verdict(false, NoAccess, both)
            else Verdict(true, Valid, both)
  }

  /** The batch endpoint's `code`, when its answer is a dict. */
  function TaskCode(replies: seq<Reply>): Option<Json> {
    var reply := Next(Rest(replies));
    if reply.Body? && reply.json.Obj? then Some(GetOr(reply.json, "code", Null).value) else None
  }

  /**
   * The older check decides every case as the current one does, sends the same requests, and words the
   * verdict the same way, except that a batch answer with code 301 gets its own message.
   */
  lemma SameAsCurrent(jar: map<string, string>, replies: seq<Reply>)
    ensures var (old_, new_) := (LegacyValidate(jar, replies), Validate(jar, replies));
      && old_.ok == new_.ok && old_.events == new_.events
      && (old_.msg == new_.msg <==> !(new_.msg == NoAccess && PyEq(TaskCode(replies).value, Num(301))))
  {
  }

  /** Code 301 from the batch endpoint is reported as expired cookies, ahead of the generic refusal. */
  lemma Code301First(jar: map<string, string>, replies: seq<Reply>)
    requires CookiesSet(jar) && UserInfoOk(Next(replies)) == Ok(true)
    requires TaskCode(replies) == Some(Num(301))
    ensures LegacyValidate(jar, replies).msg == Outdated
  {
  }
}
