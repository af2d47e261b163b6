/**
 * Checking the configured cookies (`CookieValidator` of src/validators/cookie.py): the two cookies must be
 * set, the account answer must carry code 200 and a profile, and the batch endpoint must answer code 200.
 * The checks run in that order and the first one that fails decides the message.
 */
module CookieCheck {
  import opened Common
  import opened Json
  import opened Env

  const NotSet := "Cookie未正确设置"
  const Expired := "Cookie已失效或账号信息不完整"
  const NoAccess := "当前账号可能没有音乐合伙人权限"
  const Valid := "Cookie有效"
  const CheckFailed := "Cookie验证失败: "

  /** What `validate()` returns, with the requests it sent. */
  datatype Verdict = Verdict(ok: bool, msg: string, events: seq<Event>)

  /** `bool(cookies.get("MUSIC_U") and cookies.get("__csrf"))`: both set and non-empty. */
  predicate CookiesSet(jar: map<string, string>) {
    "MUSIC_U" in jar && jar["MUSIC_U"] != "" && "__csrf" in jar && jar["__csrf"] != ""
  }

  /** `response.get("code") == 200`, with the errors of `.json()` and of `.get` on a non-dict. */
  function CodeIs200(reply: Reply): (r: Result<bool>)
    ensures r.Ok? <==> reply.Body? && reply.json.Obj?
    ensures r.Ok? ==> (r.value <==> PyEq(GetOr(reply.json, "code", Null).value, Num(200)))
  {
    match Decode(reply)
    case Err(e) => Err(e)
    case Ok(body) =>
      match GetOr(body, "code", Null)
      case Err(e) => Err(e)
      case Ok(code) => Ok(PyEq(code, Num(200)))
  }

  /** `_check_user_info()` on the account answer: code 200 and a truthy `profile`. */
  function UserInfoOk(reply: Reply): (r: Result<bool>)
    ensures r.Ok? <==> reply.Body? && reply.json.Obj?
    ensures r.Ok? ==> (r.value <==> CodeIs200(reply).value && Truthy(GetOr(reply.json, "profile", Null).value))
  {
    match CodeIs200(reply)
    case Err(e) => Err(e)
    case Ok(is200) => Ok(is200 && Truthy(GetOr(reply.json, "profile", Null).value))
  }

  /** `validate()` on the session's cookie jar and the answers the two endpoints give, in order. */
  function Validate(jar: map<string, string>, replies: seq<Reply>): (v: Verdict)
    ensures v.ok <==> v.msg == Valid
    ensures |v.events| <= 2
  {
    if !CookiesSet(jar) then Verdict(false, NotSet, [])
    else
      var user := [Exchanged(Get(UserInfoUrl), Next(replies))];
      match UserInfoOk(Next(replies))
      case Err(e) => Verdict(false, CheckFailed + e.msg, user)
      case Ok(false) => Verdict(false, Expired, user)
      case Ok(true) =>
        var both := user + [Exchanged(Get(DailyTaskUrl), Next(Rest(replies)))];
        match CodeIs200(Next(Rest(replies)))
        case Err(e) => Verdict(false, CheckFailed + e.msg, both)
        case Ok(false) => Verdict(false, NoAccess, both)
        case Ok(true) => Verdict(true, Valid, both)
  }

  /** Missing cookies are reported before any request is sent. */
  lemma CookiesFirst(jar: map<string, string>, replies: seq<Reply>)
    requires !CookiesSet(jar)
    ensures Validate(jar, replies) == Verdict(false, NotSet, [])
  {
  }

  /**
   * The checks short-circuit in order: a refused account is reported without asking the batch endpoint, and
   * only when every check passes are the cookies valid.
   */
  lemma ChecksInOrder(jar: map<string, string>, replies: seq<Reply>)
    ensures var v := Validate(jar, replies);
      && (v.ok <==> CookiesSet(jar) && UserInfoOk(Next(replies)) == Ok(true) && CodeIs200(Next(Rest(replies))) == Ok(true))
      && (CookiesSet(jar) && UserInfoOk(Next(replies)) == Ok(false) ==> v == Verdict(false, Expired, [Exchanged(Get(UserInfoUrl), Next(replies))]))
      && (CookiesSet(jar) && UserInfoOk(Next(replies)) == Ok(true) && CodeIs200(Next(Rest(replies))) == Ok(false) ==> v.msg == NoAccess)
  {
  }

  /** Every failure, an exception included, is a verdict and never escapes; an exception's text follows the prefix. */
  lemma ExceptionsBecomeVerdicts(jar: map<string, string>, replies: seq<Reply>)
    ensures var v := Validate(jar, replies);
      !v.ok ==> v.msg in {NotSet, Expired, NoAccess} || StartsWith(v.msg, CheckFailed)
    ensures CookiesSet(jar) && !Next(replies).Body? ==>
      Validate(jar, replies).msg == CheckFailed + Decode(Next(replies)).exc.msg
  {
  }
}
