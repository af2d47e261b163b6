/**
 * Logging in with a phone number and a password (`AuthService.login` of src/utils/auth.py): the answer of the
 * login endpoint is checked, then `MUSIC_U` and `__csrf` are looked for in three places in turn, and the two
 * values come back as the cookie dict the bot is configured with.
 */
module Auth {
  import opened Common
  import opened Json

  const LoginUrl := "https://ncma-web.vercel.app/login/cellphone"

  /**
   * What the login endpoint sends back: the HTTP status, the body (`None` when it is not JSON), the cookies the
   * session library took from the answer, and the `Set-Cookie` header (empty when absent, which is what
   * `headers.get("Set-Cookie", "")` gives).
   */
  datatype Response = Response(status: int, body: Option<Json>, cookies: map<string, string>, setCookie: string)

  /** `not v` is false for the value: it was found and is not empty. */
  predicate Present(v: Option<string>) {
    v.Some? && v.value != ""
  }

  // ---------------------------------------------------------------------------------------------
  // re.search(NAME + r'=([^;]+)', s).group(1)
  // ---------------------------------------------------------------------------------------------

  /** The pattern `NAME=([^;]+)` matches at position `p`: `NAME=` is there and at least one non-';' follows. */
  predicate MatchAt(s: string, name: string, p: nat) {
    p + |name| + 1 < |s| && s[p..p + |name| + 1] == name + "=" && s[p + |name| + 1] != ';'
  }

  /** The longest run of characters other than ';' that starts at `i`: what the greedy `[^;]+` takes. */
  function RunFrom(s: string, i: nat): (r: string)
    requires i <= |s|
    ensures i + |r| <= |s| && r == s[i..i + |r|]
    ensures forall k :: 0 <= k < |r| ==> r[k] != ';'
    ensures i + |r| == |s| || s[i + |r|] == ';'
    decreases |s| - i
  {
    if i < |s| && s[i] != ';' then [s[i]] + RunFrom(s, i + 1) else []
  }

  /** `re.search` from position `p` on: the first position that matches, and the group it captures. */
  function SearchFrom(s: string, name: string, p: nat): Option<string>
    decreases |s| - p
  {
    if p + |name| + 1 >= |s| then None
    else if MatchAt(s, name, p) then Some(RunFrom(s, p + |name| + 1))
    else SearchFrom(s, name, p + 1)
  }

  function Search(s: string, name: string): Option<string> {
    SearchFrom(s, name, 0)
  }

  /**
   * The search finds the FIRST position where the pattern matches and captures the maximal non-empty run of
   * non-';' characters after `NAME=`; it finds nothing exactly when the pattern matches nowhere.
   */
  lemma {:induction false} SearchFinds(s: string, name: string, p: nat)
    ensures SearchFrom(s, name, p).None? <==> forall q :: p <= q ==> !MatchAt(s, name, q)
    ensures SearchFrom(s, name, p).Some? ==>
      exists q :: p <= q && MatchAt(s, name, q) && (forall q' :: p <= q' < q ==> !MatchAt(s, name, q'))
                  && SearchFrom(s, name, p).value == RunFrom(s, q + |name| + 1)
    decreases |s| - p
  {
    if p + |name| + 1 >= |s| {
      assert forall q :: p <= q ==> !MatchAt(s, name, q);
    } else if !MatchAt(s, name, p) {
      SearchFinds(s, name, p + 1);
      if SearchFrom(s, name, p + 1).Some? {
        var q :| p + 1 <= q && MatchAt(s, name, q) && (forall q' :: p + 1 <= q' < q ==> !MatchAt(s, name, q'))
                 && SearchFrom(s, name, p + 1).value == RunFrom(s, q + |name| + 1);
        assert forall q' :: p <= q' < q ==> !MatchAt(s, name, q');
      }
    } else {
      assert SearchFrom(s, name, p).value == RunFrom(s, p + |name| + 1);
    }
  }

  /** What the search captures is never empty and never holds ';'. */
  lemma SearchCaptures(s: string, name: string)
    requires Search(s, name).Some?
    ensures Search(s, name).value != "" && forall k :: 0 <= k < |Search(s, name).value| ==> Search(s, name).value[k] != ';'
  {
    SearchFinds(s, name, 0);
  }

  // ---------------------------------------------------------------------------------------------
  // The three places
  // ---------------------------------------------------------------------------------------------

  /** The body's `cookie` string: a match replaces the value found so far, even one that is present. */
  function FromBody(v: Option<string>, cookieStr: string, name: string): (r: Option<string>)
    ensures Search(cookieStr, name).Some? ==> r == Search(cookieStr, name)
    ensures Search(cookieStr, name).None? ==> r == v
  {
    match Search(cookieStr, name)
    case Some(m) => Some(m)
    case None => v
  }

  /** The `Set-Cookie` header: only a value still missing is filled in. */
  function FromHeader(v: Option<string>, header: string, name: string): (r: Option<string>)
    ensures Present(v) ==> r == v
    ensures !Present(v) && Search(header, name).Some? ==> r == Search(header, name)
    ensures !Present(v) && Search(header, name).None? ==> r == v
  {
    if Present(v) then v
    else match Search(header, name)
      case Some(m) => Some(m)
      case None => v
  }

  /**
   * The first two places on a dict body: the cookie map, then the body's `cookie` string, looked at only when
   * a value is missing and the body has that key; a non-string there makes `re.search` raise TypeError.
   */
  function BodyStage(r: Response, data: seq<Field>): (c: Result<(Option<string>, Option<string>)>)
    ensures c.Err? <==> (!Present(At(r.cookies, "MUSIC_U")) || !Present(At(r.cookies, "__csrf")))
                        && Lookup(data, "cookie").Some? && !Lookup(data, "cookie").value.Str?
  {
    var musicU, csrf := At(r.cookies, "MUSIC_U"), At(r.cookies, "__csrf");
    if (!Present(musicU) || !Present(csrf)) && Lookup(data, "cookie").Some? then
      match Lookup(data, "cookie").value
      case Str(s) => Ok((FromBody(musicU, s, "MUSIC_U"), FromBody(csrf, s, "__csrf")))
      case _ => Err(Exc(TypeError, "expected string or bytes-like object"))
    else Ok((musicU, csrf))
  }

  /** The whole cascade: the first two places, then the header. */
  function Credentials(r: Response, data: seq<Field>): (c: Result<(Option<string>, Option<string>)>)
    ensures c.Err? <==> BodyStage(r, data).Err?
  {
    match BodyStage(r, data)
    case Err(e) => Err(e)
    case Ok((musicU, csrf)) => Ok((FromHeader(musicU, r.setCookie, "MUSIC_U"), FromHeader(csrf, r.setCookie, "__csrf")))
  }

  /** `login(phone, password)` on the endpoint's answer (`None` when the request itself raised). */
  function LoginResult(answer: Option<Response>): (r: Option<map<string, string>>)
  {
    if answer.None? || answer.value.status != 200 then None
    else
      var resp := answer.value;
      if resp.body.None? || !resp.body.value.Obj? then None
      else if !PyEq(GetOr(resp.body.value, "code", Null).value, Num(200)) then None
      else match Credentials(resp, resp.body.value.fields)
        case Err(_) => None
        case Ok((musicU, csrf)) =>
          if !Present(musicU) || !Present(csrf) then None
          else Some(map["Cookie_MUSIC_U" := musicU.value, "Cookie___csrf" := csrf.value])
  }

  /**
   * `login`: the locals `music_u` and `csrf` are set from the cookie map and then overwritten or filled in by
   * the later stages; every failure, an exception included, gives `(False, None)`.
   */
  method Login(answer: Option<Response>) returns (ok: bool, cookies: Option<map<string, string>>)
    ensures cookies == LoginResult(answer) && ok == cookies.Some?
  {
    ok, cookies := false, None;
    if answer.None? {
      return;
    }
    var resp := answer.value;
    if resp.status != 200 {
      return;
    }
    if resp.body.None? || !resp.body.value.Obj? {
      return;
    }
    var data := resp.body.value;
    if !PyEq(GetOr(data, "code", Null).value, Num(200)) {
      return;
    }
    var musicU := At(resp.cookies, "MUSIC_U");
    var csrf := At(resp.cookies, "__csrf");
    if (!Present(musicU) || !Present(csrf)) && Lookup(data.fields, "cookie").Some? {
      var cookieStr := Lookup(data.fields, "cookie").value;
      if !cookieStr.Str? {
        return;
      }
      var m := Search(cookieStr.s, "MUSIC_U");
      if m.Some? {
        musicU := m;
      }
      m := Search(cookieStr.s, "__csrf");
      if m.Some? {
        csrf := m;
      }
    }
    if !Present(musicU) || !Present(csrf) {
      if !Present(musicU) {
        var m := Search(resp.setCookie, "MUSIC_U");
        if m.Some? {
          musicU := m;
        }
      }
      if !Present(csrf) {
        var m := Search(resp.setCookie, "__csrf");
        if m.Some? {
          csrf := m;
        }
      }
    }
    if !Present(musicU) {
      return;
    }
    if !Present(csrf) {
      return;
    }
    ok, cookies := true, Some(map["Cookie_MUSIC_U" := musicU.value, "Cookie___csrf" := csrf.value]);
  }

  // ---------------------------------------------------------------------------------------------
  // What login promises
  // ---------------------------------------------------------------------------------------------

  /** An HTTP status other than 200, or a body `code` other than 200, is a failed login. */
  lemma StatusAndCodeGate(resp: Response)
    ensures resp.status != 200 ==> LoginResult(Some(resp)).None?
    ensures resp.body.Some? && resp.body.value.Obj? && !PyEq(GetOr(resp.body.value, "code", Null).value, Num(200))
            ==> LoginResult(Some(resp)).None?
  {
  }

  /** A successful login gives exactly the two configuration keys, each with a non-empty value. */
  lemma LoginShape(answer: Option<Response>)
    requires LoginResult(answer).Some?
    ensures var m := LoginResult(answer).value;
      m.Keys == {"Cookie_MUSIC_U", "Cookie___csrf"} && m["Cookie_MUSIC_U"] != "" && m["Cookie___csrf"] != ""
  {
  }

  /** With both values in the cookie map, they are the ones returned: the later stages do not run or keep them. */
  lemma CookieMapFirst(resp: Response, data: seq<Field>)
    requires Present(At(resp.cookies, "MUSIC_U")) && Present(At(resp.cookies, "__csrf"))
    ensures Credentials(resp, data) == Ok((At(resp.cookies, "MUSIC_U"), At(resp.cookies, "__csrf")))
  {
  }

  /**
   * The body's `cookie` string overwrites: when `__csrf` is missing from the cookie map, a `MUSIC_U` in that
   * string replaces the one from the map, and it is the one returned.
   */
  lemma BodyOverwrites(resp: Response, data: seq<Field>, s: string)
    requires Present(At(resp.cookies, "MUSIC_U")) && !Present(At(resp.cookies, "__csrf"))
    requires Lookup(data, "cookie") == Some(Str(s)) && Search(s, "MUSIC_U").Some?
    ensures BodyStage(resp, data) == Ok((Search(s, "MUSIC_U"), FromBody(At(resp.cookies, "__csrf"), s, "__csrf")))
    ensures Credentials(resp, data).Ok? && Credentials(resp, data).value.0 == Search(s, "MUSIC_U")
  {
    SearchCaptures(s, "MUSIC_U");
  }

  /** The header only fills in: a value found in the first two places is kept, a missing one is taken from the header. */
  lemma HeaderFillsOnly(resp: Response, data: seq<Field>)
    requires BodyStage(resp, data).Ok?
    ensures var (musicU, csrf) := BodyStage(resp, data).value;
      var (musicU', csrf') := Credentials(resp, data).value;
      && (Present(musicU) ==> musicU' == musicU)
      && (Present(csrf) ==> csrf' == csrf)
      && (!Present(musicU) && Search(resp.setCookie, "MUSIC_U").Some? ==> musicU' == Search(resp.setCookie, "MUSIC_U"))
      && (!Present(csrf) && Search(resp.setCookie, "__csrf").Some? ==> csrf' == Search(resp.setCookie, "__csrf"))
  {
  }
}
