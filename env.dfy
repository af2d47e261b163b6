/**
 * The world the bots act on: the HTTP session (its cookie jar and the replies the portal gives, in order),
 * the clock (sleeps are recorded, not waited), the random source and the AES block function.
 */
module Env {
  import opened Common
  import opened Text
  import opened Json
  import opened Cbc

  const UserInfoUrl := "https://music.163.com/api/nuser/account/get"
  const DailyTaskUrl := "https://interface.music.163.com/api/music/partner/daily/task/get"
  const ExtraListUrl := "https://interface.music.163.com/api/music/partner/extra/wait/evaluate/work/list"
  const ReportUrl := "https://interface.music.163.com/weapi/partner/resource/interact/report"
  const SignUrl := "https://interface.music.163.com/weapi/music/partner/work/evaluate"

  /** What one HTTP exchange yields: a JSON body, a body that is not JSON, or no answer at all. */
  datatype Reply = Body(json: Json) | Malformed | Unreachable

  /** `response.json()`, with the transport failure surfacing first. */
  function Decode(reply: Reply): (r: Result<Json>)
    ensures r.Ok? <==> reply.Body?
    ensures reply.Body? ==> r.value == reply.json
    ensures reply.Malformed? ==> r.exc.kind == ValueError
    ensures reply.Unreachable? ==> r.exc.kind == ConnectionError
  {
    match reply
    case Body(j) => Ok(j)
    case Malformed => Err(Exc(ValueError, "Expecting value: line 1 column 1 (char 0)"))
    case Unreachable => Err(Exc(ConnectionError, "Connection aborted."))
  }

  predicate IsSeedChar(c: char) {
    IsAsciiLetter(c) || IsDigit(c)
  }

  predicate IsSeed(s: string) {
    |s| == 16 && forall i :: 0 <= i < |s| ==> IsSeedChar(s[i])
  }

  /** A signer's `random_str`: sixteen ASCII letters and digits. */
  type Seed = s: string | IsSeed(s) witness "AAAAAAAAAAAAAAAA"

  /**
   * A GET, or a form POST to a "weapi" endpoint. A POST is recorded by the JSON payload it encrypts and the
   * seed of the signer that encrypts it; its two form fields `params` and `encSecKey` are a function of
   * these and the block cipher (`Signer.WireForm`).
   */
  datatype Request =
    | Get(url: string)
    | Post(url: string, payload: Json, seed: Seed)

  /** Why the bot slept: before every rating, after a rate-limit answer, or between extra items. */
  datatype Pause = BeforeRating | RateLimitBackoff | BetweenItems

  datatype Event =
    | Slept(why: Pause)
    | Exchanged(request: Request, reply: Reply)

  /** The error `session.cookies[name]` raises for a cookie the jar does not hold. */
  function CookieMissing(name: string): (e: Exc)
    ensures e.kind == KeyError
  {
    Exc(KeyError, "\"name='" + name + "', domain=None, path=None\"")
  }

  /** The number of sleeps for the given reason. */
  function Pauses(es: seq<Event>, why: Pause): (n: nat)
    ensures n <= |es|
  {
    if es == [] then 0
    else Pauses(es[..|es| - 1], why) + (if es[|es| - 1] == Slept(why) then 1 else 0)
  }

  lemma {:induction false} PausesAppend(a: seq<Event>, b: seq<Event>, why: Pause)
    ensures Pauses(a + b, why) == Pauses(a, why) + Pauses(b, why)
    decreases |b|
  {
    if b != [] {
      assert (a + b)[..|a + b| - 1] == a + b[..|b| - 1];
      assert (a + b)[|a + b| - 1] == b[|b| - 1];
      PausesAppend(a, b[..|b| - 1], why);
    } else {
      assert a + b == a;
    }
  }

  /** The requests sent, in order. */
  function Requests(es: seq<Event>): (r: seq<Request>)
    ensures |r| <= |es|
  {
    if es == [] then []
    else Requests(es[..|es| - 1]) + (if es[|es| - 1].Exchanged? then [es[|es| - 1].request] else [])
  }

  lemma {:induction false} RequestsAppend(a: seq<Event>, b: seq<Event>)
    ensures Requests(a + b) == Requests(a) + Requests(b)
    decreases |b|
  {
    if b != [] {
      assert (a + b)[..|a + b| - 1] == a + b[..|b| - 1];
      assert (a + b)[|a + b| - 1] == b[|b| - 1];
      RequestsAppend(a, b[..|b| - 1]);
    } else {
      assert a + b == a;
    }
  }

  /** The portal's next answer; once the script runs out, requests go unanswered. */
  function Next(replies: seq<Reply>): Reply {
    if replies == [] then Unreachable else replies[0]
  }

  /** The answers left after one request. */
  function Rest(replies: seq<Reply>): seq<Reply> {
    if replies == [] then [] else replies[1..]
  }

  /** The parts of the world no operation changes: the cookie jar, the random source and the block function. */
  datatype Fixed = Fixed(jar: map<string, string>, rng: nat -> nat, E: BlockCipher)

  /**
   * The session, the clock, the random source and the cipher library, as one object.
   * `replies` is what the portal will answer, in order; once it runs out, every request goes unanswered.
   */
  class World {
    const cookies: map<string, string>
    var replies: seq<Reply>
    var trace: seq<Event>
    var drawn: nat
    const rng: nat -> nat
    const cipher: BlockCipher

    constructor (cookies: map<string, string>, replies: seq<Reply>, rng: nat -> nat, cipher: BlockCipher)
      ensures this.cookies == cookies && this.replies == replies && this.trace == [] && drawn == 0
      ensures this.rng == rng && this.cipher == cipher
    {
      this.cookies := cookies;
      this.replies := replies;
      this.trace := [];
      this.drawn := 0;
      this.rng := rng;
      this.cipher := cipher;
    }

    function Parts(): Fixed {
      Fixed(cookies, rng, cipher)
    }

    /** Sends one request and takes the portal's next answer. */
    method Send(request: Request) returns (reply: Reply)
      modifies this`replies, this`trace
      ensures reply == if old(replies) == [] then Unreachable else old(replies)[0]
      ensures replies == if old(replies) == [] then [] else old(replies)[1..]
      ensures trace == old(trace) + [Exchanged(request, reply)]
    {
      if replies == [] {
        reply := Unreachable;
      } else {
        reply := replies[0];
        replies := replies[1..];
      }
      trace := trace + [Exchanged(request, reply)];
    }

    /** `time.sleep(config.get_wait_time())`; the duration is not modelled. */
    method Sleep(why: Pause)
      modifies this`trace
      ensures trace == old(trace) + [Slept(why)]
    {
      trace := trace + [Slept(why)];
    }
  }
}
