/**
 * What one `sign` call does, read off its specification `RateFrom`: how many attempts it makes, what it sends,
 * which replies it consumes, and the exception it ends with.
 */
module SignerFacts {
  import opened Common
  import opened Json
  import opened Cbc
  import opened Env
  import opened Signer

  /** The number of rate-limit answers at the head of the script. */
  function ThrottledPrefix(replies: seq<Reply>): (k: nat)
    ensures k <= |replies|
  {
    if replies == [] || !Classify(replies[0]).Throttled? then 0 else 1 + ThrottledPrefix(replies[1..])
  }

  /** `n` layers of the handler's "评分过程出错: " around a message. */
  function Wrapped(n: nat, msg: string): (r: string)
    ensures |r| >= |msg|
  {
    if n == 0 then msg else "评分过程出错: " + Wrapped(n - 1, msg)
  }

  /** The final answer, the one after the rate-limit answers, or none once the script runs out. */
  function FinalReply(replies: seq<Reply>): Reply {
    var k := ThrottledPrefix(replies);
    if k < |replies| then replies[k] else Unreachable
  }

  /** `n` copies of `x`. */
  function Repeat<T>(x: T, n: nat): (r: seq<T>)
    ensures |r| == n
  {
    if n == 0 then [] else [x] + Repeat(x, n - 1)
  }

  lemma ThrottledPrefixCons(replies: seq<Reply>)
    requires replies != [] && Classify(replies[0]).Throttled?
    ensures ThrottledPrefix(replies) == ThrottledPrefix(replies[1..]) + 1
  {
  }

  lemma RepeatCons<T>(x: T, n: nat, m: nat)
    requires m == n + 1
    ensures Repeat(x, m) == [x] + Repeat(x, n)
  {
  }

  /** A call whose first answer is not a rate-limit answer makes one attempt. */
  lemma SingleAttempt(request: Result<Request>, replies: seq<Reply>, work: Json)
    requires request.Ok? && (replies == [] || !Classify(replies[0]).Throttled?)
    ensures RateFrom(request, replies, work).events
         == [Slept(BeforeRating), Exchanged(request.value, if replies == [] then Unreachable else replies[0])]
    ensures RateFrom(request, replies, work).left == if replies == [] then [] else replies[1..]
  {
  }

  lemma AttemptCounts(request: Request, reply: Reply)
    ensures Pauses([Slept(BeforeRating), Exchanged(request, reply)], BeforeRating) == 1
    ensures Pauses([Slept(BeforeRating), Exchanged(request, reply)], RateLimitBackoff) == 0
    ensures Pauses([Slept(BeforeRating), Exchanged(request, reply)], BetweenItems) == 0
    ensures Requests([Slept(BeforeRating), Exchanged(request, reply)]) == [request]
  {
    var a := [Slept(BeforeRating), Exchanged(request, reply)];
    assert a[..1] == [Slept(BeforeRating)];
    assert a[..1][..0] == [];
  }

  lemma BackoffCounts(a: seq<Event>, b: seq<Event>)
    ensures Pauses(a + [Slept(RateLimitBackoff)] + b, BeforeRating) == Pauses(a, BeforeRating) + Pauses(b, BeforeRating)
    ensures Pauses(a + [Slept(RateLimitBackoff)] + b, RateLimitBackoff) == Pauses(a, RateLimitBackoff) + 1 + Pauses(b, RateLimitBackoff)
    ensures Pauses(a + [Slept(RateLimitBackoff)] + b, BetweenItems) == Pauses(a, BetweenItems) + Pauses(b, BetweenItems)
    ensures Requests(a + [Slept(RateLimitBackoff)] + b) == Requests(a) + Requests(b)
  {
    var s := [Slept(RateLimitBackoff)];
    assert Pauses(s, BeforeRating) == 0 && Pauses(s, RateLimitBackoff) == 1 && Pauses(s, BetweenItems) == 0 && Requests(s) == [] by {
      assert s[..0] == [];
    }
    PausesAppend(a, s, BeforeRating);
    PausesAppend(a + s, b, BeforeRating);
    PausesAppend(a, s, RateLimitBackoff);
    PausesAppend(a + s, b, RateLimitBackoff);
    PausesAppend(a, s, BetweenItems);
    PausesAppend(a + s, b, BetweenItems);
    RequestsAppend(a, s);
    RequestsAppend(a + s, b);
  }

  /**
   * Once its request is built, `sign` makes one attempt per rate-limit answer plus one: every attempt sleeps
   * first, and a back-off sleep separates attempts. It never takes the pause meant for between extra items.
   */
  lemma {:induction false} RateFromPauses(request: Result<Request>, replies: seq<Reply>, work: Json)
    requires request.Ok?
    ensures var k, run := ThrottledPrefix(replies), RateFrom(request, replies, work);
      Pauses(run.events, BeforeRating) == k + 1 && Pauses(run.events, RateLimitBackoff) == k
      && Pauses(run.events, BetweenItems) == 0
    decreases |replies|
  {
    if replies != [] && Classify(replies[0]).Throttled? {
      var attempt := [Slept(BeforeRating), Exchanged(request.value, replies[0])];
      RateFromPauses(request, replies[1..], work);
      AttemptCounts(request.value, replies[0]);
      BackoffCounts(attempt, RateFrom(request, replies[1..], work).events);
    } else {
      SingleAttempt(request, replies, work);
      AttemptCounts(request.value, if replies == [] then Unreachable else replies[0]);
    }
  }

  /** A rate-limit answer adds one posting of the request before the retry's own. */
  lemma ThrottledRequests(request: Result<Request>, replies: seq<Reply>, work: Json)
    requires request.Ok? && replies != [] && Classify(replies[0]).Throttled?
    ensures Requests(RateFrom(request, replies, work).events)
         == [request.value] + Requests(RateFrom(request, replies[1..], work).events)
  {
    var attempt := [Slept(BeforeRating), Exchanged(request.value, replies[0])];
    RateFromThrottled(request, replies, work);
    AttemptCounts(request.value, replies[0]);
    BackoffCounts(attempt, RateFrom(request, replies[1..], work).events);
  }

  /** A rate-limit answer adds one more posting of the same request. */
  lemma {:induction false} ThrottledStep(request: Result<Request>, replies: seq<Reply>, work: Json)
    requires request.Ok? && replies != [] && Classify(replies[0]).Throttled?
    ensures Requests(RateFrom(request, replies, work).events) == Repeat(request.value, ThrottledPrefix(replies) + 1)
    decreases |replies|, 0
  {
    RateFromRequests(request, replies[1..], work);
    ThrottledRequests(request, replies, work);
    ThrottledPrefixCons(replies);
    RepeatCons(request.value, ThrottledPrefix(replies[1..]) + 1, ThrottledPrefix(replies) + 1);
  }

  /** Every attempt posts the same request. */
  lemma {:induction false} RateFromRequests(request: Result<Request>, replies: seq<Reply>, work: Json)
    requires request.Ok?
    ensures Requests(RateFrom(request, replies, work).events) == Repeat(request.value, ThrottledPrefix(replies) + 1)
    decreases |replies|, 1
  {
    if replies != [] && Classify(replies[0]).Throttled? {
      ThrottledStep(request, replies, work);
    } else {
      SettledRequests(request, replies, work);
    }
  }

  /** A call whose first answer settles it posts its request once. */
  lemma SettledRequests(request: Result<Request>, replies: seq<Reply>, work: Json)
    requires request.Ok? && (replies == [] || !Classify(replies[0]).Throttled?)
    ensures ThrottledPrefix(replies) == 0
    ensures Requests(RateFrom(request, replies, work).events) == [request.value]
  {
    SingleAttempt(request, replies, work);
    AttemptCounts(request.value, if replies == [] then Unreachable else replies[0]);
  }

  /** The call consumes exactly the replies it reads: the rate-limit answers and the final one. */
  lemma {:induction false} RateFromLeft(request: Result<Request>, replies: seq<Reply>, work: Json)
    requires request.Ok?
    ensures var k := ThrottledPrefix(replies);
      RateFrom(request, replies, work).left == if k < |replies| then replies[k + 1..] else []
    decreases |replies|
  {
    if replies != [] && Classify(replies[0]).Throttled? {
      RateFromLeft(request, replies[1..], work);
      var k := ThrottledPrefix(replies[1..]);
      if k < |replies[1..]| {
        assert replies[1..][k + 1..] == replies[k + 2..];
      }
    }
  }

  /**
   * With a name on the work, the call succeeds exactly when the final answer accepts; otherwise it raises
   * RuntimeError, its message wrapped once in "评分过程出错: " per attempt: a refusal as "评分失败: " plus the
   * portal's message, an unreadable answer with the decoder's or the transport's message.
   */
  lemma {:induction false} RateFromOutcome(request: Result<Request>, replies: seq<Reply>, work: Json)
    requires request.Ok? && Index(work, "name").Ok?
    ensures var k, run, v := ThrottledPrefix(replies), RateFrom(request, replies, work), Classify(FinalReply(replies));
      && (run.outcome.Ok? <==> v.Accepted?)
      && (v.Refused? ==> run.outcome == Err(Runtime(Wrapped(k + 1, "评分失败: " + v.msg))))
      && (v.Broken? ==> run.outcome == Err(Runtime(Wrapped(k + 1, v.exc.msg))))
    decreases |replies|
  {
    if replies != [] && Classify(replies[0]).Throttled? {
      var retry := RateFrom(request, replies[1..], work);
      RateFromOutcome(request, replies[1..], work);
      RateFromThrottled(request, replies, work);
      assert FinalReply(replies) == FinalReply(replies[1..]);
      assert ThrottledPrefix(replies) == ThrottledPrefix(replies[1..]) + 1;
      if retry.outcome.Err? {
        assert RateFrom(request, replies, work).outcome == Err(Runtime("评分过程出错: " + retry.outcome.exc.msg));
      }
    } else if replies == [] {
      assert Classify(Unreachable) == Broken(Decode(Unreachable).exc);
    }
  }

  /** Every `sign` call sleeps before it builds its request, and none takes the pause meant for between extra items. */
  lemma SignRunPauses(jar: map<string, string>, replies: seq<Reply>, E: BlockCipher, s: Signer, work: Json, isExtra: bool)
    ensures Pauses(SignRun(jar, replies, E, s, work, isExtra).events, BeforeRating) >= 1
    ensures Pauses(SignRun(jar, replies, E, s, work, isExtra).events, BetweenItems) == 0
  {
    var request := RatingRequest(jar, E, s, work, isExtra);
    if request.Ok? {
      RateFromPauses(request, replies, work);
    } else {
      var events := [Slept(BeforeRating)];
      assert events[..0] == [];
    }
  }

  /** A `sign` call that goes through has posted the rating request built for the work, at least once. */
  lemma SignRunSends(jar: map<string, string>, replies: seq<Reply>, E: BlockCipher, s: Signer, work: Json, isExtra: bool)
    ensures var run := SignRun(jar, replies, E, s, work, isExtra);
      run.outcome.Ok? ==>
        RatingRequest(jar, E, s, work, isExtra).Ok? && RatingRequest(jar, E, s, work, isExtra).value in Requests(run.events)
  {
    RateFromSends(RatingRequest(jar, E, s, work, isExtra), replies, work);
  }

  /** Only a built request can go through, and it has then been posted. */
  lemma RateFromSends(request: Result<Request>, replies: seq<Reply>, work: Json)
    ensures RateFrom(request, replies, work).outcome.Ok? ==> request.Ok? && request.value in Requests(RateFrom(request, replies, work).events)
  {
    if request.Ok? {
      RateFromRequests(request, replies, work);
      RepeatCons(request.value, ThrottledPrefix(replies), ThrottledPrefix(replies) + 1);
    }
  }

  /** A work without a name fails before anything is sent, with the KeyError the handler's log line raises. */
  lemma NamelessWork(jar: map<string, string>, replies: seq<Reply>, E: BlockCipher, s: Signer, work: Json, isExtra: bool)
    requires work.Obj? && Lookup(work.fields, "name").None?
    ensures SignRun(jar, replies, E, s, work, isExtra) == Run(Err(KeyErr("name")), [Slept(BeforeRating)], replies)
  {
    assert RatingRequest(jar, E, s, work, isExtra).Err? by {
      assert ScoreAndTag(work).Err?;
    }
  }

  /** Without the `__csrf` cookie nothing is sent either; with a name on the work the error is wrapped once. */
  lemma MissingCsrf(jar: map<string, string>, replies: seq<Reply>, E: BlockCipher, s: Signer, work: Json, isExtra: bool)
    requires "__csrf" !in jar && Index(work, "name").Ok?
    ensures SignRun(jar, replies, E, s, work, isExtra)
         == Run(Err(Runtime("评分过程出错: " + CookieMissing("__csrf").msg)), [Slept(BeforeRating)], replies)
  {
  }
}
