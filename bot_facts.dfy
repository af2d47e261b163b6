/** What the current bot's `run()` guarantees, read off its specification `CoreBot.CoreRun`. */
module BotFacts {
  import opened Common
  import opened Json
  import opened Env
  import opened Signer
  import opened Extra
  import opened DailyBot
  import opened CoreBot

  /** Both bots accept the same account answers; only the wording of a refusal differs. */
  lemma ChecksAgree(reply: Reply)
    ensures CoreCheck(reply).Ok? <==> UserCheck(reply).Ok?
    ensures CoreCheck(reply).Err? ==> UserCheck(reply) == Err(Runtime(VerifyFailed))
  {
  }

  /** The account is checked before any batch is fetched; a failed check ends the run after that one request. */
  lemma CoreUserFirst(fixed: Fixed, replies: seq<Reply>, drawn: nat)
    ensures var o := CoreRun(fixed, replies, drawn);
      && |o.events| > 0 && o.events[0] == Exchanged(Get(UserInfoUrl), Next(replies))
      && (CoreCheck(Next(replies)).Err? ==> !o.ok && |o.events| == 1 && o.left == Rest(replies) && o.drawn == drawn)
      && (CoreCheck(Next(replies)).Ok? ==>
            |o.events| > 1 && o.events[1] == Exchanged(Get(DailyTaskUrl), Next(Rest(replies))))
  {
    var user := [Exchanged(Get(UserInfoUrl), Next(replies))];
    if CoreCheck(Next(replies)).Ok? {
      var o := CoreDaily(fixed, Rest(replies), drawn);
      assert (user + o.events)[1] == o.events[0];
    }
  }

  /** A complete batch is not rated: the run goes straight on to the extra queue. */
  lemma CoreCompleteSkipsRating(fixed: Fixed, taskData: Json, replies: seq<Reply>, drawn: nat)
    ensures CoreBatch(fixed, true, taskData, replies, drawn) == CoreExtra(fixed, taskData, replies, drawn)
  {
    assert [] + CoreExtra(fixed, taskData, replies, drawn).events == CoreExtra(fixed, taskData, replies, drawn).events;
  }

  /**
   * The stages after the batch fetch raise nothing: an incomplete batch is rated through, the batch has an `id`,
   * and the extra queue, run by an engine that draws its seed after the batch's, goes through.
   */
  predicate BatchAndExtraPass(fixed: Fixed, complete: bool, taskData: Json, replies: seq<Reply>, drawn: nat) {
    && BatchItem(fixed, complete, taskData, replies, drawn).outcome.Ok?
    && ExtraPasses(fixed, taskData, BatchItem(fixed, complete, taskData, replies, drawn).left,
                   BatchItem(fixed, complete, taskData, replies, drawn).drawn)
  }

  /** The extra stage after the batch's rating: the batch has an `id`, and the extra queue goes through. */
  predicate ExtraPasses(fixed: Fixed, taskData: Json, replies: seq<Reply>, drawn: nat) {
    && Index(taskData, "id").Ok?
    && ExtraRun(fixed, ExtraTask(Signer(Str(""), RandomString(fixed.rng, drawn, 16))),
                Index(taskData, "id").value, replies, drawn + 16).outcome.Ok?
  }

  // One stage of `run()` at a time; CoreRunOk chains them.

  /** At the top: the account check went through and so did the rest of the run. */
  lemma CoreOkIff(fixed: Fixed, replies: seq<Reply>, drawn: nat)
    ensures CoreRun(fixed, replies, drawn).ok <==> CoreCheck(Next(replies)).Ok? && CoreDaily(fixed, Rest(replies), drawn).ok
  {
  }

  /** After the account check: the batch fetch went through and so did the rest of the run. */
  lemma CoreDailyOkIff(fixed: Fixed, replies: seq<Reply>, drawn: nat)
    ensures var status := DailyStatus(Next(replies));
      CoreDaily(fixed, replies, drawn).ok <==>
      status.Ok? && CoreBatch(fixed, status.value.0, status.value.1, Rest(replies), drawn).ok
  {
  }

  /** After the batch fetch: the rating of an incomplete batch went through and so did the extra stage. */
  lemma CoreBatchOkIff(fixed: Fixed, complete: bool, taskData: Json, replies: seq<Reply>, drawn: nat)
    ensures var daily := BatchItem(fixed, complete, taskData, replies, drawn);
      CoreBatch(fixed, complete, taskData, replies, drawn).ok <==>
      daily.outcome.Ok? && CoreExtra(fixed, taskData, daily.left, daily.drawn).ok
  {
  }

  /** The extra stage: reading the batch's `id` and the extra queue both went through. */
  lemma CoreExtraOkIff(fixed: Fixed, taskData: Json, replies: seq<Reply>, drawn: nat)
    ensures CoreExtra(fixed, taskData, replies, drawn).ok <==> ExtraPasses(fixed, taskData, replies, drawn)
  {
  }

  /** The batch stage and the extra stage after it go through exactly when none of their steps raises. */
  lemma CoreBatchRunOk(fixed: Fixed, complete: bool, taskData: Json, replies: seq<Reply>, drawn: nat)
    ensures CoreBatch(fixed, complete, taskData, replies, drawn).ok <==> BatchAndExtraPass(fixed, complete, taskData, replies, drawn)
  {
    var daily := BatchItem(fixed, complete, taskData, replies, drawn);
    CoreBatchOkIff(fixed, complete, taskData, replies, drawn);
    if daily.outcome.Ok? {
      CoreExtraOkIff(fixed, taskData, daily.left, daily.drawn);
    }
  }

  /**
   * `run()` returns True exactly when no stage raised: the account check passes, the batch answer can be read,
   * and the stages after it pass on the answers the first two requests leave.
   */
  lemma CoreRunOk(fixed: Fixed, replies: seq<Reply>, drawn: nat)
    ensures var status := DailyStatus(Next(Rest(replies)));
      CoreRun(fixed, replies, drawn).ok <==>
      && CoreCheck(Next(replies)).Ok?
      && status.Ok?
      && BatchAndExtraPass(fixed, status.value.0, status.value.1, Rest(Rest(replies)), drawn)
  {
    var status := DailyStatus(Next(Rest(replies)));
    CoreOkIff(fixed, replies, drawn);
    CoreDailyOkIff(fixed, Rest(replies), drawn);
    if status.Ok? {
      CoreBatchRunOk(fixed, status.value.0, status.value.1, Rest(Rest(replies)), drawn);
    }
  }
}
