/**
 * What the older bot's `run()` guarantees, read off its specification `DailyBot.BotRun`: the order of its
 * steps, which failures end the run, and that every unrated work of an incomplete batch goes to the signer.
 */
module DailyFacts {
  import opened Common
  import opened Json
  import opened Env
  import opened Signer
  import opened SignerFacts
  import opened DailyBot
  import Extra
  import LegacyExtra

  /** The account is checked first; a failed check ends the run with `False` after that one request. */
  lemma UserFirst(fixed: Fixed, replies: seq<Reply>, drawn: nat)
    ensures var o := BotRun(fixed, replies, drawn);
      && |o.events| > 0 && o.events[0] == Exchanged(Get(UserInfoUrl), Next(replies))
      && (UserCheck(Next(replies)).Err? ==> !o.ok && |o.events| == 1 && o.left == Rest(replies) && o.drawn == drawn)
      && (UserCheck(Next(replies)).Ok? ==>
            |o.events| > 1 && o.events[1] == Exchanged(Get(DailyTaskUrl), Next(Rest(replies))))
  {
    var user := [Exchanged(Get(UserInfoUrl), Next(replies))];
    if UserCheck(Next(replies)).Ok? {
      var fetch := [Exchanged(Get(DailyTaskUrl), Next(Rest(replies)))];
      var o := BotDaily(fixed, Rest(replies), drawn);
      assert o.events[..1] == fetch;
      assert (user + o.events)[1] == o.events[0];
    }
  }

  /** A complete batch is not rated: the run goes straight on to the extra queue. */
  lemma CompleteSkipsRating(fixed: Fixed, taskData: Json, replies: seq<Reply>, drawn: nat)
    ensures BotBatch(fixed, true, taskData, replies, drawn) == BotExtra(fixed, taskData, replies, drawn)
  {
    assert [] + BotExtra(fixed, taskData, replies, drawn).events == BotExtra(fixed, taskData, replies, drawn).events;
  }

  /**
   * The extra queue is always handed `task_data["id"]`, complete batch or not: a batch without an `id` makes
   * the whole run fail, even when there was nothing to rate.
   */
  lemma BatchNeedsId(fixed: Fixed, complete: bool, taskData: Json, replies: seq<Reply>, drawn: nat)
    requires Index(taskData, "id").Err?
    ensures !BotBatch(fixed, complete, taskData, replies, drawn).ok
  {
  }

  /** A dict answer without `data` is a complete batch without an `id`, so the run ends with `False`. */
  lemma NoDataFails(fixed: Fixed, replies: seq<Reply>, drawn: nat)
    requires UserCheck(Next(replies)).Ok?
    requires var reply := Next(Rest(replies)); reply.Body? && reply.json.Obj? && Lookup(reply.json.fields, "data").None?
    ensures !BotRun(fixed, replies, drawn).ok
  {
    NoDataIsComplete(Next(Rest(replies)));
    BatchNeedsId(fixed, true, Obj([]), Rest(Rest(replies)), drawn);
  }

  /** 1 for a work the batch still has to rate, 0 for one marked as completed. */
  function Unrated(task: Json): (n: nat)
    ensures n <= 1
  {
    if Index(task, "completed").Ok? && Truthy(Index(task, "completed").value) then 0 else 1
  }

  function CountUnrated(works: seq<Json>): (n: nat)
    ensures n <= |works|
  {
    if works == [] then 0 else Unrated(works[0]) + CountUnrated(works[1..])
  }

  /** Visiting an unrated work goes through `sign`, which always takes its pause before rating. */
  lemma VisitRates(jar: map<string, string>, E: Cbc.BlockCipher, s: Signer, task: Json, replies: seq<Reply>)
    ensures var run := Visit(jar, E, s, task, replies);
      run.outcome.Ok? ==> Pauses(run.events, BeforeRating) >= Unrated(task)
  {
    if Index(task, "work").Ok? && Index(task, "completed").Ok? && !Truthy(Index(task, "completed").value) {
      SignRunPauses(jar, replies, E, s, Index(task, "work").value, false);
    }
  }

  /**
   * When every visit that goes through rates its work unless it is marked completed, a loop that goes
   * through rates every unrated work it meets.
   */
  lemma {:induction false} DailyRatesAll(visit: Visiting, works: seq<Json>, i: nat, replies: seq<Reply>)
    requires i <= |works|
    requires forall task, rs :: visit(task, rs).outcome.Ok? ==> Pauses(visit(task, rs).events, BeforeRating) >= Unrated(task)
    ensures var run := DailyFrom(visit, works, i, replies);
      run.outcome.Ok? ==> Pauses(run.events, BeforeRating) >= CountUnrated(works[i..])
    decreases |works| - i
  {
    if i < |works| {
      var done := visit(works[i], replies);
      DailyStep(visit, works, i, replies);
      if done.outcome.Ok? {
        var rest := DailyFrom(visit, works, i + 1, done.left);
        DailyRatesAll(visit, works, i + 1, done.left);
        assert works[i..][1..] == works[i + 1..];
        PausesAppend(done.events, rest.events, BeforeRating);
      }
    }
  }

  /** The request `sign(task["work"])` posts with the batch's signer, when it can be built. */
  function TaskRequest(jar: map<string, string>, E: Cbc.BlockCipher, s: Signer, task: Json): Result<Request> {
    match Index(task, "work")
    case Err(e) => Err(e)
    case Ok(work) => RatingRequest(jar, E, s, work, false)
  }

  /** Visiting an unrated work that goes through has posted that work's rating request. */
  lemma VisitSends(jar: map<string, string>, E: Cbc.BlockCipher, s: Signer, task: Json, replies: seq<Reply>)
    ensures var run := Visit(jar, E, s, task, replies);
      run.outcome.Ok? && Unrated(task) == 1 ==>
        TaskRequest(jar, E, s, task).Ok? && TaskRequest(jar, E, s, task).value in Requests(run.events)
  {
    if Index(task, "work").Ok? && Index(task, "completed").Ok? && !Truthy(Index(task, "completed").value) {
      SignRunSends(jar, replies, E, s, Index(task, "work").value, false);
    }
  }

  /**
   * When every visit that goes through has posted the request wanted for its work unless the work is marked
   * completed, a loop that goes through has posted the wanted request of every unrated work it meets.
   */
  lemma {:induction false} DailySendsAll(visit: Visiting, wanted: Json -> Result<Request>, works: seq<Json>, i: nat,
                                         replies: seq<Reply>)
    requires i <= |works|
    requires forall task, rs :: visit(task, rs).outcome.Ok? && Unrated(task) == 1 ==>
      wanted(task).Ok? && wanted(task).value in Requests(visit(task, rs).events)
    ensures var run := DailyFrom(visit, works, i, replies);
      run.outcome.Ok? ==> forall j :: i <= j < |works| && Unrated(works[j]) == 1 ==>
        wanted(works[j]).Ok? && wanted(works[j]).value in Requests(run.events)
    decreases |works| - i
  {
    if i < |works| {
      var done := visit(works[i], replies);
      DailyStep(visit, works, i, replies);
      if done.outcome.Ok? {
        var rest := DailyFrom(visit, works, i + 1, done.left);
        DailySendsAll(visit, wanted, works, i + 1, done.left);
        RequestsAppend(done.events, rest.events);
        if rest.outcome.Ok? {
          var sent := Requests(DailyFrom(visit, works, i, replies).events);
          assert sent == Requests(done.events) + Requests(rest.events);
          forall j | i <= j < |works| && Unrated(works[j]) == 1
            ensures wanted(works[j]).Ok? && wanted(works[j]).value in sent
          {
            if j > i {
              assert wanted(works[j]).value in Requests(rest.events);
            }
          }
        }
      }
    }
  }

  /** No isolation in the batch: the error that ends the loop is the unchanged error of one of its works. */
  lemma {:induction false} DailyAbort(visit: Visiting, works: seq<Json>, i: nat, replies: seq<Reply>)
    requires i <= |works|
    ensures var run := DailyFrom(visit, works, i, replies);
      run.outcome.Err? ==> exists j, rs :: i <= j < |works| && visit(works[j], rs).outcome == run.outcome
    decreases |works| - i
  {
    if i < |works| {
      var done := visit(works[i], replies);
      DailyStep(visit, works, i, replies);
      if done.outcome.Ok? {
        DailyAbort(visit, works, i + 1, done.left);
      } else {
        assert visit(works[i], replies).outcome == DailyFrom(visit, works, i, replies).outcome;
      }
    }
  }

  /**
   * A batch that goes through has sent every work not marked as completed to the signer: the rating request
   * of each such work, built with the batch's signer, was posted, and there were at least as many pre-rating
   * pauses as such works.
   */
  lemma BatchRated(fixed: Fixed, taskData: Json, replies: seq<Reply>, drawn: nat)
    requires Index(taskData, "id").Ok? && Iterate(GetOr(taskData, "works", Arr([])).value).Ok?
    ensures var item := DailyRun(fixed, taskData, replies, drawn);
      item.outcome.Ok? ==> Pauses(item.events, BeforeRating) >= CountUnrated(Iterate(GetOr(taskData, "works", Arr([])).value).value)
    ensures var items := Iterate(GetOr(taskData, "works", Arr([])).value).value;
      var s := Signer(Index(taskData, "id").value, RandomString(fixed.rng, drawn, 16));
      var item := DailyRun(fixed, taskData, replies, drawn);
      item.outcome.Ok? ==> forall j :: 0 <= j < |items| && Unrated(items[j]) == 1 ==>
        TaskRequest(fixed.jar, fixed.E, s, items[j]).Ok?
        && TaskRequest(fixed.jar, fixed.E, s, items[j]).value in Requests(item.events)
  {
    var items := Iterate(GetOr(taskData, "works", Arr([])).value).value;
    var s := Signer(Index(taskData, "id").value, RandomString(fixed.rng, drawn, 16));
    var visit := Visitor(fixed.jar, fixed.E, s);
    forall task, rs ensures visit(task, rs).outcome.Ok? ==> Pauses(visit(task, rs).events, BeforeRating) >= Unrated(task) {
      VisitRates(fixed.jar, fixed.E, s, task, rs);
    }
    DailyRatesAll(visit, items, 0, replies);
    assert items[0..] == items;
    var wanted := (task: Json) => TaskRequest(fixed.jar, fixed.E, s, task);
    forall task, rs | visit(task, rs).outcome.Ok? && Unrated(task) == 1
      ensures wanted(task).Ok? && wanted(task).value in Requests(visit(task, rs).events)
    {
      VisitSends(fixed.jar, fixed.E, s, task, rs);
    }
    DailySendsAll(visit, wanted, items, 0, replies);
  }

  /** An account answer with a profile. */
  const AccountOk := Body(Obj([Field("profile", Obj([Field("nickname", Str("listener"))]))]))

  /** A batch answer with an `id` and no counts, hence complete. */
  const BatchDone := Body(Obj([Field("data", Obj([Field("id", Num(1))]))]))

  /** An extra-queue answer with nothing waiting. */
  const QueueEmpty := Body(Obj([Field("code", Num(200)), Field("data", Arr([]))]))

  /** The extra stage of the witness run: one list request, nothing to rate. */
  lemma EmptyQueueRun(fixed: Fixed, drawn: nat)
    ensures var o := BotExtra(fixed, Obj([Field("id", Num(1))]), [QueueEmpty], drawn);
      o.ok && o.events == [Exchanged(Get(ExtraListUrl), QueueEmpty)] && o.left == []
  {
    assert Index(Obj([Field("id", Num(1))]), "id") == Ok(Num(1));
    assert LegacyExtra.LegacyList(QueueEmpty) == Ok(([], 0));
  }

  /** The run of the witness after the account check. */
  lemma CompleteBatchRun(fixed: Fixed, drawn: nat)
    ensures var o := BotDaily(fixed, [BatchDone, QueueEmpty], drawn);
      o.ok && o.events == [Exchanged(Get(DailyTaskUrl), BatchDone), Exchanged(Get(ExtraListUrl), QueueEmpty)]
  {
    var data := Obj([Field("id", Num(1))]);
    assert DailyStatus(BatchDone) == Ok((true, data));
    assert Rest([BatchDone, QueueEmpty]) == [QueueEmpty];
    EmptyQueueRun(fixed, drawn);
    CompleteSkipsRating(fixed, data, [QueueEmpty], drawn);
  }

  /**
   * The arity slip changes the result of a run: with a valid account, a complete batch and an empty extra
   * queue, the run with the constructor calls completed returns `True` after three requests, and the run as
   * written returns `False`.
   */
  lemma AritySlip(fixed: Fixed, drawn: nat)
    ensures var replies := [AccountOk, BatchDone, QueueEmpty];
      && BotRun(fixed, replies, drawn).ok
      && BotRun(fixed, replies, drawn).events
         == [Exchanged(Get(UserInfoUrl), AccountOk), Exchanged(Get(DailyTaskUrl), BatchDone),
             Exchanged(Get(ExtraListUrl), QueueEmpty)]
      && !BotRunAsWritten(fixed, replies, drawn).ok
  {
    CompletedRun(fixed, [AccountOk, BatchDone, QueueEmpty], drawn);
    AsWrittenRun(fixed, drawn);
  }

  lemma CompletedRun(fixed: Fixed, replies: seq<Reply>, drawn: nat)
    requires replies == [AccountOk, BatchDone, QueueEmpty]
    ensures BotRun(fixed, replies, drawn).ok
    ensures BotRun(fixed, replies, drawn).events
         == [Exchanged(Get(UserInfoUrl), AccountOk), Exchanged(Get(DailyTaskUrl), BatchDone),
             Exchanged(Get(ExtraListUrl), QueueEmpty)]
  {
    assert Next(replies) == AccountOk && UserCheck(AccountOk).Ok?;
    assert Rest(replies) == [BatchDone, QueueEmpty];
    CompleteBatchRun(fixed, drawn);
  }

  lemma AsWrittenRun(fixed: Fixed, drawn: nat)
    ensures !BotRunAsWritten(fixed, [AccountOk, BatchDone, QueueEmpty], drawn).ok
  {
    var replies := [AccountOk, BatchDone, QueueEmpty];
    assert UserCheck(AccountOk).Ok?;
    assert Rest(replies) == [BatchDone, QueueEmpty];
  }

  /**
   * The stages after the batch fetch raise nothing: an incomplete batch is rated through, the batch has an `id`,
   * and the older extra engine, whose reporting signer draws its seed after the batch's, goes through.
   */
  predicate BatchAndLegacyPass(fixed: Fixed, complete: bool, taskData: Json, replies: seq<Reply>, drawn: nat) {
    && BatchItem(fixed, complete, taskData, replies, drawn).outcome.Ok?
    && LegacyPasses(fixed, taskData, BatchItem(fixed, complete, taskData, replies, drawn).left,
                    BatchItem(fixed, complete, taskData, replies, drawn).drawn)
  }

  /** The extra stage after the batch's rating: the batch has an `id`, and the older extra engine goes through. */
  predicate LegacyPasses(fixed: Fixed, taskData: Json, replies: seq<Reply>, drawn: nat) {
    && Index(taskData, "id").Ok?
    && LegacyExtra.LegacyRun(fixed, Extra.ExtraTask(Signer(Str(""), RandomString(fixed.rng, drawn, 16))),
                             Index(taskData, "id").value, replies, drawn + 16).outcome.Ok?
  }

  // One stage of `run()` at a time; BotRunOk chains them.

  lemma BotOkIff(fixed: Fixed, replies: seq<Reply>, drawn: nat)
    ensures BotRun(fixed, replies, drawn).ok <==> UserCheck(Next(replies)).Ok? && BotDaily(fixed, Rest(replies), drawn).ok
  {
  }

  lemma BotDailyOkIff(fixed: Fixed, replies: seq<Reply>, drawn: nat)
    ensures var status := DailyStatus(Next(replies));
      BotDaily(fixed, replies, drawn).ok <==>
      status.Ok? && BotBatch(fixed, status.value.0, status.value.1, Rest(replies), drawn).ok
  {
  }

  lemma BotBatchOkIff(fixed: Fixed, complete: bool, taskData: Json, replies: seq<Reply>, drawn: nat)
    ensures var daily := BatchItem(fixed, complete, taskData, replies, drawn);
      BotBatch(fixed, complete, taskData, replies, drawn).ok <==>
      daily.outcome.Ok? && BotExtra(fixed, taskData, daily.left, daily.drawn).ok
  {
  }

  lemma BotExtraOkIff(fixed: Fixed, taskData: Json, replies: seq<Reply>, drawn: nat)
    ensures BotExtra(fixed, taskData, replies, drawn).ok <==> LegacyPasses(fixed, taskData, replies, drawn)
  {
  }

  /** The batch stage and the older extra stage after it go through exactly when none of their steps raises. */
  lemma BotBatchRunOk(fixed: Fixed, complete: bool, taskData: Json, replies: seq<Reply>, drawn: nat)
    ensures BotBatch(fixed, complete, taskData, replies, drawn).ok <==> BatchAndLegacyPass(fixed, complete, taskData, replies, drawn)
  {
    var daily := BatchItem(fixed, complete, taskData, replies, drawn);
    BotBatchOkIff(fixed, complete, taskData, replies, drawn);
    if daily.outcome.Ok? {
      BotExtraOkIff(fixed, taskData, daily.left, daily.drawn);
    }
  }

  /**
   * The corrected `run()` returns True exactly when no stage raised: the account check passes, the batch answer
   * can be read, and the stages after it pass on the answers the first two requests leave. Every exception,
   * from whichever stage, ends the run with False.
   */
  lemma BotRunOk(fixed: Fixed, replies: seq<Reply>, drawn: nat)
    ensures var status := DailyStatus(Next(Rest(replies)));
      BotRun(fixed, replies, drawn).ok <==>
      && UserCheck(Next(replies)).Ok?
      && status.Ok?
      && BatchAndLegacyPass(fixed, status.value.0, status.value.1, Rest(Rest(replies)), drawn)
  {
    var status := DailyStatus(Next(Rest(replies)));
    BotOkIff(fixed, replies, drawn);
    BotDailyOkIff(fixed, Rest(replies), drawn);
    if status.Ok? {
      BotBatchRunOk(fixed, status.value.0, status.value.1, Rest(Rest(replies)), drawn);
    }
  }
}
