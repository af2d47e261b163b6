/**
 * The older bot (`MusicPartnerBot` of music_partner_bot.py): check the account, fetch the daily batch, rate
 * the works of an incomplete batch, then hand over to the older extra-queue engine; any exception turns the
 * run into `False`.
 */
module DailyBot {
  import opened Common
  import opened Json
  import opened Cbc
  import opened Env
  import opened Signer
  import opened Extra
  import opened LegacyExtra

  // ---------------------------------------------------------------------------------------------
  // _verify_user
  // ---------------------------------------------------------------------------------------------

  const VerifyFailed := "用户验证失败"

  /**
   * `_verify_user()` on the account answer: the account needs a truthy `profile` with a `nickname`; every
   * failure, the decoder's included, becomes RuntimeError("用户验证失败").
   */
  function UserCheck(reply: Reply): (r: Result<()>)
    ensures r.Ok? <==> reply.Body? && reply.json.Obj? && Truthy(GetOr(reply.json, "profile", Null).value)
                       && Index(GetOr(reply.json, "profile", Null).value, "nickname").Ok?
    ensures r.Err? ==> r.exc == Runtime(VerifyFailed)
  {
    match Decode(reply)
    case Err(_) => Err(Runtime(VerifyFailed))
    case Ok(body) =>
      match GetOr(body, "profile", Null)
      case Err(_) => Err(Runtime(VerifyFailed))
      case Ok(profile) =>
        if !Truthy(profile) then Err(Runtime(VerifyFailed))
        else if Index(profile, "nickname").Err? then Err(Runtime(VerifyFailed))
        else Ok(())
  }

  method VerifyUser(world: World) returns (r: Result<()>)
    modifies world`replies, world`trace
    ensures r == UserCheck(Next(old(world.replies)))
    ensures world.trace == old(world.trace) + [Exchanged(Get(UserInfoUrl), Next(old(world.replies)))]
    ensures world.replies == Rest(old(world.replies))
  {
    var reply := world.Send(Get(UserInfoUrl));
    r := UserCheck(reply);
  }

  // ---------------------------------------------------------------------------------------------
  // _get_daily_tasks
  // ---------------------------------------------------------------------------------------------

  /**
   * `_get_daily_tasks()` on the batch answer: the batch is complete when `count == completedCount`, each
   * defaulting to 0, and `data` defaults to an empty dict. Decoding errors are not caught here.
   */
  function DailyStatus(reply: Reply): (r: Result<(bool, Json)>)
    ensures r.Ok? <==> reply.Body? && reply.json.Obj? && GetOr(reply.json, "data", Obj([])).value.Obj?
    ensures r.Ok? ==> var data := GetOr(reply.json, "data", Obj([])).value;
      r.value == (PyEq(GetOr(data, "count", Num(0)).value, GetOr(data, "completedCount", Num(0)).value), data)
  {
    match Decode(reply)
    case Err(e) => Err(e)
    case Ok(body) =>
      match GetOr(body, "data", Obj([]))
      case Err(e) => Err(e)
      case Ok(data) =>
        match GetOr(data, "count", Num(0))
        case Err(e) => Err(e)
        case Ok(count) =>
          match GetOr(data, "completedCount", Num(0))
          case Err(e) => Err(e)
          case Ok(completed) => Ok((PyEq(count, completed), data))
  }

  /** A dict answer without `data` counts as a complete batch. */
  lemma NoDataIsComplete(reply: Reply)
    requires reply.Body? && reply.json.Obj? && Lookup(reply.json.fields, "data").None?
    ensures DailyStatus(reply) == Ok((true, Obj([])))
  {
  }

  method GetDailyTasks(world: World) returns (r: Result<(bool, Json)>)
    modifies world`replies, world`trace
    ensures r == DailyStatus(Next(old(world.replies)))
    ensures world.trace == old(world.trace) + [Exchanged(Get(DailyTaskUrl), Next(old(world.replies)))]
    ensures world.replies == Rest(old(world.replies))
  {
    var reply := world.Send(Get(DailyTaskUrl));
    r := DailyStatus(reply);
  }

  // ---------------------------------------------------------------------------------------------
  // _process_tasks
  // ---------------------------------------------------------------------------------------------

  /** The log line for an already rated work reads `work["name"]`, `work["authorName"]` and `int(task["score"])`. */
  function RatedLog(work: Json, task: Json): (r: Result<()>)
    ensures r.Ok? <==> Index(work, "name").Ok? && Index(work, "authorName").Ok? && Index(task, "score").Ok?
                       && PyInt(Index(task, "score").value).Ok?
  {
    match Index(work, "name")
    case Err(e) => Err(e)
    case Ok(_) =>
      match Index(work, "authorName")
      case Err(e) => Err(e)
      case Ok(_) =>
        match Index(task, "score")
        case Err(e) => Err(e)
        case Ok(score) =>
          match PyInt(score)
          case Err(e) => Err(e)
          case Ok(_) => Ok(())
  }

  /** One work of the batch: a rated one is only logged, any other one is rated with the batch's signer. */
  function Visit(jar: map<string, string>, E: BlockCipher, s: Signer, task: Json, replies: seq<Reply>): (run: Run)
    ensures run.outcome.Ok? ==> Index(task, "work").Ok? && Index(task, "completed").Ok?
    ensures Index(task, "work").Ok? && Index(task, "completed").Ok? && Truthy(Index(task, "completed").value)
            ==> run.events == [] && run.left == replies
  {
    match Index(task, "work")
    case Err(e) => Run(Err(e), [], replies)
    case Ok(work) =>
      match Index(task, "completed")
      case Err(e) => Run(Err(e), [], replies)
      case Ok(completed) =>
        if Truthy(completed) then Run(RatedLog(work, task), [], replies)
        else SignRun(jar, replies, E, s, work, false)
  }

  /** One work as the loop sees it: the answers still to come in, and what visiting the work does. */
  type Visiting = (Json, seq<Reply>) -> Run

  /** The visit of the batch's signer, as one value. */
  function Visitor(jar: map<string, string>, E: BlockCipher, s: Signer): (visit: Visiting)
    ensures forall task, replies :: visit(task, replies) == Visit(jar, E, s, task, replies)
  {
    (task: Json, replies: seq<Reply>) => Visit(jar, E, s, task, replies)
  }

  function After(prefix: seq<Event>, run: Run): (r: Run)
    ensures r.outcome == run.outcome && r.left == run.left && r.events == prefix + run.events
  {
    run.(events := prefix + run.events)
  }

  lemma AfterAfter(a: seq<Event>, b: seq<Event>, run: Run)
    ensures After(a, After(b, run)) == After(a + b, run)
  {
    SeqAssoc(a, b, run.events);
  }

  /** The `for task in works` loop from work `i` on: the first exception leaves the loop. */
  function DailyFrom(visit: Visiting, works: seq<Json>, i: nat, replies: seq<Reply>): (run: Run)
    requires i <= |works|
    decreases |works| - i, 1
  {
    if i == |works| then Run(Ok(()), [], replies) else DailyTurn(visit, works, i, replies)
  }

  /** One turn of the loop, on work `i`, and the rest of the loop after it. */
  function DailyTurn(visit: Visiting, works: seq<Json>, i: nat, replies: seq<Reply>): (run: Run)
    requires i < |works|
    decreases |works| - i, 0
  {
    var done := visit(works[i], replies);
    if done.outcome.Err? then done else After(done.events, DailyFrom(visit, works, i + 1, done.left))
  }

  lemma DailyStep(visit: Visiting, works: seq<Json>, i: nat, replies: seq<Reply>)
    requires i < |works|
    ensures var done := visit(works[i], replies);
      DailyFrom(visit, works, i, replies)
      == if done.outcome.Err? then done else After(done.events, DailyFrom(visit, works, i + 1, done.left))
  {
  }

  /**
   * `_process_tasks(task_data)`: one signer for the batch, built with `task_data["id"]` (read before the seed
   * is drawn), then the works of `task_data.get("works", [])` in order.
   */
  function DailyRun(fixed: Fixed, taskData: Json, replies: seq<Reply>, drawn: nat): (item: Item)
    ensures item.drawn == if Index(taskData, "id").Ok? then drawn + 16 else drawn
  {
    match Index(taskData, "id")
    case Err(e) => Item(Err(e), [], replies, drawn)
    case Ok(id) =>
      var s := Signer(id, RandomString(fixed.rng, drawn, 16));
      match Iterate(GetOr(taskData, "works", Arr([])).value)
      case Err(e) => Item(Err(e), [], replies, drawn + 16)
      case Ok(items) =>
        var run := DailyFrom(Visitor(fixed.jar, fixed.E, s), items, 0, replies);
        Item(run.outcome, run.events, run.left, drawn + 16)
  }

  /** The body of the loop on one work; `visit` is the batch's `Visitor`. */
  method VisitWork(world: World, s: Signer, task: Json, ghost visit: Visiting) returns (r: Result<()>)
    requires forall task, replies {:trigger Visit(world.cookies, world.cipher, s, task, replies)} ::
      visit(task, replies) == Visit(world.cookies, world.cipher, s, task, replies)
    modifies world`replies, world`trace
    ensures var run := visit(task, old(world.replies));
      r == run.outcome && world.trace == old(world.trace) + run.events && world.replies == run.left
  {
    ghost var run := Visit(world.cookies, world.cipher, s, task, world.replies);
    var work := Index(task, "work");
    if work.Err? {
      return Err(work.exc);
    }
    var completed := Index(task, "completed");
    if completed.Err? {
      return Err(completed.exc);
    }
    if Truthy(completed.value) {
      r := RatedLog(work.value, task);
    } else {
      r := Sign(world, s, work.value, false);
    }
  }

  /** The loop over the works of the batch. */
  method VisitWorks(world: World, s: Signer, works: seq<Json>, ghost visit: Visiting) returns (r: Result<()>)
    requires forall task, replies {:trigger Visit(world.cookies, world.cipher, s, task, replies)} ::
      visit(task, replies) == Visit(world.cookies, world.cipher, s, task, replies)
    modifies world`replies, world`trace
    ensures var run := DailyFrom(visit, works, 0, old(world.replies));
      r == run.outcome && world.trace == old(world.trace) + run.events && world.replies == run.left
  {
    ghost var whole := After(world.trace, DailyFrom(visit, works, 0, world.replies));
    var i := 0;
    while i < |works|
      invariant 0 <= i <= |works|
      invariant After(world.trace, DailyFrom(visit, works, i, world.replies)) == whole
      decreases |works| - i
    {
      ghost var before, done := world.trace, visit(works[i], world.replies);
      DailyStep(visit, works, i, world.replies);
      var visited := VisitWork(world, s, works[i], visit);
      if visited.Err? {
        return visited;
      }
      AfterAfter(before, done.events, DailyFrom(visit, works, i + 1, world.replies));
      i := i + 1;
    }
    r := Ok(());
  }

  method ProcessTasks(world: World, taskData: Json) returns (r: Result<()>)
    modifies world`replies, world`trace, world`drawn
    ensures var item := DailyRun(world.Parts(), taskData, old(world.replies), old(world.drawn));
      r == item.outcome && world.trace == old(world.trace) + item.events && world.replies == item.left
      && world.drawn == item.drawn
  {
    var id := Index(taskData, "id");
    if id.Err? {
      return Err(id.exc);
    }
    var s := NewSigner(world, id.value);
    var works := GetOr(taskData, "works", Arr([])).value;
    var items := Iterate(works);
    if items.Err? {
      return Err(items.exc);
    }
    r := VisitWorks(world, s, items.value, Visitor(world.cookies, world.cipher, s));
  }

  // ---------------------------------------------------------------------------------------------
  // run
  // ---------------------------------------------------------------------------------------------

  /** What a whole run returns and does to the world. */
  datatype Outcome = Outcome(ok: bool, events: seq<Event>, left: seq<Reply>, drawn: nat)

  /**
   * `run()`: verify the account, fetch the batch, rate it unless complete, build the older extra engine and
   * run it with `task_data["id"]`. The first exception ends the run with `False`.
   */
  function BotRun(fixed: Fixed, replies: seq<Reply>, drawn: nat): (o: Outcome)
  {
    var user := [Exchanged(Get(UserInfoUrl), Next(replies))];
    if UserCheck(Next(replies)).Err? then Outcome(false, user, Rest(replies), drawn)
    else var o := BotDaily(fixed, Rest(replies), drawn); o.(events := user + o.events)
  }

  /** The run after the account check: fetch the batch and go on with it. */
  function BotDaily(fixed: Fixed, replies: seq<Reply>, drawn: nat): (o: Outcome)
  {
    var fetch := [Exchanged(Get(DailyTaskUrl), Next(replies))];
    match DailyStatus(Next(replies))
    case Err(_) => Outcome(false, fetch, Rest(replies), drawn)
    case Ok((complete, taskData)) =>
      var o := BotBatch(fixed, complete, taskData, Rest(replies), drawn); o.(events := fetch + o.events)
  }

  /** What rating the batch does: nothing for a complete batch, `_process_tasks` otherwise. */
  function BatchItem(fixed: Fixed, complete: bool, taskData: Json, replies: seq<Reply>, drawn: nat): Item {
    if complete then Item(Ok(()), [], replies, drawn) else DailyRun(fixed, taskData, replies, drawn)
  }

  /** The batch is rated unless complete, then the extra queue is run. */
  function BotBatch(fixed: Fixed, complete: bool, taskData: Json, replies: seq<Reply>, drawn: nat): (o: Outcome)
  {
    var daily := BatchItem(fixed, complete, taskData, replies, drawn);
    if daily.outcome.Err? then Outcome(false, daily.events, daily.left, daily.drawn)
    else var o := BotExtra(fixed, taskData, daily.left, daily.drawn); o.(events := daily.events + o.events)
  }

  /** The run after the batch: a new older extra engine, run with the batch's `id`. */
  function BotExtra(fixed: Fixed, taskData: Json, replies: seq<Reply>, drawn: nat): (o: Outcome)
  {
    var t := ExtraTask(Signer(Str(""), RandomString(fixed.rng, drawn, 16)));
    match Index(taskData, "id")
    case Err(_) => Outcome(false, [], replies, drawn + 16)
    case Ok(id) =>
      var extra := LegacyRun(fixed, t, id, replies, drawn + 16);
      Outcome(extra.outcome.Ok?, extra.events, extra.left, extra.drawn)
  }

  /**
   * `run()` as written: both constructor calls after the batch fetch pass one argument too few. An incomplete
   * batch builds `Signer(session, task_data["id"], logger)` and a complete one `ExtraTask(session, logger)`, and
   * both classes require a `config` argument, so either call raises TypeError before it sends or draws
   * anything. `BotRun` models the run with the calls completed.
   */
  function BotRunAsWritten(fixed: Fixed, replies: seq<Reply>, drawn: nat): (o: Outcome)
    ensures !o.ok && o.drawn == drawn
    ensures 1 <= |o.events| <= 2 && o.events[0] == Exchanged(Get(UserInfoUrl), Next(replies))
  {
    var user := [Exchanged(Get(UserInfoUrl), Next(replies))];
    if UserCheck(Next(replies)).Err? then Outcome(false, user, Rest(replies), drawn)
    else Outcome(false, user + [Exchanged(Get(DailyTaskUrl), Next(Rest(replies)))], Rest(Rest(replies)), drawn)
  }

  method RunBot(world: World) returns (ok: bool)
    modifies world`replies, world`trace, world`drawn
    ensures var o := BotRun(world.Parts(), old(world.replies), old(world.drawn));
      ok == o.ok && world.trace == old(world.trace) + o.events && world.replies == o.left && world.drawn == o.drawn
  {
    ghost var trace0 := world.trace;
    var user := VerifyUser(world);
    if user.Err? {
      return false;
    }
    ghost var trace1 := world.trace;
    ok := RunDaily(world);
    SeqAssoc(trace0, trace1[|trace0|..], world.trace[|trace1|..]);
  }

  method RunDaily(world: World) returns (ok: bool)
    modifies world`replies, world`trace, world`drawn
    ensures var o := BotDaily(world.Parts(), old(world.replies), old(world.drawn));
      ok == o.ok && world.trace == old(world.trace) + o.events && world.replies == o.left && world.drawn == o.drawn
  {
    ghost var trace0 := world.trace;
    var fetched := GetDailyTasks(world);
    if fetched.Err? {
      return false;
    }
    var (complete, taskData) := fetched.value;
    ghost var trace1 := world.trace;
    ok := RunBatch(world, complete, taskData);
    SeqAssoc(trace0, trace1[|trace0|..], world.trace[|trace1|..]);
  }

  method RunBatch(world: World, complete: bool, taskData: Json) returns (ok: bool)
    modifies world`replies, world`trace, world`drawn
    ensures var o := BotBatch(world.Parts(), complete, taskData, old(world.replies), old(world.drawn));
      ok == o.ok && world.trace == old(world.trace) + o.events && world.replies == o.left && world.drawn == o.drawn
  {
    ghost var trace0 := world.trace;
    ghost var daily := BatchItem(world.Parts(), complete, taskData, world.replies, world.drawn);
    if !complete {
      var done := ProcessTasks(world, taskData);
      if done.Err? {
        return false;
      }
    }
    assert daily.outcome.Ok? && world.trace == trace0 + daily.events && world.replies == daily.left && world.drawn == daily.drawn;
    ghost var trace1 := world.trace;
    ok := RunExtra(world, taskData);
    SeqAssoc(trace0, trace1[|trace0|..], world.trace[|trace1|..]);
  }

  /** With an `id`, the extra stage is the older engine's run, its outcome turned into True or False. */
  lemma BotExtraRuns(fixed: Fixed, taskData: Json, replies: seq<Reply>, drawn: nat)
    requires Index(taskData, "id").Ok?
    ensures var s := LegacyRun(fixed, ExtraTask(Signer(Str(""), RandomString(fixed.rng, drawn, 16))),
                               Index(taskData, "id").value, replies, drawn + 16);
      BotExtra(fixed, taskData, replies, drawn) == Outcome(s.outcome.Ok?, s.events, s.left, s.drawn)
  {
  }

  method RunExtra(world: World, taskData: Json) returns (ok: bool)
    modifies world`replies, world`trace, world`drawn
    ensures var o := BotExtra(world.Parts(), taskData, old(world.replies), old(world.drawn));
      ok == o.ok && world.trace == old(world.trace) + o.events && world.replies == o.left && world.drawn == o.drawn
  {
    ghost var fixed, replies0, drawn0 := world.Parts(), world.replies, world.drawn;
    var t := NewExtraTask(world);
    var id := Index(taskData, "id");
    if id.Err? {
      return false;
    }
    BotExtraRuns(fixed, taskData, replies0, drawn0);
    var extra := LegacyProcessExtraTasks(world, t, id.value);
    ok := extra.Ok?;
  }
}
