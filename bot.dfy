/**
 * The current bot (`MusicPartnerBot` of src/core/bot.py): the same steps as the older one, with the current
 * extra-queue engine and a different wording of the account check's failure. The daily batch is handled by a
 * module that is not part of this model; the older bot's batch handling (`DailyBot`) stands in for it.
 */
module CoreBot {
  import opened Common
  import opened Json
  import opened Env
  import opened Signer
  import opened Extra
  import opened DailyBot

  const VerifyPrefix := "验证用户信息失败: "
  const NoProfile := "获取用户信息失败"

  /**
   * `_verify_user()` on the account answer: a truthy `profile` with a `nickname` passes; a missing or falsy
   * one raises RuntimeError("获取用户信息失败"); whatever is raised is re-raised as a RuntimeError whose text
   * is "验证用户信息失败: " followed by the text of the original.
   */
  function CoreCheck(reply: Reply): (r: Result<()>)
    ensures r.Ok? <==> reply.Body? && reply.json.Obj? && Truthy(GetOr(reply.json, "profile", Null).value)
                       && Index(GetOr(reply.json, "profile", Null).value, "nickname").Ok?
    ensures r.Err? ==> r.exc.kind == RuntimeError && StartsWith(r.exc.msg, VerifyPrefix)
    ensures reply.Body? && reply.json.Obj? && !Truthy(GetOr(reply.json, "profile", Null).value)
            ==> r == Err(Runtime(VerifyPrefix + NoProfile))
  {
    var wrapped := (e: Exc) => Err(Runtime(VerifyPrefix + e.msg));
    match Decode(reply)
    case Err(e) => wrapped(e)
    case Ok(body) =>
      match GetOr(body, "profile", Null)
      case Err(e) => wrapped(e)
      case Ok(profile) =>
        if !Truthy(profile) then wrapped(Runtime(NoProfile))
        else match Index(profile, "nickname")
          case Err(e) => wrapped(e)
          case Ok(_) => Ok(())
  }

  method CoreVerifyUser(world: World) returns (r: Result<()>)
    modifies world`replies, world`trace
    ensures r == CoreCheck(Next(old(world.replies)))
    ensures world.trace == old(world.trace) + [Exchanged(Get(UserInfoUrl), Next(old(world.replies)))]
    ensures world.replies == Rest(old(world.replies))
  {
    var reply := world.Send(Get(UserInfoUrl));
    r := CoreCheck(reply);
  }

  /**
   * `run()`: verify the account, fetch the batch, rate it unless complete, build the extra-queue engine and
   * run it with `task_data["id"]`. The first exception ends the run with `False`.
   */
  function CoreRun(fixed: Fixed, replies: seq<Reply>, drawn: nat): (o: Outcome)
  {
    var user := [Exchanged(Get(UserInfoUrl), Next(replies))];
    if CoreCheck(Next(replies)).Err? then Outcome(false, user, Rest(replies), drawn)
    else var o := CoreDaily(fixed, Rest(replies), drawn); o.(events := user + o.events)
  }

  /** The run after the account check: fetch the batch and go on with it. */
  function CoreDaily(fixed: Fixed, replies: seq<Reply>, drawn: nat): (o: Outcome)
  {
    var fetch := [Exchanged(Get(DailyTaskUrl), Next(replies))];
    match DailyStatus(Next(replies))
    case Err(_) => Outcome(false, fetch, Rest(replies), drawn)
    case Ok((complete, taskData)) =>
      var o := CoreBatch(fixed, complete, taskData, Rest(replies), drawn); o.(events := fetch + o.events)
  }

  /** The batch is rated unless complete, then the extra queue is run. */
  function CoreBatch(fixed: Fixed, complete: bool, taskData: Json, replies: seq<Reply>, drawn: nat): (o: Outcome)
  {
    var daily := BatchItem(fixed, complete, taskData, replies, drawn);
    if daily.outcome.Err? then Outcome(false, daily.events, daily.left, daily.drawn)
    else var o := CoreExtra(fixed, taskData, daily.left, daily.drawn); o.(events := daily.events + o.events)
  }

  /** The run after the batch: a new extra-queue engine, run with the batch's `id`. */
  function CoreExtra(fixed: Fixed, taskData: Json, replies: seq<Reply>, drawn: nat): (o: Outcome)
  {
    var t := ExtraTask(Signer(Str(""), RandomString(fixed.rng, drawn, 16)));
    match Index(taskData, "id")
    case Err(_) => Outcome(false, [], replies, drawn + 16)
    case Ok(id) =>
      var extra := ExtraRun(fixed, t, id, replies, drawn + 16);
      Outcome(extra.outcome.Ok?, extra.events, extra.left, extra.drawn)
  }

  method CoreRunBot(world: World) returns (ok: bool)
    modifies world`replies, world`trace, world`drawn
    ensures var o := CoreRun(world.Parts(), old(world.replies), old(world.drawn));
      ok == o.ok && world.trace == old(world.trace) + o.events && world.replies == o.left && world.drawn == o.drawn
  {
    ghost var trace0 := world.trace;
    var user := CoreVerifyUser(world);
    if user.Err? {
      return false;
    }
    ghost var trace1 := world.trace;
    ok := CoreRunDaily(world);
    SeqAssoc(trace0, trace1[|trace0|..], world.trace[|trace1|..]);
  }

  method CoreRunDaily(world: World) returns (ok: bool)
    modifies world`replies, world`trace, world`drawn
    ensures var o := CoreDaily(world.Parts(), old(world.replies), old(world.drawn));
      ok == o.ok && world.trace == old(world.trace) + o.events && world.replies == o.left && world.drawn == o.drawn
  {
    ghost var trace0 := world.trace;
    var fetched := GetDailyTasks(world);
    if fetched.Err? {
      return false;
    }
    var (complete, taskData) := fetched.value;
    ghost var trace1 := world.trace;
    ok := CoreRunBatch(world, complete, taskData);
    SeqAssoc(trace0, trace1[|trace0|..], world.trace[|trace1|..]);
  }

  method CoreRunBatch(world: World, complete: bool, taskData: Json) returns (ok: bool)
    modifies world`replies, world`trace, world`drawn
    ensures var o := CoreBatch(world.Parts(), complete, taskData, old(world.replies), old(world.drawn));
      ok == o.ok && world.trace == old(world.trace) + o.events && world.replies == o.left && world.drawn == o.drawn
  {
    ghost var trace0 := world.trace;
    ghost var daily := BatchItem(world.Parts(), complete, taskData, world.replies, world.drawn);
    if !complete {
      var done := ProcessTasks(world, taskData);
      if done.Err? {
        return false;
      }
    }
    assert daily.outcome.Ok? && world.trace == trace0 + daily.events && world.replies == daily.left && world.drawn == daily.drawn;
    ghost var trace1 := world.trace;
    ok := CoreRunExtra(world, taskData);
    SeqAssoc(trace0, trace1[|trace0|..], world.trace[|trace1|..]);
  }

  method CoreRunExtra(world: World, taskData: Json) returns (ok: bool)
    modifies world`replies, world`trace, world`drawn
    ensures var o := CoreExtra(world.Parts(), taskData, old(world.replies), old(world.drawn));
      ok == o.ok && world.trace == old(world.trace) + o.events && world.replies == o.left && world.drawn == o.drawn
  {
    var t := NewExtraTask(world);
    var id := Index(taskData, "id");
    if id.Err? {
      return false;
    }
    var extra := ProcessExtraTasks(world, t, id.value);
    ok := extra.Ok?;
  }
}
