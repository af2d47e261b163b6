/**
 * The extra-queue engine (`ExtraTask` of src/core/tasks/extra.py): fetch the waiting works, rate at most
 * `7 - completed` of them, report a listen before each rating, and keep going when one item fails.
 */
module Extra {
  import opened Common
  import opened Json
  import opened Cbc
  import opened Env
  import opened Signer

  /** The portal accepts at most seven extra ratings a day. */
  const DailyCap := 7

  /** An engine as constructed: its own signer, with an empty task id, encrypts the listening reports. */
  datatype ExtraTask = ExtraTask(reporter: Signer)

  /** `ExtraTask(session, logger, config)`: building the reporting signer draws its seed. */
  method NewExtraTask(world: World) returns (t: ExtraTask)
    modifies world`drawn
    ensures t == ExtraTask(Signer(Str(""), RandomString(world.rng, old(world.drawn), 16)))
    ensures world.drawn == old(world.drawn) + 16
  {
    var s := NewSigner(world, Str(""));
    t := ExtraTask(s);
  }

  // ---------------------------------------------------------------------------------------------
  // _get_extra_tasks
  // ---------------------------------------------------------------------------------------------

  /** `t['completed']`, read as a condition. */
  function Completed(t: Json): Result<bool> {
    match Index(t, "completed")
    case Err(e) => Err(e)
    case Ok(c) => Ok(Truthy(c))
  }

  /**
   * The two comprehensions `[t for t in items if t['completed']]` and `[... if not t['completed']]`.
   * The first one reads every flag, so the first item whose flag cannot be read raises.
   */
  function Partition(items: seq<Json>): (r: Result<(seq<Json>, seq<Json>)>)
  {
    if items == [] then Ok(([], []))
    else
      match Completed(items[0])
      case Err(e) => Err(e)
      case Ok(c) =>
        match Partition(items[1..])
        case Err(e) => Err(e)
        case Ok((done, pending)) =>
          if c then Ok(([items[0]] + done, pending)) else Ok((done, [items[0]] + pending))
  }

  /** The split succeeds exactly when every flag can be read; otherwise it raises the first unreadable flag's error. */
  lemma {:induction false} PartitionFails(items: seq<Json>)
    ensures Partition(items).Ok? <==> forall i :: 0 <= i < |items| ==> Completed(items[i]).Ok?
    ensures Partition(items).Err? ==> exists i :: 0 <= i < |items| && Completed(items[i]) == Err(Partition(items).exc)
                                               && forall j :: 0 <= j < i ==> Completed(items[j]).Ok?
    decreases |items|
  {
    if items != [] {
      var rest := items[1..];
      PartitionFails(rest);
      assert forall j :: 1 <= j < |items| ==> items[j] == rest[j - 1];
      if Completed(items[0]).Err? {
        assert Completed(items[0]) == Err(Partition(items).exc);
      } else if Partition(rest).Err? {
        var i :| 0 <= i < |rest| && Completed(rest[i]) == Err(Partition(rest).exc)
                 && forall j :: 0 <= j < i ==> Completed(rest[j]).Ok?;
        assert Completed(items[i + 1]) == Err(Partition(items).exc);
      }
    }
  }

  /** A successful split loses and adds nothing. */
  lemma {:induction false} PartitionKeeps(items: seq<Json>)
    requires Partition(items).Ok?
    ensures multiset(Partition(items).value.0) + multiset(Partition(items).value.1) == multiset(items)
    decreases |items|
  {
    if items != [] {
      var rest := items[1..];
      PartitionKeeps(rest);
      assert items == [items[0]] + rest;
    }
  }

  /** A successful split puts each item on the side its flag says. */
  lemma {:induction false} PartitionSides(items: seq<Json>)
    requires Partition(items).Ok?
    ensures forall t :: t in Partition(items).value.0 ==> Completed(t) == Ok(true)
    ensures forall t :: t in Partition(items).value.1 ==> Completed(t) == Ok(false)
    decreases |items|
  {
    if items != [] {
      PartitionSides(items[1..]);
    }
  }

  /** `t` put at the front of the side `c` names. */
  function Front(t: Json, c: bool, sides: (seq<Json>, seq<Json>)): (seq<Json>, seq<Json>) {
    if c then ([t] + sides.0, sides.1) else (sides.0, [t] + sides.1)
  }

  /** `t` put at the back of the side `c` names. */
  function Back(sides: (seq<Json>, seq<Json>), t: Json, c: bool): (seq<Json>, seq<Json>) {
    if c then (sides.0 + [t], sides.1) else (sides.0, sides.1 + [t])
  }

  /** One step of the split: the first item goes to the front of its side. */
  lemma PartitionCons(items: seq<Json>)
    requires items != [] && Completed(items[0]).Ok? && Partition(items[1..]).Ok?
    ensures Partition(items) == Ok(Front(items[0], Completed(items[0]).value, Partition(items[1..]).value))
  {
  }

  /** Adding at the front and at the back commute. */
  lemma FrontBack(h: Json, ch: bool, sides: (seq<Json>, seq<Json>), t: Json, c: bool)
    ensures Front(h, ch, Back(sides, t, c)) == Back(Front(h, ch, sides), t, c)
  {
    assert [h] + sides.0 + [t] == [h] + (sides.0 + [t]);
    assert [h] + sides.1 + [t] == [h] + (sides.1 + [t]);
  }

  /** One item put before a list whose split keeps order leaves a list whose split keeps order. */
  lemma PartitionSnocStep(items: seq<Json>, t: Json)
    requires items != [] && Partition(items).Ok? && Completed(t).Ok?
    requires Partition(items[1..] + [t]) == Ok(Back(Partition(items[1..]).value, t, Completed(t).value))
    ensures Partition(items + [t]) == Ok(Back(Partition(items).value, t, Completed(t).value))
  {
    var whole := items + [t];
    assert whole[0] == items[0] && whole[1..] == items[1..] + [t];
    assert Completed(items[0]).Ok? && Partition(items[1..]).Ok?;
    PartitionCons(items);
    PartitionCons(whole);
    FrontBack(items[0], Completed(items[0]).value, Partition(items[1..]).value, t, Completed(t).value);
  }

  /** Both lists keep the order of the response: one more item lands at the end of its list. */
  lemma {:induction false} PartitionSnoc(items: seq<Json>, t: Json)
    requires Partition(items).Ok? && Completed(t).Ok?
    ensures Partition(items + [t]) == Ok(Back(Partition(items).value, t, Completed(t).value))
    decreases |items|
  {
    if items == [] {
      assert items + [t] == [t] && [t][1..] == [];
      assert [t] + [] == [] + [t] == [t];
    } else {
      assert Partition(items[1..]).Ok?;
      PartitionSnoc(items[1..], t);
      PartitionSnocStep(items, t);
    }
  }

  /**
   * `_get_extra_tasks()` on the list response: RuntimeError("获取额外任务失败: ...") when `code` is not 200,
   * otherwise the uncompleted works and the number of completed ones.
   */
  function ExtraList(reply: Reply): (r: Result<(seq<Json>, nat)>)
    ensures r.Ok? ==> reply.Body? && Index(reply.json, "code").Ok? && PyEq(Index(reply.json, "code").value, Num(200))
    ensures reply.Body? && Index(reply.json, "code").Ok? && !PyEq(Index(reply.json, "code").value, Num(200))
            ==> r.Err? && r.exc.kind == RuntimeError && StartsWith(r.exc.msg, "获取额外任务失败: ")
    ensures r.Ok? ==> Index(reply.json, "data").Ok? && Iterate(Index(reply.json, "data").value).Ok?
    ensures r.Ok? ==> var items := Iterate(Index(reply.json, "data").value).value;
      Partition(items).Ok? && r.value == (Partition(items).value.1, |Partition(items).value.0|)
    ensures reply.Body? && Index(reply.json, "code").Ok? && PyEq(Index(reply.json, "code").value, Num(200))
            && Index(reply.json, "data").Ok? && Iterate(Index(reply.json, "data").value).Ok?
            && Partition(Iterate(Index(reply.json, "data").value).value).Ok?
            ==> r.Ok?
  {
    match Decode(reply)
    case Err(e) => Err(e)
    case Ok(body) =>
      match Index(body, "code")
      case Err(e) => Err(e)
      case Ok(code) =>
        if !PyEq(code, Num(200)) then
          var msg := "获取额外任务失败: " + PyStr(GetOr(body, "message", Str(DefaultMsg)).value);
          assert msg[..|"获取额外任务失败: "|] == "获取额外任务失败: ";
          Err(Runtime(msg))
        else
          match Index(body, "data")
          case Err(e) => Err(e)
          case Ok(data) =>
            match Iterate(data)
            case Err(e) => Err(e)
            case Ok(items) =>
              match Partition(items)
              case Err(e) => Err(e)
              case Ok((done, pending)) => Ok((pending, |done|))
  }

  method GetExtraTasks(world: World) returns (r: Result<(seq<Json>, nat)>)
    modifies world`replies, world`trace
    ensures r == ExtraList(Next(old(world.replies)))
    ensures world.trace == old(world.trace) + [Exchanged(Get(ExtraListUrl), Next(old(world.replies)))]
    ensures world.replies == Rest(old(world.replies))
  {
    var reply := world.Send(Get(ExtraListUrl));
    r := ExtraList(reply);
  }

  // ---------------------------------------------------------------------------------------------
  // _report_listen
  // ---------------------------------------------------------------------------------------------

  /** The five fields of a listening report, in the order the dict literal lists them. */
  function ReportFields(workId: Json, resourceId: Json, csrf: string): seq<Field> {
    [Field("workId", workId), Field("resourceId", resourceId), Field("bizResourceId", Str("")),
     Field("interactType", Str("PLAY_END")), Field("csrf_token", Str(csrf))]
  }

  /**
   * The report POST, encrypted by the engine's own signer, or the error raised while building it: the
   * cookie is read first, then the work's `id`, then its `resourceId`.
   */
  function ReportRequest(jar: map<string, string>, reporter: Signer, work: Json): (r: Result<Request>)
    ensures r.Ok? <==> "__csrf" in jar && Index(work, "id").Ok? && Index(work, "resourceId").Ok?
    ensures "__csrf" !in jar ==> r == Err(CookieMissing("__csrf"))
    ensures "__csrf" in jar && Index(work, "id").Err? ==> r == Err(Index(work, "id").exc)
    ensures r.Ok? ==> r.value.Post? && r.value.url == ReportUrl + "?csrf_token=" + jar["__csrf"]
                      && r.value.seed == reporter.seed
                      && r.value.payload == Obj(ReportFields(Index(work, "id").value, Index(work, "resourceId").value, jar["__csrf"]))
  {
    if "__csrf" !in jar then Err(CookieMissing("__csrf"))
    else
      var csrf := jar["__csrf"];
      match Index(work, "id")
      case Err(e) => Err(e)
      case Ok(id) =>
        match Index(work, "resourceId")
        case Err(e) => Err(e)
        case Ok(resourceId) =>
          Ok(Post(ReportUrl + "?csrf_token=" + csrf, Obj(ReportFields(id, resourceId, csrf)), reporter.seed))
  }

  /**
   * How the report's answer is read: `code` other than 200 raises RuntimeError("上报听歌记录失败: ...");
   * on success the log line still reads `work['name']`.
   */
  function ReportOutcome(reply: Reply, work: Json): (r: Result<()>)
    ensures r.Ok? <==> reply.Body? && Index(reply.json, "code").Ok? && PyEq(Index(reply.json, "code").value, Num(200))
                       && Index(work, "name").Ok?
    ensures reply.Body? && Index(reply.json, "code").Ok? && !PyEq(Index(reply.json, "code").value, Num(200))
            ==> r.Err? && r.exc.kind == RuntimeError && StartsWith(r.exc.msg, "上报听歌记录失败: ")
  {
    match Decode(reply)
    case Err(e) => Err(e)
    case Ok(body) =>
      match Index(body, "code")
      case Err(e) => Err(e)
      case Ok(code) =>
        if !PyEq(code, Num(200)) then
          var msg := "上报听歌记录失败: " + PyStr(GetOr(body, "message", Str(DefaultMsg)).value);
          assert msg[..|"上报听歌记录失败: "|] == "上报听歌记录失败: ";
          Err(Runtime(msg))
        else
          match Index(work, "name")
          case Err(e) => Err(e)
          case Ok(_) => Ok(())
  }

  /** `_report_listen(work)` against the portal's next replies: nothing is sent when the request cannot be built. */
  function ReportRun(fixed: Fixed, reporter: Signer, work: Json, replies: seq<Reply>): (run: Run)
    ensures |run.events| <= 1 && (run.outcome.Ok? ==> |run.events| == 1)
  {
    match ReportRequest(fixed.jar, reporter, work)
    case Err(e) => Run(Err(e), [], replies)
    case Ok(request) => Run(ReportOutcome(Next(replies), work), [Exchanged(request, Next(replies))], Rest(replies))
  }

  method ReportListen(world: World, t: ExtraTask, work: Json) returns (r: Result<()>)
    modifies world`replies, world`trace
    ensures var run := ReportRun(world.Parts(), t.reporter, work, old(world.replies));
      r == run.outcome && world.trace == old(world.trace) + run.events && world.replies == run.left
  {
    if "__csrf" !in world.cookies {
      return Err(CookieMissing("__csrf"));
    }
    var csrf := world.cookies["__csrf"];
    var id := Index(work, "id");
    if id.Err? {
      return Err(id.exc);
    }
    var resourceId := Index(work, "resourceId");
    if resourceId.Err? {
      return Err(resourceId.exc);
    }
    var data := Obj(ReportFields(id.value, resourceId.value, csrf));
    var request := Post(ReportUrl + "?csrf_token=" + csrf, data, t.reporter.seed);
    var reply := world.Send(request);
    r := ReportOutcome(reply, work);
  }

  // ---------------------------------------------------------------------------------------------
  // _process_single_task
  // ---------------------------------------------------------------------------------------------

  /** `task['work']['name']`, read before each item and again by the failure handler. */
  function WorkName(task: Json): (r: Result<Json>)
    ensures r.Ok? ==> Index(task, "work").Ok? && Index(Index(task, "work").value, "name").Ok?
  {
    match Index(task, "work")
    case Err(e) => Err(e)
    case Ok(work) => Index(work, "name")
  }

  /** The handler logs `work['name']` before re-raising: without a name, that KeyError is what escapes. */
  function Blame(work: Json, e: Exc): (r: Exc)
    ensures Index(work, "name").Ok? ==> r == e
  {
    match Index(work, "name")
    case Err(e2) => e2
    case Ok(_) => e
  }

  /** What one item does to the world: its outcome, events, unread replies and the random draws used so far. */
  datatype Item = Item(outcome: Result<()>, events: seq<Event>, left: seq<Reply>, drawn: nat)

  /** `_process_single_task(task, task_id)`: report the listen, then rate with a fresh signer for the task. */
  function SingleRun(fixed: Fixed, t: ExtraTask, taskId: Json, task: Json, replies: seq<Reply>, drawn: nat): (item: Item)
    ensures item.drawn == drawn || item.drawn == drawn + 16
  {
    match Index(task, "work")
    case Err(e) => Item(Err(e), [], replies, drawn)
    case Ok(work) =>
      var report := ReportRun(fixed, t.reporter, work, replies);
      if report.outcome.Err? then Item(Err(Blame(work, report.outcome.exc)), report.events, report.left, drawn)
      else
        var rated := RateItem(fixed, taskId, work, report.left, drawn);
        Item(rated.outcome, report.events + rated.events, rated.left, rated.drawn)
  }

  /** The rating half of an item: a fresh signer for the task, then `sign(work, True)`. */
  function RateItem(fixed: Fixed, taskId: Json, work: Json, replies: seq<Reply>, drawn: nat): (item: Item)
    ensures item.drawn == drawn + 16
  {
    var s := Signer(taskId, RandomString(fixed.rng, drawn, 16));
    var run := SignRun(fixed.jar, replies, fixed.E, s, work, true);
    Item(if run.outcome.Ok? then Ok(()) else Err(Blame(work, run.outcome.exc)), run.events, run.left, drawn + 16)
  }

  method RateWork(world: World, taskId: Json, work: Json) returns (r: Result<()>)
    modifies world`replies, world`trace, world`drawn
    ensures var item := RateItem(world.Parts(), taskId, work, old(world.replies), old(world.drawn));
      r == item.outcome && world.trace == old(world.trace) + item.events && world.replies == item.left
      && world.drawn == item.drawn
  {
    var s := NewSigner(world, taskId);
    var signed := Sign(world, s, work, true);
    r := if signed.Ok? then Ok(()) else Err(Blame(work, signed.exc));
  }

  method ProcessSingleTask(world: World, t: ExtraTask, task: Json, taskId: Json) returns (r: Result<()>)
    modifies world`replies, world`trace, world`drawn
    ensures var item := SingleRun(world.Parts(), t, taskId, task, old(world.replies), old(world.drawn));
      r == item.outcome && world.trace == old(world.trace) + item.events && world.replies == item.left
      && world.drawn == item.drawn
  {
    ghost var trace0, replies0 := world.trace, world.replies;
    var work := Index(task, "work");
    if work.Err? {
      return Err(work.exc);
    }
    var report := ReportListen(world, t, work.value);
    if report.Err? {
      return Err(Blame(work.value, report.exc));
    }
    ghost var reported := ReportRun(world.Parts(), t.reporter, work.value, replies0);
    r := RateWork(world, taskId, work.value);
    ghost var rated := RateItem(world.Parts(), taskId, work.value, reported.left, old(world.drawn));
    SeqAssoc(trace0, reported.events, rated.events);
  }

  // ---------------------------------------------------------------------------------------------
  // process_extra_tasks
  // ---------------------------------------------------------------------------------------------

  /** What the loop does: the number of successful ratings, or the error that escapes; its events and draws. */
  datatype Sweep = Sweep(outcome: Result<nat>, events: seq<Event>, left: seq<Reply>, drawn: nat)

  function Then(prefix: seq<Event>, s: Sweep): (r: Sweep)
    ensures r.outcome == s.outcome && r.left == s.left && r.drawn == s.drawn && r.events == prefix + s.events
  {
    s.(events := prefix + s.events)
  }

  lemma ThenThen(a: seq<Event>, b: seq<Event>, s: Sweep)
    ensures Then(a, Then(b, s)) == Then(a + b, s)
  {
    SeqAssoc(a, b, s.events);
  }

  /** How one item runs, as a function of the item, the replies still to come and the draws so far. */
  type Step = (Json, seq<Reply>, nat) -> Item

  /** The engine's own way: `_process_single_task(task, task_id)`. */
  function Runner(fixed: Fixed, t: ExtraTask, taskId: Json): (step: Step)
    ensures forall task, replies, drawn :: step(task, replies, drawn) == SingleRun(fixed, t, taskId, task, replies, drawn)
  {
    (task: Json, replies: seq<Reply>, drawn: nat) => SingleRun(fixed, t, taskId, task, replies, drawn)
  }

  /**
   * The `for task in extra_tasks` loop from item `i` on, with `success` ratings so far out of `remaining`:
   * it stops once `remaining` ratings succeeded; an item whose work has no readable name aborts the run (the
   * failure handler reads it again); any other failure is skipped; a success is followed by a pause unless it
   * was the last one needed.
   */
  function SweepFrom(step: Step, tasks: seq<Json>, i: nat, remaining: nat, success: nat, replies: seq<Reply>, drawn: nat): (s: Sweep)
    requires i <= |tasks|
    decreases |tasks| - i, 1
  {
    if i == |tasks| || success >= remaining then Sweep(Ok(success), [], replies, drawn)
    else Turn(step, tasks, i, remaining, success, replies, drawn)
  }

  /** One turn of the loop, on item `i`, and the rest of the loop after it. */
  function Turn(step: Step, tasks: seq<Json>, i: nat, remaining: nat, success: nat, replies: seq<Reply>, drawn: nat): (s: Sweep)
    requires i < |tasks|
    decreases |tasks| - i, 0
  {
    match WorkName(tasks[i])
    case Err(e) => Sweep(Err(e), [], replies, drawn)
    case Ok(_) =>
      var item := step(tasks[i], replies, drawn);
      var next := if item.outcome.Ok? then success + 1 else success;
      var pause := if item.outcome.Ok? && next < remaining then [Slept(BetweenItems)] else [];
      Then(item.events + pause, SweepFrom(step, tasks, i + 1, remaining, next, item.left, item.drawn))
  }

  /** One turn of the loop, for an item whose work has a name. */
  lemma SweepStep(step: Step, tasks: seq<Json>, i: nat, remaining: nat, success: nat, replies: seq<Reply>, drawn: nat)
    requires i < |tasks| && success < remaining && WorkName(tasks[i]).Ok?
    ensures var item := step(tasks[i], replies, drawn);
      var next := if item.outcome.Ok? then success + 1 else success;
      var pause := if item.outcome.Ok? && next < remaining then [Slept(BetweenItems)] else [];
      SweepFrom(step, tasks, i, remaining, success, replies, drawn)
      == Then(item.events + pause, SweepFrom(step, tasks, i + 1, remaining, next, item.left, item.drawn))
  {
  }

  /**
   * `process_extra_tasks(task_id)`: fetch the list; with seven or more completed, or nothing waiting,
   * return at once; otherwise sweep the waiting works with `7 - completed` ratings to go.
   */
  function ExtraRun(fixed: Fixed, t: ExtraTask, taskId: Json, replies: seq<Reply>, drawn: nat): (s: Sweep)
  {
    var fetch := [Exchanged(Get(ExtraListUrl), Next(replies))];
    match ExtraList(Next(replies))
    case Err(e) => Sweep(Err(e), fetch, Rest(replies), drawn)
    case Ok((pending, completed)) =>
      if completed >= DailyCap || pending == [] then Sweep(Ok(0), fetch, Rest(replies), drawn)
      else Then(fetch, SweepFrom(Runner(fixed, t, taskId), pending, 0, DailyCap - completed, 0, Rest(replies), drawn))
  }

  /** `ProcessSingleTask`, described through the loop's `step`. */
  method RunStep(world: World, t: ExtraTask, task: Json, taskId: Json, ghost step: Step) returns (r: Result<()>)
    requires forall task, replies, drawn {:trigger SingleRun(world.Parts(), t, taskId, task, replies, drawn)} ::
      step(task, replies, drawn) == SingleRun(world.Parts(), t, taskId, task, replies, drawn)
    modifies world`replies, world`trace, world`drawn
    ensures var item := step(task, old(world.replies), old(world.drawn));
      r == item.outcome && world.trace == old(world.trace) + item.events && world.replies == item.left
      && world.drawn == item.drawn
  {
    r := ProcessSingleTask(world, t, task, taskId);
  }

  /**
   * The loop itself. `step` is the engine's `Runner`; it is passed on its own so that each turn only looks at
   * the item in hand.
   */
  method SweepTasks(world: World, t: ExtraTask, taskId: Json, pending: seq<Json>, remaining: nat, ghost step: Step)
      returns (r: Result<nat>)
    requires forall task, replies, drawn {:trigger SingleRun(world.Parts(), t, taskId, task, replies, drawn)} ::
      step(task, replies, drawn) == SingleRun(world.Parts(), t, taskId, task, replies, drawn)
    modifies world`replies, world`trace, world`drawn
    ensures var s := SweepFrom(step, pending, 0, remaining, 0, old(world.replies), old(world.drawn));
      r == s.outcome && world.trace == old(world.trace) + s.events && world.replies == s.left && world.drawn == s.drawn
  {
    var success := 0;
    ghost var whole := Then(world.trace, SweepFrom(step, pending, 0, remaining, 0, world.replies, world.drawn));
    var i := 0;
    while i < |pending| && success < remaining
      invariant 0 <= i <= |pending|
      invariant Then(world.trace, SweepFrom(step, pending, i, remaining, success, world.replies, world.drawn)) == whole
      decreases |pending| - i
    {
      var name := WorkName(pending[i]);
      if name.Err? {
        return Err(name.exc);
      }
      ghost var before, item := world.trace, step(pending[i], world.replies, world.drawn);
      SweepStep(step, pending, i, remaining, success, world.replies, world.drawn);
      var done := RunStep(world, t, pending[i], taskId, step);
      assert done == item.outcome && world.trace == before + item.events;
      assert world.replies == item.left && world.drawn == item.drawn;
      ghost var pause: seq<Event> := [];
      if done.Ok? {
        success := success + 1;
        if success < remaining {
          world.Sleep(BetweenItems);
          pause := [Slept(BetweenItems)];
          SeqAssoc(before, item.events, pause);
        }
      }
      if pause == [] {
        assert item.events + pause == item.events;
      }
      ghost var later := SweepFrom(step, pending, i + 1, remaining, success, world.replies, world.drawn);
      assert world.trace == before + (item.events + pause);
      assert Then(before, Then(item.events + pause, later)) == whole;
      ThenThen(before, item.events + pause, later);
      i := i + 1;
    }
    r := Ok(success);
  }

  method ProcessExtraTasks(world: World, t: ExtraTask, taskId: Json) returns (r: Result<()>)
    modifies world`replies, world`trace, world`drawn
    ensures var s := ExtraRun(world.Parts(), t, taskId, old(world.replies), old(world.drawn));
      (r.Ok? <==> s.outcome.Ok?) && (r.Err? ==> r.exc == s.outcome.exc)
      && world.trace == old(world.trace) + s.events && world.replies == s.left && world.drawn == s.drawn
  {
    ghost var trace0 := world.trace;
    var fetched := GetExtraTasks(world);
    if fetched.Err? {
      return Err(fetched.exc);
    }
    var (pending, completed) := fetched.value;
    if completed >= DailyCap || pending == [] {
      return Ok(());
    }
    ghost var trace1 := world.trace;
    var swept := SweepTasks(world, t, taskId, pending, DailyCap - completed, Runner(world.Parts(), t, taskId));
    r := if swept.Ok? then Ok(()) else Err(swept.exc);
    SeqAssoc(trace0, trace1[|trace0|..], world.trace[|trace1|..]);
  }
}
