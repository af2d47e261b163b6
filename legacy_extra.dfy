/**
 * The older extra-queue engine (`ExtraTask` of extra_task.py): the list is cut to the day's quota up front,
 * every item is followed by a pause, and the first failing item ends the run. Reporting a listen and rating
 * one item are the same as in the current engine (`Extra.SingleRun`).
 */
module LegacyExtra {
  import opened Common
  import opened Json
  import opened Env
  import opened Signer
  import opened Extra
  import ExtraFacts

  /** `uncompleted[:7 - completed] if 7 - completed > 0 else []`; a slice past the end stops at the end. */
  function Quota(pending: seq<Json>, completed: nat): (r: seq<Json>)
    ensures |r| <= |pending| && r == pending[..|r|]
    ensures completed >= DailyCap ==> r == []
    ensures completed < DailyCap ==> |r| == if |pending| < DailyCap - completed then |pending| else DailyCap - completed
  {
    var room := DailyCap - completed;
    if room > 0 then (if room < |pending| then pending[..room] else pending) else []
  }

  /**
   * `_get_extra_tasks()` of the older engine: the same request and checks as the current one, then only the
   * works that still fit in the day's quota, in the order of the response.
   */
  function LegacyList(reply: Reply): (r: Result<(seq<Json>, nat)>)
    ensures r.Ok? <==> ExtraList(reply).Ok?
    ensures r.Err? ==> r.exc == ExtraList(reply).exc
  {
    match ExtraList(reply)
    case Err(e) => Err(e)
    case Ok((pending, completed)) => Ok((Quota(pending, completed), completed))
  }

  method LegacyGetExtraTasks(world: World) returns (r: Result<(seq<Json>, nat)>)
    modifies world`replies, world`trace
    ensures r == LegacyList(Next(old(world.replies)))
    ensures world.trace == old(world.trace) + [Exchanged(Get(ExtraListUrl), Next(old(world.replies)))]
    ensures world.replies == Rest(old(world.replies))
  {
    var reply := world.Send(Get(ExtraListUrl));
    r := LegacyList(reply);
  }

  /**
   * The `for task in extra_tasks` loop of the older engine from item `i` on: each item is processed and
   * followed by a pause; the first exception leaves the loop and is re-raised. On success the outcome is the
   * number of items processed.
   */
  function LegacyFrom(step: Step, tasks: seq<Json>, i: nat, replies: seq<Reply>, drawn: nat): (s: Sweep)
    requires i <= |tasks|
    decreases |tasks| - i, 1
  {
    if i == |tasks| then Sweep(Ok(|tasks|), [], replies, drawn)
    else LegacyTurn(step, tasks, i, replies, drawn)
  }

  /** One turn of the older loop, on item `i`, and the rest of the loop after it. */
  function LegacyTurn(step: Step, tasks: seq<Json>, i: nat, replies: seq<Reply>, drawn: nat): (s: Sweep)
    requires i < |tasks|
    decreases |tasks| - i, 0
  {
    var item := step(tasks[i], replies, drawn);
    if item.outcome.Err? then Sweep(Err(item.outcome.exc), item.events, item.left, item.drawn)
    else Then(item.events + [Slept(BetweenItems)], LegacyFrom(step, tasks, i + 1, item.left, item.drawn))
  }

  /** `process_extra_tasks(task_id)` of the older engine: fetch the cut list; with nothing in it, return at once. */
  function LegacyRun(fixed: Fixed, t: ExtraTask, taskId: Json, replies: seq<Reply>, drawn: nat): (s: Sweep)
  {
    var fetch := [Exchanged(Get(ExtraListUrl), Next(replies))];
    match LegacyList(Next(replies))
    case Err(e) => Sweep(Err(e), fetch, Rest(replies), drawn)
    case Ok((tasks, completed)) =>
      if tasks == [] then Sweep(Ok(0), fetch, Rest(replies), drawn)
      else Then(fetch, LegacyFrom(Runner(fixed, t, taskId), tasks, 0, Rest(replies), drawn))
  }

  /** One turn of the older loop for an item that went through. */
  lemma LegacyStep(step: Step, tasks: seq<Json>, i: nat, replies: seq<Reply>, drawn: nat)
    requires i < |tasks|
    ensures var item := step(tasks[i], replies, drawn);
      item.outcome.Ok? ==>
        LegacyFrom(step, tasks, i, replies, drawn)
        == Then(item.events + [Slept(BetweenItems)], LegacyFrom(step, tasks, i + 1, item.left, item.drawn))
  {
  }

  /** The loop of the older engine; `step` is the engine's `Runner`, as for `Extra.SweepTasks`. */
  method LegacySweep(world: World, t: ExtraTask, taskId: Json, tasks: seq<Json>, ghost step: Step) returns (r: Result<nat>)
    requires forall task, replies, drawn {:trigger SingleRun(world.Parts(), t, taskId, task, replies, drawn)} ::
      step(task, replies, drawn) == SingleRun(world.Parts(), t, taskId, task, replies, drawn)
    modifies world`replies, world`trace, world`drawn
    ensures var s := LegacyFrom(step, tasks, 0, old(world.replies), old(world.drawn));
      r == s.outcome && world.trace == old(world.trace) + s.events && world.replies == s.left && world.drawn == s.drawn
  {
    ghost var whole := Then(world.trace, LegacyFrom(step, tasks, 0, world.replies, world.drawn));
    var i := 0;
    while i < |tasks|
      invariant 0 <= i <= |tasks|
      invariant Then(world.trace, LegacyFrom(step, tasks, i, world.replies, world.drawn)) == whole
      decreases |tasks| - i
    {
      ghost var before, item := world.trace, step(tasks[i], world.replies, world.drawn);
      LegacyStep(step, tasks, i, world.replies, world.drawn);
      var done := RunStep(world, t, tasks[i], taskId, step);
      if done.Err? {
        return Err(done.exc);
      }
      world.Sleep(BetweenItems);
      SeqAssoc(before, item.events, [Slept(BetweenItems)]);
      ghost var later := LegacyFrom(step, tasks, i + 1, world.replies, world.drawn);
      ThenThen(before, item.events + [Slept(BetweenItems)], later);
      i := i + 1;
    }
    r := Ok(|tasks|);
  }

  method LegacyProcessExtraTasks(world: World, t: ExtraTask, taskId: Json) returns (r: Result<()>)
    modifies world`replies, world`trace, world`drawn
    ensures var s := LegacyRun(world.Parts(), t, taskId, old(world.replies), old(world.drawn));
      (r.Ok? <==> s.outcome.Ok?) && (r.Err? ==> r.exc == s.outcome.exc)
      && world.trace == old(world.trace) + s.events && world.replies == s.left && world.drawn == s.drawn
  {
    ghost var trace0 := world.trace;
    var fetched := LegacyGetExtraTasks(world);
    if fetched.Err? {
      return Err(fetched.exc);
    }
    var (tasks, completed) := fetched.value;
    if tasks == [] {
      return Ok(());
    }
    ghost var trace1 := world.trace;
    var swept := LegacySweep(world, t, taskId, tasks, Runner(world.Parts(), t, taskId));
    r := if swept.Ok? then Ok(()) else Err(swept.exc);
    SeqAssoc(trace0, trace1[|trace0|..], world.trace[|trace1|..]);
  }

  /** The cut list is the head of the waiting works, as long as the quota allows, and the count is unchanged. */
  lemma LegacyListQuota(reply: Reply)
    requires LegacyList(reply).Ok?
    ensures var (waiting, completed) := ExtraList(reply).value;
      var (cut, count) := LegacyList(reply).value;
      && count == completed
      && cut == waiting[..|cut|]
      && |cut| == if completed >= DailyCap then 0
                  else if |waiting| < DailyCap - completed then |waiting| else DailyCap - completed
  {
  }

  /**
   * With items that never take the between-items pause themselves, a run that gets through processes every
   * item and pauses after each one, the last included; a run that fails stops short of that.
   */
  lemma {:induction false} LegacyPauses(step: Step, tasks: seq<Json>, i: nat, replies: seq<Reply>, drawn: nat)
    requires i <= |tasks|
    requires forall task, rs, d :: Pauses(step(task, rs, d).events, BetweenItems) == 0
    ensures var s := LegacyFrom(step, tasks, i, replies, drawn);
      && (s.outcome.Ok? ==> s.outcome.value == |tasks| && Pauses(s.events, BetweenItems) == |tasks| - i)
      && (s.outcome.Err? ==> Pauses(s.events, BetweenItems) < |tasks| - i)
    decreases |tasks| - i
  {
    if i < |tasks| {
      var item := step(tasks[i], replies, drawn);
      if item.outcome.Ok? {
        var pause := [Slept(BetweenItems)];
        var rest := LegacyFrom(step, tasks, i + 1, item.left, item.drawn);
        LegacyStep(step, tasks, i, replies, drawn);
        LegacyPauses(step, tasks, i + 1, item.left, item.drawn);
        assert Pauses(pause, BetweenItems) == 1 by {
          assert pause[..0] == [];
        }
        PausesAppend(item.events, pause, BetweenItems);
        PausesAppend(item.events + pause, rest.events, BetweenItems);
      }
    }
  }

  /** No isolation: the error that ends a run is the unchanged error of one of its items. */
  lemma {:induction false} LegacyAbort(step: Step, tasks: seq<Json>, i: nat, replies: seq<Reply>, drawn: nat)
    requires i <= |tasks|
    ensures var s := LegacyFrom(step, tasks, i, replies, drawn);
      s.outcome.Err? ==> exists j, rs, d :: i <= j < |tasks| && step(tasks[j], rs, d).outcome == Err(s.outcome.exc)
    decreases |tasks| - i
  {
    if i < |tasks| {
      var item := step(tasks[i], replies, drawn);
      if item.outcome.Ok? {
        LegacyStep(step, tasks, i, replies, drawn);
        LegacyAbort(step, tasks, i + 1, item.left, item.drawn);
      } else {
        assert step(tasks[i], replies, drawn).outcome == Err(LegacyFrom(step, tasks, i, replies, drawn).outcome.exc);
      }
    }
  }

  /** Pacing of a whole run of the older engine: one pause per rated item. */
  lemma LegacyPacing(fixed: Fixed, t: ExtraTask, taskId: Json, replies: seq<Reply>, drawn: nat)
    requires LegacyList(Next(replies)).Ok?
    ensures var s := LegacyRun(fixed, t, taskId, replies, drawn);
      s.outcome.Ok? ==> Pauses(s.events, BetweenItems) == |LegacyList(Next(replies)).value.0|
  {
    var (tasks, completed) := LegacyList(Next(replies)).value;
    var fetch := [Exchanged(Get(ExtraListUrl), Next(replies))];
    assert Pauses(fetch, BetweenItems) == 0 by {
      assert fetch[..0] == [];
    }
    if tasks != [] {
      var step := Runner(fixed, t, taskId);
      forall task, rs, d ensures Pauses(step(task, rs, d).events, BetweenItems) == 0 {
        ExtraFacts.SingleRunQuiet(fixed, t, taskId, task, rs, d);
      }
      LegacyPauses(step, tasks, 0, Rest(replies), drawn);
      PausesAppend(fetch, LegacyFrom(step, tasks, 0, Rest(replies), drawn).events, BetweenItems);
    }
  }

  /** The text of the TypeError Python raises for a constructor call without its `config` argument. */
  const MissingConfig := "__init__() missing 1 required positional argument: 'config'"

  /**
   * `_process_single_task(task, task_id)` of the older engine as written: it builds the rating signer as
   * `Signer(session, task_id, logger)`, without the `config` argument the constructor requires, so an item
   * whose report went through fails with TypeError before anything is drawn or rated.
   * `Extra.SingleRun` models the item with the call completed.
   */
  function SingleAsWritten(fixed: Fixed, t: ExtraTask, task: Json, replies: seq<Reply>, drawn: nat): (item: Item)
    ensures item.outcome.Err? && item.drawn == drawn
  {
    match Index(task, "work")
    case Err(e) => Item(Err(e), [], replies, drawn)
    case Ok(work) =>
      var report := ReportRun(fixed, t.reporter, work, replies);
      if report.outcome.Err? then Item(Err(Blame(work, report.outcome.exc)), report.events, report.left, drawn)
      else Item(Err(Blame(work, Exc(TypeError, MissingConfig))), report.events, report.left, drawn)
  }

  /** The older loop's step as written. */
  function AsWrittenRunner(fixed: Fixed, t: ExtraTask): (step: Step)
    ensures forall task, replies, drawn :: step(task, replies, drawn) == SingleAsWritten(fixed, t, task, replies, drawn)
  {
    (task: Json, replies: seq<Reply>, drawn: nat) => SingleAsWritten(fixed, t, task, replies, drawn)
  }

  /**
   * As written, the older engine never rates: a queue with anything in it ends in the first item's error,
   * after at most that item's report and without a single pause before a rating.
   */
  lemma AsWrittenNeverRates(fixed: Fixed, t: ExtraTask, tasks: seq<Json>, replies: seq<Reply>, drawn: nat)
    requires tasks != []
    ensures var s := LegacyFrom(AsWrittenRunner(fixed, t), tasks, 0, replies, drawn);
      && s.outcome.Err? && s.drawn == drawn && |s.events| <= 1
      && Pauses(s.events, BeforeRating) == 0
  {
    match Index(tasks[0], "work")
    case Err(_) =>
    case Ok(work) =>
      ExtraFacts.ReportRunQuiet(fixed, t.reporter, work, replies);
  }
}
