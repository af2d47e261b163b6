/**
 * What `process_extra_tasks` guarantees, read off its specification `ExtraRun`: the daily cap, the bound on
 * successes, which failures are skipped and which abort, the order report-then-rate, and the pacing.
 */
module ExtraFacts {
  import opened Common
  import opened Json
  import opened Env
  import opened Signer
  import opened SignerFacts
  import opened Extra

  /** The loop never counts more successes than it has to go, and never fewer than it started with. */
  lemma {:induction false} SweepBound(step: Step, tasks: seq<Json>, i: nat, remaining: nat, success: nat,
                                      replies: seq<Reply>, drawn: nat)
    requires i <= |tasks| && success <= remaining
    ensures var s := SweepFrom(step, tasks, i, remaining, success, replies, drawn);
      s.outcome.Ok? ==> success <= s.outcome.value <= remaining
    decreases |tasks| - i
  {
    if i < |tasks| && success < remaining && WorkName(tasks[i]).Ok? {
      var item := step(tasks[i], replies, drawn);
      var next := if item.outcome.Ok? then success + 1 else success;
      SweepStep(step, tasks, i, remaining, success, replies, drawn);
      SweepBound(step, tasks, i + 1, remaining, next, item.left, item.drawn);
    }
  }

  /**
   * Error isolation: a failing item is skipped, so the loop can only abort on an item whose work has no
   * readable name (the failure handler reads it again), and then with that very error.
   */
  lemma {:induction false} SweepIsolation(step: Step, tasks: seq<Json>, i: nat, remaining: nat, success: nat,
                                          replies: seq<Reply>, drawn: nat)
    requires i <= |tasks|
    ensures var s := SweepFrom(step, tasks, i, remaining, success, replies, drawn);
      s.outcome.Err? ==> exists j :: i <= j < |tasks| && WorkName(tasks[j]) == Err(s.outcome.exc)
    ensures (forall j :: i <= j < |tasks| ==> WorkName(tasks[j]).Ok?)
            ==> SweepFrom(step, tasks, i, remaining, success, replies, drawn).outcome.Ok?
    decreases |tasks| - i
  {
    if i < |tasks| && success < remaining && WorkName(tasks[i]).Ok? {
      var item := step(tasks[i], replies, drawn);
      var next := if item.outcome.Ok? then success + 1 else success;
      SweepStep(step, tasks, i, remaining, success, replies, drawn);
      SweepIsolation(step, tasks, i + 1, remaining, next, item.left, item.drawn);
    }
  }

  /** A failed item leaves the count where it was; a successful one adds one. */
  lemma FailureNotCounted(step: Step, tasks: seq<Json>, i: nat, remaining: nat, success: nat,
                          replies: seq<Reply>, drawn: nat)
    requires i < |tasks| && success < remaining && WorkName(tasks[i]).Ok?
    ensures var item := step(tasks[i], replies, drawn);
      item.outcome.Err? ==> SweepFrom(step, tasks, i, remaining, success, replies, drawn)
                            == Then(item.events, SweepFrom(step, tasks, i + 1, remaining, success, item.left, item.drawn))
  {
    var item := step(tasks[i], replies, drawn);
    SweepStep(step, tasks, i, remaining, success, replies, drawn);
    if item.outcome.Err? {
      assert item.events + [] == item.events;
    }
  }

  /**
   * Pacing: with items that never take the between-items pause themselves, the loop pauses once after every
   * success except the one that reaches the quota.
   */
  lemma {:induction false} SweepPauses(step: Step, tasks: seq<Json>, i: nat, remaining: nat, success: nat,
                                       replies: seq<Reply>, drawn: nat)
    requires i <= |tasks| && success <= remaining
    requires forall task, rs, d :: Pauses(step(task, rs, d).events, BetweenItems) == 0
    ensures var s := SweepFrom(step, tasks, i, remaining, success, replies, drawn);
      s.outcome.Ok? ==>
        Pauses(s.events, BetweenItems)
        == s.outcome.value - success - (if s.outcome.value == remaining && remaining > success then 1 else 0)
    decreases |tasks| - i, 1
  {
    if i < |tasks| && success < remaining && WorkName(tasks[i]).Ok? {
      SweepPausesStep(step, tasks, i, remaining, success, replies, drawn);
    }
  }

  /** One turn of the pacing argument: the turn's own pause, if any, and the rest of the loop's. */
  lemma {:induction false} SweepPausesStep(step: Step, tasks: seq<Json>, i: nat, remaining: nat, success: nat,
                                           replies: seq<Reply>, drawn: nat)
    requires i < |tasks| && success < remaining && WorkName(tasks[i]).Ok?
    requires forall task, rs, d :: Pauses(step(task, rs, d).events, BetweenItems) == 0
    ensures var s := SweepFrom(step, tasks, i, remaining, success, replies, drawn);
      s.outcome.Ok? ==>
        Pauses(s.events, BetweenItems)
        == s.outcome.value - success - (if s.outcome.value == remaining && remaining > success then 1 else 0)
    decreases |tasks| - i, 0
  {
    var item := step(tasks[i], replies, drawn);
    var next := if item.outcome.Ok? then success + 1 else success;
    var pause := if item.outcome.Ok? && next < remaining then [Slept(BetweenItems)] else [];
    var rest := SweepFrom(step, tasks, i + 1, remaining, next, item.left, item.drawn);
    SweepStep(step, tasks, i, remaining, success, replies, drawn);
    SweepPauses(step, tasks, i + 1, remaining, next, item.left, item.drawn);
    assert Pauses(pause, BetweenItems) == |pause| by {
      if pause != [] {
        assert pause[..0] == [];
      }
    }
    PausesAppend(item.events, pause, BetweenItems);
    PausesAppend(item.events + pause, rest.events, BetweenItems);
    assert Pauses(SweepFrom(step, tasks, i, remaining, success, replies, drawn).events, BetweenItems)
        == |pause| + Pauses(rest.events, BetweenItems);
    if item.outcome.Ok? && next == remaining {
      assert rest == Sweep(Ok(next), [], item.left, item.drawn);
    }
  }

  /** The listening report never sleeps. */
  lemma ReportRunQuiet(fixed: Fixed, reporter: Signer, work: Json, replies: seq<Reply>)
    ensures forall why :: Pauses(ReportRun(fixed, reporter, work, replies).events, why) == 0
  {
    var events := ReportRun(fixed, reporter, work, replies).events;
    if events != [] {
      assert events[..0] == [];
    }
  }

  /**
   * Report before rating: an item rates (its `sign` call takes its first sleep) exactly when its listening
   * report went through; after a failed report nothing is drawn for a rating signer and nothing more is sent.
   */
  lemma ReportGatesRating(fixed: Fixed, t: ExtraTask, taskId: Json, task: Json, replies: seq<Reply>, drawn: nat)
    requires Index(task, "work").Ok?
    ensures var report := ReportRun(fixed, t.reporter, Index(task, "work").value, replies);
      var item := SingleRun(fixed, t, taskId, task, replies, drawn);
      && (Pauses(item.events, BeforeRating) > 0 <==> report.outcome.Ok?)
      && (report.outcome.Err? ==> item.events == report.events && item.left == report.left && item.drawn == drawn)
      && (report.outcome.Ok? ==> item.drawn == drawn + 16 && item.events[..1] == report.events)
  {
    var work := Index(task, "work").value;
    var report := ReportRun(fixed, t.reporter, work, replies);
    ReportRunQuiet(fixed, t.reporter, work, replies);
    assert Pauses(report.events, BeforeRating) == 0;
    if report.outcome.Ok? {
      var s := Signer(taskId, RandomString(fixed.rng, drawn, 16));
      var run := SignRun(fixed.jar, report.left, fixed.E, s, work, true);
      SignRunPauses(fixed.jar, report.left, fixed.E, s, work, true);
      PausesAppend(report.events, run.events, BeforeRating);
      assert (report.events + run.events)[..1] == report.events;
    }
  }

  /** No item takes the between-items pause on its own. */
  lemma SingleRunQuiet(fixed: Fixed, t: ExtraTask, taskId: Json, task: Json, replies: seq<Reply>, drawn: nat)
    ensures Pauses(SingleRun(fixed, t, taskId, task, replies, drawn).events, BetweenItems) == 0
  {
    match Index(task, "work")
    case Err(_) =>
    case Ok(work) =>
      var report := ReportRun(fixed, t.reporter, work, replies);
      ReportRunQuiet(fixed, t.reporter, work, replies);
      if report.outcome.Ok? {
        var s := Signer(taskId, RandomString(fixed.rng, drawn, 16));
        var run := SignRun(fixed.jar, report.left, fixed.E, s, work, true);
        SignRunPauses(fixed.jar, report.left, fixed.E, s, work, true);
        PausesAppend(report.events, run.events, BetweenItems);
      }
  }

  /**
   * The daily cap: with seven or more extra ratings already done, the engine only fetches the list; otherwise
   * it succeeds at most `7 - completed` times. It stops at the first unreadable work name and at nothing else.
   */
  lemma ExtraCap(fixed: Fixed, t: ExtraTask, taskId: Json, replies: seq<Reply>, drawn: nat)
    requires ExtraList(Next(replies)).Ok?
    ensures var (pending, completed) := ExtraList(Next(replies)).value;
      var s := ExtraRun(fixed, t, taskId, replies, drawn);
      && (completed >= DailyCap ==> s == Sweep(Ok(0), [Exchanged(Get(ExtraListUrl), Next(replies))], Rest(replies), drawn))
      && (s.outcome.Ok? && completed < DailyCap ==> s.outcome.value <= DailyCap - completed)
      && (s.outcome.Err? ==> exists j :: 0 <= j < |pending| && WorkName(pending[j]) == Err(s.outcome.exc))
  {
    var (pending, completed) := ExtraList(Next(replies)).value;
    if completed < DailyCap && pending != [] {
      var step := Runner(fixed, t, taskId);
      SweepBound(step, pending, 0, DailyCap - completed, 0, Rest(replies), drawn);
      SweepIsolation(step, pending, 0, DailyCap - completed, 0, Rest(replies), drawn);
    }
  }

  /**
   * Pacing of the whole run: one pause after every successful rating except the one that fills the quota,
   * and none after a failure.
   */
  lemma ExtraPacing(fixed: Fixed, t: ExtraTask, taskId: Json, replies: seq<Reply>, drawn: nat)
    requires ExtraList(Next(replies)).Ok?
    ensures var (pending, completed) := ExtraList(Next(replies)).value;
      var s := ExtraRun(fixed, t, taskId, replies, drawn);
      s.outcome.Ok? && completed < DailyCap ==>
        Pauses(s.events, BetweenItems)
        == s.outcome.value - (if s.outcome.value == DailyCap - completed then 1 else 0)
  {
    var (pending, completed) := ExtraList(Next(replies)).value;
    var fetch := [Exchanged(Get(ExtraListUrl), Next(replies))];
    assert Pauses(fetch, BetweenItems) == 0 by {
      assert fetch[..0] == [];
    }
    if completed < DailyCap && pending != [] {
      var step := Runner(fixed, t, taskId);
      forall task, rs, d ensures Pauses(step(task, rs, d).events, BetweenItems) == 0 {
        SingleRunQuiet(fixed, t, taskId, task, rs, d);
      }
      ThenPacing(step, fetch, pending, DailyCap - completed, Rest(replies), drawn);
    }
  }

  /** The loop's pacing, behind a prefix of events that holds no pause of its own. */
  lemma ThenPacing(step: Step, fetch: seq<Event>, pending: seq<Json>, remaining: nat, replies: seq<Reply>, drawn: nat)
    requires Pauses(fetch, BetweenItems) == 0
    requires forall task, rs, d :: Pauses(step(task, rs, d).events, BetweenItems) == 0
    ensures var s := Then(fetch, SweepFrom(step, pending, 0, remaining, 0, replies, drawn));
      s.outcome.Ok? ==>
        Pauses(s.events, BetweenItems) == s.outcome.value - (if s.outcome.value == remaining && remaining > 0 then 1 else 0)
  {
    SweepPauses(step, pending, 0, remaining, 0, replies, drawn);
    PausesAppend(fetch, SweepFrom(step, pending, 0, remaining, 0, replies, drawn).events, BetweenItems);
  }
}
