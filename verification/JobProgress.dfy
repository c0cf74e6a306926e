/** The progress shown for a job (cloud_offload/job_visibility.py): the best of what was
    observed and what the elapsed time of the furthest stage suggests, rounded to tenths. */
module JobProgress {
  import opened Prelude

  datatype Stage =
    | Readiness | Provisioning | WorkerBoot | DependencyPreparation | Execution | ResultTransfer | ResourceClosure

  datatype Status = Waiting | Dispatched | Running | Completed | Failed

  /** An event: its stage, if it belongs to one, its time, if that can be parsed, and the
      progress readings it carries, in the order in which they are consulted. */
  datatype Event = Event(stage: Option<Stage>, time: Option<real>, readings: seq<Option<real>>)

  datatype Job = Job(status: Status, progress: real, created: Option<real>, estimates: map<Stage, real>)

  function Order(stage: Stage): nat {
    match stage
    case Readiness => 0
    case Provisioning => 10
    case WorkerBoot => 20
    case DependencyPreparation => 30
    case Execution => 40
    case ResultTransfer => 50
    case ResourceClosure => 60
  }

  /** The band of overall progress that a stage covers. */
  function Band(stage: Stage): (real, real) {
    match stage
    case Readiness => (0.0, 1.0)
    case Provisioning => (1.0, 2.0)
    case WorkerBoot => (2.0, 5.0)
    case DependencyPreparation => (5.0, 10.0)
    case Execution => (10.0, 95.0)
    case ResultTransfer => (95.0, 99.0)
    case ResourceClosure => (99.0, 100.0)
  }

  predicate IsEstimated(stage: Stage) {
    stage in {WorkerBoot, DependencyPreparation, Execution, ResourceClosure}
  }

  function UsualDuration(stage: Stage): real {
    match stage
    case Readiness => 20.0
    case Provisioning => 90.0
    case WorkerBoot => 180.0
    case DependencyPreparation => 300.0
    case Execution => 300.0
    case ResultTransfer => 60.0
    case ResourceClosure => 30.0
  }

  function Max(a: real, b: real): real {
    if a >= b then a else b
  }

  function Min(a: real, b: real): real {
    if a <= b then a else b
  }

  /** `round(x, 1)` */
  function Tenths(x: real): real {
    Nearest(x * 10.0) as real / 10.0
  }

  lemma TenthsGrow(x: real, y: real)
    requires x <= y
    ensures Tenths(x) <= Tenths(y)
  {
    NearestGrows(x * 10.0, y * 10.0);
  }

  function StageDuration(stage: Stage, estimates: map<Stage, real>): (d: real)
    ensures d >= 1.0
  {
    if IsEstimated(stage) && stage in estimates then Max(1.0, estimates[stage]) else UsualDuration(stage)
  }

  /** The first finite reading, bounded. */
  function EventProgress(readings: seq<Option<real>>): (p: Option<real>)
    ensures p.Some? ==> 0.0 <= p.value <= 100.0
  {
    if readings == [] then None
    else if readings[0].Some? then Some(Max(0.0, Min(100.0, readings[0].value)))
    else EventProgress(readings[1..])
  }

  function Observed(progress: real, events: seq<Event>): real {
    if events == [] then progress
    else
      var rest, p := Observed(progress, events[..|events| - 1]), EventProgress(events[|events| - 1].readings);
      if p.Some? then Max(rest, p.value) else rest
  }

  /** The furthest stage of any event. */
  function Furthest(events: seq<Event>): Option<Stage> {
    if events == [] then None
    else
      var rest, stage := Furthest(events[..|events| - 1]), events[|events| - 1].stage;
      if stage.None? then rest
      else if rest.Some? && Order(rest.value) >= Order(stage.value) then rest else stage
  }

  function SelectedStage(status: Status, events: seq<Event>): Stage {
    if Furthest(events).Some? then Furthest(events).value
    else if status == Dispatched then WorkerBoot
    else if status == Running then Execution
    else Readiness
  }

  /** The earliest parseable time of the stage's events. */
  function StageStart(stage: Stage, events: seq<Event>): Option<real> {
    if events == [] then None
    else
      var rest, e := StageStart(stage, events[..|events| - 1]), events[|events| - 1];
      if e.stage != Some(stage) || e.time.None? then rest
      else if rest.Some? then Some(Min(rest.value, e.time.value)) else e.time
  }

  function Elapsed(start: Option<real>, now: real): real {
    if start.Some? then Tenths(Max(0.0, now - start.value)) else 0.0
  }

  function Projected(stage: Stage, job: Job, events: seq<Event>, now: real): real {
    var started := StageStart(stage, events);
    var elapsed := Elapsed(if started.Some? then started else job.created, now);
    Band(stage).0 + (Band(stage).1 - Band(stage).0) * Min(0.95, elapsed / StageDuration(stage, job.estimates))
  }

  /** The better of what was observed and what the time suggests. */
  function Best(job: Job, events: seq<Event>, now: real): real {
    var observed := Observed(job.progress, events);
    var projected := Projected(SelectedStage(job.status, events), job, events, now);
    if observed >= projected then observed else projected
  }

  /** What is shown of an unfinished job. */
  function Shown(progress: real): real {
    Tenths(Max(0.0, Min(99.0, progress)))
  }

  lemma ShownGrows(x: real, y: real)
    requires x <= y
    ensures Shown(x) <= Shown(y)
  {
    TenthsGrow(Max(0.0, Min(99.0, x)), Max(0.0, Min(99.0, y)));
  }

  /** `_project_progress` */
  function ProjectProgress(job: Job, events: seq<Event>, now: real): real {
    match job.status
    case Completed => 100.0
    case Failed => Shown(Observed(job.progress, events))
    case _ => Shown(Best(job, events, now))
  }

  predicate IsActive(job: Job) {
    job.status in {Waiting, Dispatched, Running}
  }

  /** A job that is not finished shows between 0 and 99 percent, a completed one 100. */
  lemma ProgressIsBounded(job: Job, events: seq<Event>, now: real)
    ensures 0.0 <= ProjectProgress(job, events, now) <= 100.0
    ensures ProjectProgress(job, events, now) > 99.0 <==> job.status == Completed
  {
    hide Shown;
    ShownIsBounded(Observed(job.progress, events));
    ShownIsBounded(Best(job, events, now));
  }

  lemma ShownIsBounded(progress: real)
    ensures 0.0 <= Shown(progress) <= 99.0
  {
    var bounded := Max(0.0, Min(99.0, progress));
    TenthsGrow(0.0, bounded);
    TenthsGrow(bounded, 99.0);
    assert Tenths(0.0) == 0.0 && Tenths(99.0) == 99.0;
  }

  lemma {:induction false} ObservedGrows(progress: real, progress': real, events: seq<Event>, more: seq<Event>)
    requires progress <= progress'
    ensures Observed(progress, events) <= Observed(progress', events + more)
  {
    if more != [] {
      ObservedGrows(progress, progress', events, more[..|more| - 1]);
      assert (events + more)[..|events + more| - 1] == events + more[..|more| - 1];
    } else {
      assert events + more == events;
      if events != [] {
        ObservedGrows(progress, progress', events[..|events| - 1], []);
        assert events[..|events| - 1] + [] == events[..|events| - 1];
      }
    }
  }

  lemma {:induction false} FurthestAdvances(events: seq<Event>, more: seq<Event>)
    requires Furthest(events).Some?
    ensures Furthest(events + more).Some? && Order(Furthest(events).value) <= Order(Furthest(events + more).value)
  {
    if more != [] {
      FurthestAdvances(events, more[..|more| - 1]);
      assert (events + more)[..|events + more| - 1] == events + more[..|more| - 1];
    } else {
      assert events + more == events;
    }
  }

  /** A later start is never found once a start is known. */
  lemma {:induction false} StartMovesBack(stage: Stage, events: seq<Event>, more: seq<Event>)
    requires StageStart(stage, events).Some?
    ensures StageStart(stage, events + more).Some? && StageStart(stage, events + more).value <= StageStart(stage, events).value
  {
    if more != [] {
      StartMovesBack(stage, events, more[..|more| - 1]);
      assert (events + more)[..|events + more| - 1] == events + more[..|more| - 1];
    } else {
      assert events + more == events;
    }
  }

  /** The furthest stage has an event with a time. */
  predicate IsAnchored(events: seq<Event>) {
    Furthest(events).Some? && StageStart(Furthest(events).value, events).Some?
  }

  lemma RatioGrows(a: real, b: real, d: real)
    requires a <= b && d >= 1.0
    ensures a / d <= b / d
  {
    assert b / d - a / d == (b - a) / d;
    assert (b - a) / d >= 0.0;
  }

  lemma ProjectedIsInBand(stage: Stage, job: Job, events: seq<Event>, now: real)
    ensures Band(stage).0 <= Projected(stage, job, events, now) <= Band(stage).1
  {
    var started := StageStart(stage, events);
    var elapsed := Elapsed(if started.Some? then started else job.created, now);
    RatioGrows(0.0, elapsed, StageDuration(stage, job.estimates));
    var f := Min(0.95, elapsed / StageDuration(stage, job.estimates));
    assert 0.0 <= f <= 1.0;
    var width := Band(stage).1 - Band(stage).0;
    Scaled(width, 0.0, f);
    Scaled(width, f, 1.0);
  }

  lemma Scaled(width: real, a: real, b: real)
    requires width >= 0.0 && a <= b
    ensures width * a <= width * b
  {
    assert width * (b - a) >= 0.0;
  }

  lemma ElapsedGrows(start: Option<real>, start': Option<real>, now: real, later: real)
    requires start.Some? && start'.Some? && start'.value <= start.value && now <= later
    ensures Elapsed(start, now) <= Elapsed(start', later)
  {
    TenthsGrow(Max(0.0, now - start.value), Max(0.0, later - start'.value));
  }

  /** Later in the same stage, or in a later stage, the projection is no lower. */
  lemma ProjectionAdvances(job: Job, job': Job, events: seq<Event>, more: seq<Event>, now: real, later: real)
    requires IsAnchored(events) && now <= later && job'.estimates == job.estimates
    ensures Furthest(events + more).Some?
    ensures Projected(Furthest(events).value, job, events, now) <= Projected(Furthest(events + more).value, job', events + more, later)
  {
    FurthestAdvances(events, more);
    var stage, stage' := Furthest(events).value, Furthest(events + more).value;
    hide Furthest;
    if stage == stage' {
      StartMovesBack(stage, events, more);
      SameStageAdvances(stage, job, job', events, events + more, now, later);
    } else {
      ProjectedIsInBand(stage, job, events, now);
      ProjectedIsInBand(stage', job', events + more, later);
      hide Projected, StageStart;
      assert Band(stage).1 <= Band(stage').0;
    }
  }

  lemma SameStageAdvances(stage: Stage, job: Job, job': Job, events: seq<Event>, events': seq<Event>, now: real,
                          later: real)
    requires StageStart(stage, events).Some? && StageStart(stage, events').Some?
    requires StageStart(stage, events').value <= StageStart(stage, events).value
    requires now <= later && job'.estimates == job.estimates
    ensures Projected(stage, job, events, now) <= Projected(stage, job', events', later)
  {
    hide StageStart, StageDuration;
    var a := Elapsed(StageStart(stage, events), now);
    var b := Elapsed(StageStart(stage, events'), later);
    ElapsedGrows(StageStart(stage, events), StageStart(stage, events'), now, later);
    hide Elapsed;
    var d := StageDuration(stage, job.estimates);
    RatioGrows(a, b, d);
    Scaled(Band(stage).1 - Band(stage).0, Min(0.95, a / d), Min(0.95, b / d));
    hide Band;
  }

  /******* What is shown, from below *******/

  /** The event's reading: the first finite one. */
  predicate IsReading(e: Event, value: real) {
    exists j :: 0 <= j < |e.readings| && e.readings[j] == Some(value) && forall k | 0 <= k < j :: e.readings[k].None?
  }

  lemma {:induction false} ReadingIsFirst(e: Event, value: real)
    requires IsReading(e, value)
    ensures EventProgress(e.readings) == Some(Max(0.0, Min(100.0, value)))
    decreases |e.readings|
  {
    var j :| 0 <= j < |e.readings| && e.readings[j] == Some(value) && forall k | 0 <= k < j :: e.readings[k].None?;
    if j > 0 {
      var rest := e.(readings := e.readings[1..]);
      assert rest.readings[j - 1] == Some(value);
      assert IsReading(rest, value);
      ReadingIsFirst(rest, value);
    }
  }

  /** What was observed is the job's own progress or the reading of some event, and none is more. */
  lemma {:induction false} ObservedExactly(progress: real, events: seq<Event>)
    ensures Observed(progress, events) >= progress
    ensures forall e <- events | EventProgress(e.readings).Some? :: Observed(progress, events) >= EventProgress(e.readings).value
    ensures Observed(progress, events) == progress
            || exists e <- events :: EventProgress(e.readings) == Some(Observed(progress, events))
  {
    if events != [] {
      var front, last := events[..|events| - 1], events[|events| - 1];
      ObservedExactly(progress, front);
      assert events == front + [last];
      hide EventProgress;
    }
  }

  /** A job that is not completed shows at least its own progress and every reading of its events,
      up to 99, and one that failed shows no more. */
  lemma ShowsWhatWasObserved(job: Job, events: seq<Event>, now: real)
    requires job.status != Completed
    ensures ProjectProgress(job, events, now) >= Shown(job.progress)
    ensures forall e, value | e in events && IsReading(e, value) :: ProjectProgress(job, events, now) >= Shown(value)
    ensures job.status == Failed ==>
              || ProjectProgress(job, events, now) == Shown(job.progress)
              || exists e <- events :: EventProgress(e.readings).Some?
                                       && ProjectProgress(job, events, now) == Shown(EventProgress(e.readings).value)
  {
    var observed := Observed(job.progress, events);
    ObservedExactly(job.progress, events);
    hide Observed, Projected, SelectedStage, Shown, EventProgress, IsReading;
    assert IsActive(job) ==> Best(job, events, now) >= observed;
    ShownGrows(job.progress, observed);
    ShownGrows(observed, Best(job, events, now));
    forall e, value | e in events && IsReading(e, value) ensures ProjectProgress(job, events, now) >= Shown(value) {
      ReadingIsFirst(e, value);
      ShownIsClamped(value);
      ShownGrows(Max(0.0, Min(100.0, value)), observed);
    }
  }

  lemma ShownIsClamped(value: real)
    ensures Shown(Max(0.0, Min(100.0, value))) == Shown(value)
  {
    hide Tenths;
  }

  /** The furthest stage is one that was reported, and none was further. */
  lemma {:induction false} FurthestExactly(events: seq<Event>)
    ensures Furthest(events).None? <==> forall e <- events :: e.stage.None?
    ensures Furthest(events).Some? ==>
              && (exists e <- events :: e.stage == Furthest(events))
              && forall e <- events | e.stage.Some? :: Order(e.stage.value) <= Order(Furthest(events).value)
  {
    if events != [] {
      var front, last := events[..|events| - 1], events[|events| - 1];
      FurthestExactly(front);
      assert events == front + [last];
      assert last in events;
      if e :| e in front && e.stage == Furthest(front) {
        assert e in events;
      }
      hide Order;
    }
  }

  /** A stage starts with the earliest of its events that has a time. */
  lemma {:induction false} StartExactly(stage: Stage, events: seq<Event>)
    ensures StageStart(stage, events).None? <==> forall e <- events | e.stage == Some(stage) :: e.time.None?
    ensures StageStart(stage, events).Some? ==>
              && (exists e <- events :: e.stage == Some(stage) && e.time == StageStart(stage, events))
              && forall e <- events | e.stage == Some(stage) && e.time.Some? ::
                   StageStart(stage, events).value <= e.time.value
  {
    if events != [] {
      var front, last := events[..|events| - 1], events[|events| - 1];
      StartExactly(stage, front);
      assert events == front + [last];
      assert last in events;
      if e :| e in front && e.stage == Some(stage) && e.time == StageStart(stage, front) {
        assert e in events;
      }
    }
  }

  /** What the job, its events and the time can become while it is not finished. */
  predicate IsLater(job: Job, events: seq<Event>, now: real, job': Job, events': seq<Event>, later: real) {
    && IsActive(job) && IsActive(job') && job.progress <= job'.progress
    && job'.created == job.created && job'.estimates == job.estimates
    && events <= events' && now <= later
  }

  /** Nothing that can follow lowers what is shown now. */
  ghost predicate NeverFalls(job: Job, events: seq<Event>, now: real) {
    forall job', events', later | IsLater(job, events, now, job', events', later) ::
      ProjectProgress(job, events, now) <= ProjectProgress(job', events', later)
  }

  /** Where the furthest stage begins. */
  function Floor(events: seq<Event>): real {
    match Furthest(events)
    case None => 0.0
    case Some(stage) => Band(stage).0
  }

  /** Progress never goes backwards once an event with a time of the furthest stage was seen. */
  lemma ProgressNeverFalls(job: Job, events: seq<Event>, now: real, job': Job, events': seq<Event>, later: real)
    requires IsLater(job, events, now, job', events', later) && IsAnchored(events)
    ensures ProjectProgress(job, events, now) <= ProjectProgress(job', events', later)
  {
    var more := events'[|events|..];
    assert events' == events + more;
    ProjectionAdvances(job, job', events, more, now, later);
    ObservedGrows(job.progress, job'.progress, events, more);
    hide Projected, Observed, Furthest, Shown;
    ShownGrows(Best(job, events, now), Best(job', events', later));
  }

  /** Neither does it fall below what was observed, or where the furthest stage begins. */
  lemma ProgressKeepsFloor(job: Job, events: seq<Event>, now: real, job': Job, events': seq<Event>, later: real)
    requires IsLater(job, events, now, job', events', later)
    requires ProjectProgress(job, events, now) <= Shown(Max(Observed(job.progress, events), Floor(events)))
    ensures ProjectProgress(job, events, now) <= ProjectProgress(job', events', later)
  {
    var more := events'[|events|..];
    assert events' == events + more;
    ObservedGrows(job.progress, job'.progress, events, more);
    var stage := SelectedStage(job'.status, events');
    ProjectedIsInBand(stage, job', events', later);
    if Furthest(events).Some? {
      FurthestAdvances(events, more);
    }
    hide Projected, Observed, Furthest, Shown;
    assert Max(Observed(job.progress, events), Floor(events)) <= Best(job', events', later);
    ShownGrows(Max(Observed(job.progress, events), Floor(events)), Best(job', events', later));
    hide Band, Floor, Best;
  }

  /** The event that shows less: the furthest stage is first reported with a time now. */
  function Report(events: seq<Event>, now: real): Event {
    Event(Some(if Furthest(events).Some? then Furthest(events).value else Readiness), Some(now), [])
  }

  lemma {:induction false} NothingStarted(events: seq<Event>)
    requires Furthest(events).None?
    ensures StageStart(Readiness, events).None?
  {
    if events != [] {
      NothingStarted(events[..|events| - 1]);
    }
  }

  lemma ReportIsSelected(job: Job, events: seq<Event>, now: real)
    requires !IsAnchored(events)
    ensures var r, events' := Report(events, now), events + [Report(events, now)];
            && Furthest(events') == r.stage && StageStart(r.stage.value, events') == Some(now)
            && Observed(job.progress, events') == Observed(job.progress, events)
  {
    var events' := events + [Report(events, now)];
    assert events'[..|events'| - 1] == events;
    if Furthest(events).None? {
      NothingStarted(events);
    }
  }

  lemma ReportFalls(job: Job, events: seq<Event>, now: real)
    requires IsActive(job) && !IsAnchored(events)
    requires ProjectProgress(job, events, now) > Shown(Max(Observed(job.progress, events), Floor(events)))
    ensures ProjectProgress(job, events + [Report(events, now)], now) < ProjectProgress(job, events, now)
  {
    var events' := events + [Report(events, now)];
    var stage := Report(events, now).stage.value;
    ReportIsSelected(job, events, now);
    hide Furthest, StageStart, Observed, IsAnchored;
    hide Projected, StageDuration, Band, Shown;
    ProjectedAtStart(stage, job, events', now);
    FloorIsBand(events);
  }

  lemma FloorIsBand(events: seq<Event>)
    ensures Floor(events) == Band(Report(events, 0.0).stage.value).0 >= 0.0
  {
  }

  lemma ProjectedAtStart(stage: Stage, job: Job, events: seq<Event>, now: real)
    requires StageStart(stage, events) == Some(now)
    ensures Projected(stage, job, events, now) == Band(stage).0
  {
    var d := StageDuration(stage, job.estimates);
    hide StageDuration;
    assert Tenths(0.0) == 0.0;
    var f := Min(0.95, Elapsed(Some(now), now) / d);
    assert f == 0.0;
    var width := Band(stage).1 - Band(stage).0;
    hide Band;
    assert width * f == 0.0;
  }

  /** Nothing that can follow lowers what is shown exactly when the furthest stage has an event
      with a time, or nothing beyond the observed and the beginning of that stage is shown. */
  lemma NeverFallsExactly(job: Job, events: seq<Event>, now: real)
    requires IsActive(job)
    ensures NeverFalls(job, events, now) <==>
              IsAnchored(events) || ProjectProgress(job, events, now) <= Shown(Max(Observed(job.progress, events), Floor(events)))
  {
    hide ProjectProgress, Observed, Furthest, IsAnchored, Shown;
    if IsAnchored(events) {
      forall job', events', later | IsLater(job, events, now, job', events', later)
        ensures ProjectProgress(job, events, now) <= ProjectProgress(job', events', later)
      {
        ProgressNeverFalls(job, events, now, job', events', later);
      }
    } else if ProjectProgress(job, events, now) <= Shown(Max(Observed(job.progress, events), Floor(events))) {
      forall job', events', later | IsLater(job, events, now, job', events', later)
        ensures ProjectProgress(job, events, now) <= ProjectProgress(job', events', later)
      {
        ProgressKeepsFloor(job, events, now, job', events', later);
      }
    } else {
      ReportFalls(job, events, now);
      assert IsLater(job, events, now, job, events + [Report(events, now)], now);
    }
  }

  /** Before any event of a stage, the stage is guessed from the status, and the first event can
      show less than the guess. */
  lemma GuessedStageCanFall()
    ensures var job := Job(Running, 0.0, Some(0.0), map[]);
            var first := Event(Some(Provisioning), Some(0.0), []);
            ProjectProgress(job, [first], 0.0) < ProjectProgress(job, [], 0.0)
  {
    var job := Job(Running, 0.0, Some(0.0), map[]);
    var first := Event(Some(Provisioning), Some(0.0), []);
    assert [first][..0] == [];
    assert Furthest([]) == None && Furthest([first]) == Some(Provisioning);
    assert StageStart(Provisioning, [first]) == Some(0.0);
    assert Observed(0.0, []) == 0.0 && Observed(0.0, [first]) == 0.0;
    assert Projected(Execution, job, [], 0.0) == 10.0;
    assert Projected(Provisioning, job, [first], 0.0) == 1.0;
  }

  /** A stage event without a time counts from the creation of the job; a later one with a time
      can show less. */
  lemma UntimedStageCanFall()
    ensures var job := Job(Running, 0.0, Some(0.0), map[]);
            var untimed, timed := Event(Some(Execution), None, []), Event(Some(Execution), Some(300.0), []);
            ProjectProgress(job, [untimed, timed], 300.0) < ProjectProgress(job, [untimed], 300.0)
  {
    var job := Job(Running, 0.0, Some(0.0), map[]);
    var untimed, timed := Event(Some(Execution), None, []), Event(Some(Execution), Some(300.0), []);
    assert [untimed][..0] == [] && [untimed, timed][..1] == [untimed];
    assert Furthest([untimed]) == Some(Execution) && Furthest([untimed, timed]) == Some(Execution);
    assert StageStart(Execution, [untimed]) == None && StageStart(Execution, [untimed, timed]) == Some(300.0);
    assert Observed(0.0, [untimed]) == 0.0 && Observed(0.0, [untimed, timed]) == 0.0;
    assert Projected(Execution, job, [untimed], 300.0) == 10.0 + 85.0 * 0.95;
    assert Projected(Execution, job, [untimed, timed], 300.0) == 10.0;
  }
}
