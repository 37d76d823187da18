/**
 * The `CronService` of src/services/cronService.js: three scheduled sync
 * jobs (horizons "w1", "w3" and "all") guarded by the flags
 * `isRunning.{w1,w3,all}` and `globalRunning`, so that at most one sync runs
 * at a time.
 *
 * A tick of job k is split into its two halves, `TryStart(k)` (the guard and
 * the flags set before the sync) and `Finish(k)` (the `finally` block), so
 * that ticks of other jobs can interleave between them.
 */
module Cron {
  import opened Wrappers
  import TeamSL
  import Reconciliation

  datatype Job = W1 | W3 | All

  /** The horizon a job's tick passes to `processGamesData`. */
  function Horizon(k: Job): string {
    match k
    case W1 => "w1"
    case W3 => "w3"
    case All => "all"
  }

  /** `isRunning.{w1,w3,all}` and `globalRunning`. */
  datatype Flags = Flags(w1: bool, w3: bool, all: bool, global: bool)

  const Idle: Flags := Flags(false, false, false, false)

  function IsRunning(f: Flags, k: Job): bool {
    match k
    case W1 => f.w1
    case W3 => f.w3
    case All => f.all
  }

  function Mark(f: Flags, k: Job, v: bool): (r: Flags)
    ensures IsRunning(r, k) == v && r.global == f.global
    ensures forall j :: j != k ==> IsRunning(r, j) == IsRunning(f, j)
  {
    match k
    case W1 => f.(w1 := v)
    case W3 => f.(w3 := v)
    case All => f.(all := v)
  }

  /** `isAnyJobRunning()`. */
  predicate AnyRunning(f: Flags) {
    f.w1 || f.w3 || f.all || f.global
  }

  /** At most one job flag is set, and `globalRunning` is set exactly when one is. */
  predicate GuardInv(f: Flags) {
    (f.global <==> f.w1 || f.w3 || f.all) &&
    !(f.w1 && f.w3) && !(f.w1 && f.all) && !(f.w3 && f.all)
  }

  /** The flags after the first half of a tick of `k`, and whether it proceeds to the sync. */
  datatype Entered = Entered(flags: Flags, started: bool)

  /**
   * The guard of a tick: a tick whose own job runs, or while any job runs,
   * changes nothing; otherwise it sets its flag and `globalRunning`.
   */
  function Enter(f: Flags, k: Job): (r: Entered)
    ensures r.started <==> !AnyRunning(f)
    ensures !r.started ==> r.flags == f
    ensures r.started ==>
      IsRunning(r.flags, k) && r.flags.global &&
      forall j :: j != k ==> IsRunning(r.flags, j) == IsRunning(f, j)
  {
    if IsRunning(f, k) then Entered(f, false)
    else if AnyRunning(f) then Entered(f, false)
    else Entered(Mark(f, k, true).(global := true), true)
  }

  /** The `finally` block of a tick of `k`. */
  function Exit(f: Flags, k: Job): (r: Flags)
    ensures !IsRunning(r, k) && !r.global
    ensures forall j :: j != k ==> IsRunning(r, j) == IsRunning(f, j)
  {
    Mark(f, k, false).(global := false)
  }

  /** The guard keeps the flag invariant, and a finishing running job restores it. */
  lemma GuardPreserved(f: Flags, k: Job)
    requires GuardInv(f)
    ensures GuardInv(Enter(f, k).flags)
    ensures IsRunning(f, k) ==> GuardInv(Exit(f, k))
    ensures IsRunning(f, k) ==> Exit(f, k) == Idle
  {
  }

  // ---- interleaved ticks ----------------------------------------------------

  /** One half of a tick. */
  datatype Event = TryStart(job: Job) | Finish(job: Job)

  /** The flags, and the ticks that passed the guard and have not finished yet. */
  datatype Sched = Sched(flags: Flags, inFlight: seq<Job>)

  /** A `Finish` belongs to a tick that passed the guard. */
  predicate Admissible(s: Sched, e: Event) {
    e.Finish? ==> e.job in s.inFlight
  }

  function Remove(xs: seq<Job>, k: Job): (r: seq<Job>)
    ensures forall j :: j in r ==> j in xs
    ensures |xs| == 1 && xs[0] == k ==> r == []
  {
    if xs == [] then []
    else if xs[0] == k then xs[1..]
    else [xs[0]] + Remove(xs[1..], k)
  }

  function Apply(s: Sched, e: Event): Sched {
    match e
    case TryStart(k) =>
      var r := Enter(s.flags, k);
      Sched(r.flags, if r.started then s.inFlight + [k] else s.inFlight)
    case Finish(k) => Sched(Exit(s.flags, k), Remove(s.inFlight, k))
  }

  /**
   * Mutual exclusion: at most one tick is between its guard and its
   * `finally`, its job's flag is the only one set, and `globalRunning` is set
   * exactly while it runs.
   */
  predicate Exclusive(s: Sched) {
    GuardInv(s.flags) && |s.inFlight| <= 1 &&
    (forall k :: IsRunning(s.flags, k) <==> k in s.inFlight) &&
    (s.flags.global <==> |s.inFlight| == 1)
  }

  lemma StepExclusive(s: Sched, e: Event)
    requires Exclusive(s) && Admissible(s, e)
    ensures Exclusive(Apply(s, e))
  {
    match e
    case TryStart(k) =>
      if Enter(s.flags, k).started {
        assert |s.inFlight| == 0;
      }
    case Finish(k) =>
      assert s.inFlight == [k];
      assert Apply(s, e).inFlight == [];
  }

  /** The schedule after a sequence of events. */
  function Replay(s: Sched, es: seq<Event>): Sched
    decreases |es|
  {
    if es == [] then s else Apply(Replay(s, es[..|es| - 1]), es[|es| - 1])
  }

  /** Every `Finish` in the sequence belongs to a tick in flight at that point. */
  predicate AdmissibleTrace(s: Sched, es: seq<Event>)
    decreases |es|
  {
    es == [] ||
    (AdmissibleTrace(s, es[..|es| - 1]) && Admissible(Replay(s, es[..|es| - 1]), es[|es| - 1]))
  }

  /** From idle flags, any interleaving of ticks keeps at most one sync running. */
  lemma {:induction false} ReplayExclusive(es: seq<Event>)
    requires AdmissibleTrace(Sched(Idle, []), es)
    ensures Exclusive(Replay(Sched(Idle, []), es))
    decreases |es|
  {
    if es != [] {
      ReplayExclusive(es[..|es| - 1]);
      StepExclusive(Replay(Sched(Idle, []), es[..|es| - 1]), es[|es| - 1]);
    }
  }

  // ---- the service ------------------------------------------------------------

  /** A scheduled `node-cron` task, by its cron expression. */
  datatype Task = Task(expression: string)

  function Expression(k: Job): string {
    match k
    case W1 => "5,10,20,25,35,40,50,55 7-23 * * *"
    case W3 => "15,45 7-23 * * *"
    case All => "0,30 7-23 * * *"
  }

  /** What `getTeamSLCronJobStatus` reports, without the next run times. */
  datatype Status = Status(isRunning: Flags, globalRunning: bool, anyJobRunning: bool,
                           scheduledW1: bool, scheduledW3: bool, scheduledAll: bool)

  class CronService {
    var w1Running: bool
    var w3Running: bool
    var allRunning: bool
    var globalRunning: bool
    var w1Task: Option<Task>
    var w3Task: Option<Task>
    var allTask: Option<Task>
    /** `teamSLCronJob`, which `stopTeamSLCronJobs` tests and nothing assigns. */
    var teamSLCronJob: Option<Task>

    function Fields(): Flags
      reads this
    {
      Flags(w1Running, w3Running, allRunning, globalRunning)
    }

    predicate Valid()
      reads this
    {
      teamSLCronJob.None?
    }

    constructor ()
      ensures Valid() && Fields() == Idle
      ensures w1Task.None? && w3Task.None? && allTask.None?
    {
      w1Running, w3Running, allRunning, globalRunning := false, false, false, false;
      w1Task, w3Task, allTask := None, None, None;
      teamSLCronJob := None;
    }

    /** `isAnyJobRunning()`. */
    method IsAnyJobRunning() returns (r: bool)
      ensures r == AnyRunning(Fields())
    {
      return w1Running || w3Running || allRunning || globalRunning;
    }

    method SetRunning(k: Job, v: bool)
      modifies this
      ensures Fields() == Mark(old(Fields()), k, v)
      ensures w1Task == old(w1Task) && w3Task == old(w3Task) && allTask == old(allTask)
      ensures teamSLCronJob == old(teamSLCronJob)
    {
      match k
      case W1 => w1Running := v;
      case W3 => w3Running := v;
      case All => allRunning := v;
    }

    /** `setGlobalRunning(running)`. */
    method SetGlobalRunning(running: bool)
      modifies this
      ensures Fields() == old(Fields()).(global := running)
      ensures w1Task == old(w1Task) && w3Task == old(w3Task) && allTask == old(allTask)
      ensures teamSLCronJob == old(teamSLCronJob)
    {
      globalRunning := running;
    }

    /** The first half of a tick of `k`: its two guards, then the flags. */
    method TryStart(k: Job) returns (started: bool)
      modifies this
      ensures Enter(old(Fields()), k) == Entered(Fields(), started)
      ensures w1Task == old(w1Task) && w3Task == old(w3Task) && allTask == old(allTask)
      ensures teamSLCronJob == old(teamSLCronJob)
    {
      if IsRunning(Fields(), k) {
        return false;
      }
      var busy := IsAnyJobRunning();
      if busy {
        return false;
      }
      SetRunning(k, true);
      SetGlobalRunning(true);
      return true;
    }

    /** The `finally` block of a tick of `k`. */
    method Finish(k: Job)
      modifies this
      ensures Fields() == Exit(old(Fields()), k)
      ensures w1Task == old(w1Task) && w3Task == old(w3Task) && allTask == old(allTask)
      ensures teamSLCronJob == old(teamSLCronJob)
    {
      SetRunning(k, false);
      SetGlobalRunning(false);
    }

    /**
     * A whole tick of `k`: when the guard lets it through, `processGamesData`
     * runs with the job's horizon, and the flags are reset whatever its outcome.
     */
    method Tick(k: Job, service: TeamSL.TeamSLService, store: Reconciliation.SyncStore,
                username: Option<string>, password: Option<string>, remote: TeamSL.Remote)
      modifies this, service, store
      ensures var e := Enter(old(Fields()), k);
        Fields() == (if e.started then Exit(e.flags, k) else old(Fields()))
      ensures store.Snapshot() == if Enter(old(Fields()), k).started
        then TeamSL.TablesAfter(old(store.Snapshot()), username, password, remote, Horizon(k))
        else old(store.Snapshot())
      ensures Enter(old(Fields()), k).started ==> service.Fields() == TeamSL.LoggedOut
      ensures w1Task == old(w1Task) && w3Task == old(w3Task) && allTask == old(allTask)
      ensures teamSLCronJob == old(teamSLCronJob)
    {
      var started := TryStart(k);
      if !started {
        return;
      }
      var _ := service.ProcessGamesData(Horizon(k), username, password, remote, store);
      Finish(k);
    }

    /** `startTeamSLCronJobs()`: schedules each job whose slot is still empty. */
    method Start()
      modifies this
      ensures Fields() == old(Fields()) && teamSLCronJob == old(teamSLCronJob)
      ensures w1Task == if old(w1Task).Some? then old(w1Task) else Some(Task(Expression(W1)))
      ensures w3Task == if old(w3Task).Some? then old(w3Task) else Some(Task(Expression(W3)))
      ensures allTask == if old(allTask).Some? then old(allTask) else Some(Task(Expression(All)))
    {
      if w1Task.None? {
        w1Task := Some(Task(Expression(W1)));
      }
      if w3Task.None? {
        w3Task := Some(Task(Expression(W3)));
      }
      if allTask.None? {
        allTask := Some(Task(Expression(All)));
      }
    }

    /**
     * `stopTeamSLCronJobs()`: it tests `teamSLCronJob`, which is never
     * assigned, so it changes nothing; the tasks keep running.
     */
    method Stop()
      modifies this
      ensures old(Valid()) ==> Fields() == old(Fields())
      ensures old(teamSLCronJob).Some? ==> Fields() == old(Fields()).(w1 := false, w3 := false, all := false)
      ensures w1Task == old(w1Task) && w3Task == old(w3Task) && allTask == old(allTask)
      ensures teamSLCronJob == old(teamSLCronJob)
    {
      if teamSLCronJob.Some? {
        // `this.isRunning = false`: every `isRunning.k` reads as undefined.
        w1Running, w3Running, allRunning := false, false, false;
      }
    }

    /** `getTeamSLCronJobStatus()`. */
    method GetStatus() returns (r: Status)
      ensures r.isRunning == Fields() && r.globalRunning == globalRunning
      ensures r.anyJobRunning == AnyRunning(Fields())
      ensures r.scheduledW1 == w1Task.Some? && r.scheduledW3 == w3Task.Some? && r.scheduledAll == allTask.Some?
    {
      var any := IsAnyJobRunning();
      r := Status(Fields(), globalRunning, any, w1Task.Some?, w3Task.Some?, allTask.Some?);
    }
  }
}
