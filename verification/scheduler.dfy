/**
 * pkg/task: the task registry and the loader that turns task configuration
 * entries into cron jobs and one-shot runs.
 *
 * The cron library is outside this model: whether AddFunc accepts a cron
 * expression is a parameter (the error it returns, nil for an accepted one),
 * and the table is the list of jobs added to it. One-shot tasks run in a
 * goroutine after a delay; here they are the list of runs scheduled.
 */
module Scheduler {

  import opened Errs
  import opened Strings
  import opened ErrorCodes

  /** A task function, known by the name the Go runtime reports for it: the
      package path, a dot, the function's name. */
  datatype TaskFunc = TaskFunc(fullName: string)

  /** One entry of the task configuration. */
  datatype TaskConfig = TaskConfig(
    name: string, enable: bool, once: bool, cron: string, functionName: string, description: string)

  /** The cron spec that asks for a single run. */
  const OnceSpec: string := "@once"

  /** A job in the cron table. */
  datatype CronJob = CronJob(name: string, cron: string, task: TaskFunc)

  /** A scheduled single run. */
  datatype OneShot = OneShot(name: string, task: TaskFunc)

  // ---------------------------------------------------------------- names

  /** getFunctionName: the runtime name after its last dot. */
  function GetFunctionName(f: TaskFunc): (name: string)
    ensures '.' !in name
    ensures HasSuffix(f.fullName, name)
    ensures |name| == |f.fullName| || f.fullName[|f.fullName| - |name| - 1] == '.'
  {
    var parts := Split(f.fullName, '.');
    SplitLast(f.fullName, '.');
    parts[|parts| - 1]
  }

  /** The name of a function in a package is the function's own name, whatever
      dots the package path holds. */
  lemma FunctionNameOf(pkg: string, fn: string)
    requires '.' !in fn
    ensures GetFunctionName(TaskFunc(pkg + "." + fn)) == fn
  {
    var s := pkg + "." + fn;
    var r := GetFunctionName(TaskFunc(s));
    assert s[|pkg|] == '.';
    assert r == s[|s| - |fn|..] == fn;
  }

  // ---------------------------------------------------------------- loading

  /** The entry is enabled and its function is registered. */
  predicate Runnable(registry: map<string, TaskFunc>, c: TaskConfig)
  {
    c.enable && c.functionName in registry
  }

  /** The entry goes to the cron table. */
  predicate CronEntry(registry: map<string, TaskFunc>, c: TaskConfig)
  {
    Runnable(registry, c) && c.cron != OnceSpec
  }

  /** The entry is run once. */
  predicate OnceEntry(registry: map<string, TaskFunc>, c: TaskConfig)
  {
    Runnable(registry, c) && c.cron == OnceSpec
  }

  /** The entry's cron expression is refused. */
  predicate Fails(registry: map<string, TaskFunc>, addFunc: string -> GoError, c: TaskConfig)
  {
    CronEntry(registry, c) && addFunc(c.cron) != Nil
  }

  function JobOf(registry: map<string, TaskFunc>, c: TaskConfig): CronJob
    requires c.functionName in registry
  {
    CronJob(c.name, c.cron, registry[c.functionName])
  }

  function ShotOf(registry: map<string, TaskFunc>, c: TaskConfig): OneShot
    requires c.functionName in registry
  {
    OneShot(c.name, registry[c.functionName])
  }

  /** The position of the first entry whose cron expression is refused, or the
      number of entries when there is none. */
  function FirstFailure(registry: map<string, TaskFunc>, addFunc: string -> GoError, configs: seq<TaskConfig>): (k: nat)
    ensures k <= |configs|
    ensures forall j :: 0 <= j < k ==> !Fails(registry, addFunc, configs[j])
    ensures k < |configs| ==> Fails(registry, addFunc, configs[k])
  {
    if configs == [] then 0
    else if Fails(registry, addFunc, configs[0]) then 0
    else 1 + FirstFailure(registry, addFunc, configs[1..])
  }

  /** The first failure is the only position with no failure before it and a
      failure at it (or the end). */
  lemma FirstFailureUnique(registry: map<string, TaskFunc>, addFunc: string -> GoError, configs: seq<TaskConfig>, k: nat)
    requires k <= |configs|
    requires forall j :: 0 <= j < k ==> !Fails(registry, addFunc, configs[j])
    requires k < |configs| ==> Fails(registry, addFunc, configs[k])
    ensures FirstFailure(registry, addFunc, configs) == k
  {
  }

  /** The cron jobs the entries give, in order. */
  function CronOf(registry: map<string, TaskFunc>, configs: seq<TaskConfig>): seq<CronJob>
  {
    if configs == [] then []
    else
      var c := configs[|configs| - 1];
      CronOf(registry, configs[..|configs| - 1]) + (if CronEntry(registry, c) then [JobOf(registry, c)] else [])
  }

  /** The one-shot runs the entries give, in order. */
  function OnceOf(registry: map<string, TaskFunc>, configs: seq<TaskConfig>): seq<OneShot>
  {
    if configs == [] then []
    else
      var c := configs[|configs| - 1];
      OnceOf(registry, configs[..|configs| - 1]) + (if OnceEntry(registry, c) then [ShotOf(registry, c)] else [])
  }

  /** One more entry adds its job or its one-shot run, if any, at the end. */
  lemma LoadStep(registry: map<string, TaskFunc>, configs: seq<TaskConfig>, i: nat)
    requires i < |configs|
    ensures CronOf(registry, configs[..i + 1]) ==
            CronOf(registry, configs[..i]) +
            (if CronEntry(registry, configs[i]) then [JobOf(registry, configs[i])] else [])
    ensures OnceOf(registry, configs[..i + 1]) ==
            OnceOf(registry, configs[..i]) +
            (if OnceEntry(registry, configs[i]) then [ShotOf(registry, configs[i])] else [])
  {
    assert configs[..i + 1][..i] == configs[..i];
  }

  /** How many entries are enabled and registered. */
  function RunnableCount(registry: map<string, TaskFunc>, configs: seq<TaskConfig>): nat
  {
    if configs == [] then 0
    else
      RunnableCount(registry, configs[..|configs| - 1]) +
      (if Runnable(registry, configs[|configs| - 1]) then 1 else 0)
  }

  /** The error LoadTasksFromConfig returns for a refused entry. */
  function AddFailure(c: TaskConfig, addFunc: string -> GoError, rc: Retcodes): GoError
  {
    Newf(InternalError(rc), "failed to add cron job for task '" + c.name + "': ", addFunc(c.cron))
  }

  /**
   * The cron table gets a job exactly for each enabled, registered entry whose
   * spec is not "@once", with that entry's name, spec and registered function.
   */
  lemma {:induction false} CronOfMembers(registry: map<string, TaskFunc>, configs: seq<TaskConfig>, job: CronJob)
    ensures job in CronOf(registry, configs) <==>
            exists j :: 0 <= j < |configs| && CronEntry(registry, configs[j]) && job == JobOf(registry, configs[j])
  {
    if configs != [] {
      var n := |configs| - 1;
      var init := configs[..n];
      CronOfMembers(registry, init, job);
      if exists j :: 0 <= j < |configs| && CronEntry(registry, configs[j]) && job == JobOf(registry, configs[j]) {
        var j :| 0 <= j < |configs| && CronEntry(registry, configs[j]) && job == JobOf(registry, configs[j]);
        if j < n {
          assert init[j] == configs[j];
        }
      }
      if exists j :: 0 <= j < n && CronEntry(registry, init[j]) && job == JobOf(registry, init[j]) {
        var j :| 0 <= j < n && CronEntry(registry, init[j]) && job == JobOf(registry, init[j]);
        assert configs[j] == init[j];
      }
    }
  }

  /**
   * A one-shot run is scheduled exactly for each enabled, registered entry whose
   * spec is "@once"; the `once` field plays no part.
   */
  lemma {:induction false} OnceOfMembers(registry: map<string, TaskFunc>, configs: seq<TaskConfig>, shot: OneShot)
    ensures shot in OnceOf(registry, configs) <==>
            exists j :: 0 <= j < |configs| && OnceEntry(registry, configs[j]) && shot == ShotOf(registry, configs[j])
  {
    if configs != [] {
      var n := |configs| - 1;
      var init := configs[..n];
      OnceOfMembers(registry, init, shot);
      if exists j :: 0 <= j < |configs| && OnceEntry(registry, configs[j]) && shot == ShotOf(registry, configs[j]) {
        var j :| 0 <= j < |configs| && OnceEntry(registry, configs[j]) && shot == ShotOf(registry, configs[j]);
        if j < n {
          assert init[j] == configs[j];
        }
      }
      if exists j :: 0 <= j < n && OnceEntry(registry, init[j]) && shot == ShotOf(registry, init[j]) {
        var j :| 0 <= j < n && OnceEntry(registry, init[j]) && shot == ShotOf(registry, init[j]);
        assert configs[j] == init[j];
      }
    }
  }

  /** Every enabled, registered entry becomes exactly one cron job or one run. */
  lemma {:induction false} LoadPartition(registry: map<string, TaskFunc>, configs: seq<TaskConfig>)
    ensures |CronOf(registry, configs)| + |OnceOf(registry, configs)| == RunnableCount(registry, configs)
  {
    if configs != [] {
      LoadPartition(registry, configs[..|configs| - 1]);
    }
  }

  /** The `once` flag changes nothing: entries that differ only in it load alike. */
  lemma {:induction false} OnceFlagIgnored(registry: map<string, TaskFunc>, configs: seq<TaskConfig>, flags: seq<bool>)
    requires |flags| == |configs|
    ensures var other := seq(|configs|, i requires 0 <= i < |configs| => configs[i].(once := flags[i]));
            CronOf(registry, other) == CronOf(registry, configs) &&
            OnceOf(registry, other) == OnceOf(registry, configs)
  {
    if configs != [] {
      var n := |configs| - 1;
      var other := seq(|configs|, i requires 0 <= i < |configs| => configs[i].(once := flags[i]));
      OnceFlagIgnored(registry, configs[..n], flags[..n]);
      assert other[..n] == seq(n, i requires 0 <= i < n => configs[..n][i].(once := flags[..n][i]));
    }
  }

  // ---------------------------------------------------------------- scheduler

  /** TaskScheduler: the registry, the cron table and the runs scheduled once. */
  class TaskScheduler {
    var registry: map<string, TaskFunc>
    var cronJobs: seq<CronJob>
    var oneShots: seq<OneShot>
    var running: bool

    /** NewTaskScheduler: an empty registry and table, not started. */
    constructor ()
      ensures registry == map[] && cronJobs == [] && oneShots == [] && !running
    {
      registry, cronJobs, oneShots, running := map[], [], [], false;
    }

    /** RegisterTask: files the function under its name; a later registration
        under the same name replaces the earlier one. */
    method RegisterTask(f: TaskFunc)
      modifies this
      ensures registry == old(registry)[GetFunctionName(f) := f]
      ensures cronJobs == old(cronJobs) && oneShots == old(oneShots) && running == old(running)
    {
      var name := GetFunctionName(f);
      registry := registry[name := f];
    }

    /** GetAvailableTaskNames: every registered name once, in map order. */
    method GetAvailableTaskNames() returns (names: seq<string>)
      ensures |names| == |registry|
      ensures forall k :: k in registry <==> k in names
      ensures forall i, j :: 0 <= i < j < |names| ==> names[i] != names[j]
    {
      names := [];
      var todo := registry.Keys;
      while todo != {}
        invariant todo <= registry.Keys
        invariant forall k :: k in registry ==> (k in names <==> k !in todo)
        invariant forall k :: k in names ==> k in registry
        invariant |names| + |todo| == |registry.Keys|
        invariant forall i, j :: 0 <= i < j < |names| ==> names[i] != names[j]
        decreases todo
      {
        var k :| k in todo;
        names := names + [k];
        todo := todo - {k};
      }
      assert |registry.Keys| == |registry|;
    }

    /** Start: starts the cron runner; it never fails. */
    method Start() returns (err: GoError)
      modifies this
      ensures running && err == Nil
      ensures registry == old(registry) && cronJobs == old(cronJobs) && oneShots == old(oneShots)
    {
      var names := GetAvailableTaskNames();
      running := true;
      err := Nil;
    }

    /** Stop: stops the cron runner. */
    method Stop()
      modifies this
      ensures !running
      ensures registry == old(registry) && cronJobs == old(cronJobs) && oneShots == old(oneShots)
    {
      running := false;
    }

    /**
     * One entry of LoadTasksFromConfig's walk: a disabled or unregistered entry
     * is skipped, an "@once" entry becomes a single run, any other is added to
     * the cron table unless the cron library refuses its expression, whose
     * error is returned with nothing changed.
     */
    method LoadEntry(c: TaskConfig, addFunc: string -> GoError) returns (addErr: GoError)
      modifies this
      ensures registry == old(registry) && running == old(running)
      ensures addErr != Nil <==> Fails(registry, addFunc, c)
      ensures addErr != Nil ==>
                addErr == addFunc(c.cron) && cronJobs == old(cronJobs) && oneShots == old(oneShots)
      ensures addErr == Nil ==>
                cronJobs == old(cronJobs) + (if CronEntry(registry, c) then [JobOf(registry, c)] else []) &&
                oneShots == old(oneShots) + (if OnceEntry(registry, c) then [ShotOf(registry, c)] else [])
    {
      if !c.enable {
        return Nil;
      }
      if c.functionName !in registry {
        return Nil;
      }
      var task := registry[c.functionName];
      if c.cron == OnceSpec {
        oneShots := oneShots + [OneShot(c.name, task)];
        return Nil;
      }
      addErr := addFunc(c.cron);
      if addErr != Nil {
        return;
      }
      cronJobs := cronJobs + [CronJob(c.name, c.cron, task)];
    }

    /**
     * LoadTasksFromConfig: walks the entries in order, skipping disabled ones and
     * those whose function is not registered, scheduling "@once" entries as
     * single runs and adding the others to the cron table; the first refused
     * cron expression ends the walk with an error.
     */
    method LoadTasksFromConfig(configs: seq<TaskConfig>, addFunc: string -> GoError, rc: Retcodes)
      returns (err: GoError)
      modifies this
      ensures registry == old(registry) && running == old(running)
      ensures var k := FirstFailure(registry, addFunc, configs);
              cronJobs == old(cronJobs) + CronOf(registry, configs[..k]) &&
              oneShots == old(oneShots) + OnceOf(registry, configs[..k]) &&
              (err == Nil <==> k == |configs|) &&
              (k < |configs| ==> err == AddFailure(configs[k], addFunc, rc))
    {
      var i := 0;
      while i < |configs|
        invariant 0 <= i <= |configs|
        invariant registry == old(registry) && running == old(running)
        invariant forall j :: 0 <= j < i ==> !Fails(registry, addFunc, configs[j])
        invariant cronJobs == old(cronJobs) + CronOf(registry, configs[..i])
        invariant oneShots == old(oneShots) + OnceOf(registry, configs[..i])
      {
        LoadStep(registry, configs, i);
        var addErr := LoadEntry(configs[i], addFunc);
        if addErr != Nil {
          FirstFailureUnique(registry, addFunc, configs, i);
          return Newf(InternalError(rc), "failed to add cron job for task '" + configs[i].name + "': ", addErr);
        }
        i := i + 1;
      }
      FirstFailureUnique(registry, addFunc, configs, i);
      assert configs[..i] == configs;
      err := Nil;
    }
  }
}
