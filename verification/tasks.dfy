/**
 * internal/task: the service's scheduler set-up and its task functions.
 *
 * The scheduler is the package-level variable the Go code assigns; here InitTask
 * returns it. The task configuration and the cron library's verdict on each
 * expression are parameters.
 */
module Tasks {

  import opened Errs
  import opened ErrorCodes
  import opened Scheduler
  import PhishingSites

  const CronTestName: string := "CronTestTask"
  const LoadName: string := "LoadPhishingSites2CacheTask"
  const OnceTestName: string := "OnceTestTask"

  /**
   * The three task functions as the Go runtime names them: `pkg`, the package
   * path the build reports for this package ("godex/internal/task"), a dot and
   * the function's name.
   */
  function CronTestTaskFunc(pkg: string): TaskFunc { TaskFunc(pkg + "." + CronTestName) }
  function LoadPhishingSites2CacheTaskFunc(pkg: string): TaskFunc { TaskFunc(pkg + "." + LoadName) }
  function OnceTestTaskFunc(pkg: string): TaskFunc { TaskFunc(pkg + "." + OnceTestName) }

  /** The registry registerBusinessTasks fills an empty one with. */
  function BusinessRegistry(pkg: string): (r: map<string, TaskFunc>)
    ensures r.Keys == {"CronTestTask", "LoadPhishingSites2CacheTask", "OnceTestTask"}
  {
    map[CronTestName := CronTestTaskFunc(pkg),
        LoadName := LoadPhishingSites2CacheTaskFunc(pkg),
        OnceTestName := OnceTestTaskFunc(pkg)]
  }

  /** The runtime reports each task function under its own name, so each is
      filed under the key its registration computes. */
  lemma CronTestTaskNamed(pkg: string)
    ensures GetFunctionName(CronTestTaskFunc(pkg)) == CronTestName
  {
    FunctionNameOf(pkg, CronTestName);
  }

  lemma LoadPhishingSites2CacheTaskNamed(pkg: string)
    ensures GetFunctionName(LoadPhishingSites2CacheTaskFunc(pkg)) == LoadName
  {
    FunctionNameOf(pkg, LoadName);
  }

  lemma OnceTestTaskNamed(pkg: string)
    ensures GetFunctionName(OnceTestTaskFunc(pkg)) == OnceTestName
  {
    FunctionNameOf(pkg, OnceTestName);
  }

  /** registerBusinessTasks: registers the three task functions in turn. */
  method RegisterBusinessTasks(s: TaskScheduler, pkg: string)
    modifies s
    ensures s.registry == old(s.registry) + BusinessRegistry(pkg)
    ensures s.cronJobs == old(s.cronJobs) && s.oneShots == old(s.oneShots) && s.running == old(s.running)
  {
    ghost var before := s.registry;
    CronTestTaskNamed(pkg);
    s.RegisterTask(CronTestTaskFunc(pkg));
    LoadPhishingSites2CacheTaskNamed(pkg);
    s.RegisterTask(LoadPhishingSites2CacheTaskFunc(pkg));
    OnceTestTaskNamed(pkg);
    s.RegisterTask(OnceTestTaskFunc(pkg));
    ThreeUpdates(before, CronTestName, CronTestTaskFunc(pkg), LoadName, LoadPhishingSites2CacheTaskFunc(pkg),
                 OnceTestName, OnceTestTaskFunc(pkg));
  }

  /** Three updates in turn add the same entries as a union with their map. */
  lemma ThreeUpdates<K, V>(m: map<K, V>, a: K, x: V, b: K, y: V, c: K, z: V)
    ensures m[a := x][b := y][c := z] == m + map[a := x, b := y, c := z]
  {
  }

  /**
   * InitTask: a new scheduler, the business tasks registered, the configuration
   * loaded, and the scheduler started only when loading succeeded; a loading
   * error is returned as it is.
   */
  method InitTask(pkg: string, configs: seq<TaskConfig>, addFunc: string -> GoError, rc: Retcodes)
    returns (s: TaskScheduler, err: GoError)
    ensures fresh(s)
    ensures s.registry == BusinessRegistry(pkg)
    ensures var k := FirstFailure(BusinessRegistry(pkg), addFunc, configs);
            s.cronJobs == CronOf(BusinessRegistry(pkg), configs[..k]) &&
            s.oneShots == OnceOf(BusinessRegistry(pkg), configs[..k]) &&
            (err == Nil <==> k == |configs|) &&
            (k < |configs| ==> err == AddFailure(configs[k], addFunc, rc))
    ensures s.running <==> err == Nil
  {
    s := new TaskScheduler();
    RegisterBusinessTasks(s, pkg);
    assert s.registry == BusinessRegistry(pkg);
    err := s.LoadTasksFromConfig(configs, addFunc, rc);
    if err != Nil {
      return;
    }
    err := s.Start();
  }

  /**
   * LoadPhishingSites2CacheTask: one cache refresh; its error comes back
   * unchanged, nil on success.
   */
  method LoadPhishingSites2CacheTask(
    cache: PhishingSites.DomainCache, fixed: seq<string>,
    downloadErr: GoError, body: string, decode: string -> PhishingSites.Decoded)
    returns (err: GoError)
    modifies cache
    ensures err == downloadErr
    ensures downloadErr != Nil ==> cache.entries == PhishingSites.FixedPhase(old(cache.entries), fixed)
    ensures downloadErr == Nil ==>
              cache.entries ==
              PhishingSites.RemotePhase(PhishingSites.FixedPhase(old(cache.entries), fixed), decode(body).sites)
  {
    var fixedCount;
    err, fixedCount := PhishingSites.LoadPhishingSites2Cache(cache, fixed, downloadErr, body, decode);
    if err != Nil {
      return err;
    }
    return Nil;
  }

  /** CronTestTask: logs and succeeds. */
  method CronTestTask() returns (err: GoError)
    ensures err == Nil
  {
    err := Nil;
  }

  /** OnceTestTask: logs and succeeds. */
  method OnceTestTask() returns (err: GoError)
    ensures err == Nil
  {
    err := Nil;
  }
}
