/**
 * internal/serve: the functional options that build a server's settings, the
 * option fold in `NewServe`, the order of the initialisation steps in `Run` and
 * the port choice in `initWeb`.
 *
 * The steps themselves (configuration loading, logger setup, task scheduler,
 * routing, the command line and the HTTP listener) are outside this model: what
 * each returns is a parameter of `Run`.
 */
module Serve {

  import opened Errs
  import opened ErrorCodes

  /** A custom initialisation function, known by a number. */
  type InitFunc = nat

  /** The fields of ServeOptions as a value. */
  datatype Settings = Settings(
    enableConfig: bool, enableLogger: bool, enableController: bool,
    enableWebServer: bool, enableCommand: bool, enableTask: bool,
    configPaths: seq<string>, port: int, customInits: seq<InitFunc>)

  /** The zero value NewServe starts from. */
  const Zero: Settings := Settings(false, false, false, false, false, false, [], 0, [])

  /** The option constructors; each stands for the closure it returns. */
  datatype Option =
    | WithConfig
    | WithLogger
    | WithConfigPaths(paths: seq<string>)
    | WithController
    | WithWebServer
    | WithTask
    | WithPort(port: int)
    | WithCustomInit(init: InitFunc)
    | WithCommandDefault
    | WithWebDefault

  /** What an option's closure does to the settings it is given. */
  function ApplyTo(o: Option, s: Settings): Settings
  {
    match o
    case WithConfig => s.(enableConfig := true)
    case WithLogger => s.(enableLogger := true)
    case WithConfigPaths(paths) => s.(enableConfig := true, configPaths := paths)
    case WithController => s.(enableController := true)
    case WithWebServer => s.(enableWebServer := true)
    case WithTask => s.(enableTask := true)
    case WithPort(p) => s.(port := p)
    case WithCustomInit(f) => s.(customInits := s.customInits + [f])
    case WithCommandDefault => s.(enableConfig := true, enableLogger := true, enableCommand := true)
    case WithWebDefault =>
      s.(enableConfig := true, enableLogger := true, enableController := true,
         enableTask := true, enableWebServer := true)
  }

  /** The options applied in argument order. */
  function Fold(s: Settings, options: seq<Option>): Settings
  {
    if options == [] then s
    else ApplyTo(options[|options| - 1], Fold(s, options[..|options| - 1]))
  }

  // ---------------------------------------------------------------- switches

  /** The on/off switches of ServeOptions. */
  datatype Switch = Config | Logger | Controller | WebServer | Command | Task

  /** Whether a switch is on. */
  predicate IsOn(s: Settings, w: Switch)
  {
    match w
    case Config => s.enableConfig
    case Logger => s.enableLogger
    case Controller => s.enableController
    case WebServer => s.enableWebServer
    case Command => s.enableCommand
    case Task => s.enableTask
  }

  /** The switches each option turns on, as the option constructors document them;
      no option turns a switch off. */
  function TurnsOn(o: Option): set<Switch>
  {
    match o
    case WithConfig => {Config}
    case WithLogger => {Logger}
    case WithConfigPaths(_) => {Config}
    case WithController => {Controller}
    case WithWebServer => {WebServer}
    case WithTask => {Task}
    case WithPort(_) => {}
    case WithCustomInit(_) => {}
    case WithCommandDefault => {Config, Logger, Command}
    case WithWebDefault => {Config, Logger, Controller, Task, WebServer}
  }

  /** The custom init functions an option list adds, in order. */
  function InitsOf(options: seq<Option>): seq<InitFunc>
  {
    if options == [] then []
    else
      var o := options[|options| - 1];
      InitsOf(options[..|options| - 1]) + (if o.WithCustomInit? then [o.init] else [])
  }

  /**
   * One option's whole effect: it turns on the switches TurnsOn names and no
   * other, sets the port only when it is WithPort, the paths only when it is
   * WithConfigPaths, and appends to the init list only when it is WithCustomInit.
   */
  lemma ApplyEffect(o: Option, s: Settings)
    ensures forall w :: IsOn(ApplyTo(o, s), w) <==> IsOn(s, w) || w in TurnsOn(o)
    ensures ApplyTo(o, s).port == if o.WithPort? then o.port else s.port
    ensures ApplyTo(o, s).configPaths == if o.WithConfigPaths? then o.paths else s.configPaths
    ensures ApplyTo(o, s).customInits == s.customInits + InitsOf([o])
  {
    assert [o][..0] == [];
    match o
    case WithConfig =>
    case WithLogger =>
    case WithConfigPaths(_) =>
    case WithController =>
    case WithWebServer =>
    case WithTask =>
    case WithPort(_) =>
    case WithCustomInit(_) =>
    case WithCommandDefault =>
    case WithWebDefault =>
  }

  /** WithWebDefault turns on everything except command mode, which it leaves as it
      was; WithCommandDefault turns on configuration, logger and command mode. */
  lemma DefaultsDiffer(s: Settings)
    ensures var w := ApplyTo(WithWebDefault, s);
            w.enableConfig && w.enableLogger && w.enableController && w.enableTask &&
            w.enableWebServer && w.enableCommand == s.enableCommand
    ensures var c := ApplyTo(WithCommandDefault, s);
            c.enableConfig && c.enableLogger && c.enableCommand &&
            c.enableController == s.enableController && c.enableTask == s.enableTask &&
            c.enableWebServer == s.enableWebServer
  {
    ApplyEffect(WithWebDefault, s);
    ApplyEffect(WithCommandDefault, s);
  }

  /** Folding a concatenation folds the first part, then the second. */
  lemma {:induction false} FoldAppend(s: Settings, a: seq<Option>, b: seq<Option>)
    ensures Fold(s, a + b) == Fold(Fold(s, a), b)
  {
    if b == [] {
      assert a + b == a;
    } else {
      assert (a + b)[..|a + b| - 1] == a + b[..|b| - 1];
      FoldAppend(s, a, b[..|b| - 1]);
    }
  }

  /** After the fold a switch is on exactly when it was on before or some option
      turns it on. */
  lemma {:induction false} FoldSwitches(s: Settings, options: seq<Option>, w: Switch)
    ensures IsOn(Fold(s, options), w) <==>
            IsOn(s, w) || exists j :: 0 <= j < |options| && w in TurnsOn(options[j])
  {
    if options != [] {
      var n := |options| - 1;
      var init := options[..n];
      FoldSwitches(s, init, w);
      ApplyEffect(options[n], Fold(s, init));
      if exists j :: 0 <= j < |options| && w in TurnsOn(options[j]) {
        var j :| 0 <= j < |options| && w in TurnsOn(options[j]);
        if j < n {
          assert init[j] == options[j];
        }
      }
      if exists j :: 0 <= j < n && w in TurnsOn(init[j]) {
        var j :| 0 <= j < n && w in TurnsOn(init[j]);
        assert options[j] == init[j];
      }
    }
  }

  /** The init list grows by the WithCustomInit options, in argument order. */
  lemma {:induction false} FoldInits(s: Settings, options: seq<Option>)
    ensures Fold(s, options).customInits == s.customInits + InitsOf(options)
  {
    if options != [] {
      var n := |options| - 1;
      FoldInits(s, options[..n]);
      ApplyEffect(options[n], Fold(s, options[..n]));
    }
  }

  /** Options that are not WithPort keep the port. */
  lemma {:induction false} FoldKeepsPort(s: Settings, options: seq<Option>)
    requires forall j :: 0 <= j < |options| ==> !options[j].WithPort?
    ensures Fold(s, options).port == s.port
  {
    if options != [] {
      var n := |options| - 1;
      FoldKeepsPort(s, options[..n]);
      ApplyEffect(options[n], Fold(s, options[..n]));
    }
  }

  /** The last WithPort wins. */
  lemma PortOverride(s: Settings, options: seq<Option>, i: nat)
    requires i < |options| && options[i].WithPort?
    requires forall j :: i < j < |options| ==> !options[j].WithPort?
    ensures Fold(s, options).port == options[i].port
  {
    var a, b := options[..i + 1], options[i + 1..];
    assert options == a + b;
    FoldAppend(s, a, b);
    assert a[..i] == options[..i];
    ApplyEffect(options[i], Fold(s, options[..i]));
    FoldKeepsPort(Fold(s, a), b);
  }

  /** Options that are not WithConfigPaths keep the configuration paths. */
  lemma {:induction false} FoldKeepsPaths(s: Settings, options: seq<Option>)
    requires forall j :: 0 <= j < |options| ==> !options[j].WithConfigPaths?
    ensures Fold(s, options).configPaths == s.configPaths
  {
    if options != [] {
      var n := |options| - 1;
      FoldKeepsPaths(s, options[..n]);
      ApplyEffect(options[n], Fold(s, options[..n]));
    }
  }

  /** The last WithConfigPaths wins. */
  lemma PathsOverride(s: Settings, options: seq<Option>, i: nat)
    requires i < |options| && options[i].WithConfigPaths?
    requires forall j :: i < j < |options| ==> !options[j].WithConfigPaths?
    ensures Fold(s, options).configPaths == options[i].paths
  {
    var a, b := options[..i + 1], options[i + 1..];
    assert options == a + b;
    FoldAppend(s, a, b);
    assert a[..i] == options[..i];
    ApplyEffect(options[i], Fold(s, options[..i]));
    FoldKeepsPaths(Fold(s, a), b);
  }

  // ---------------------------------------------------------------- ServeOptions

  /** ServeOptions, the struct the option closures update in place. */
  class ServeOptions {
    var enableConfig: bool
    var enableLogger: bool
    var enableController: bool
    var enableWebServer: bool
    var enableCommand: bool
    var enableTask: bool
    var configPaths: seq<string>
    var port: int
    var customInits: seq<InitFunc>

    function Snapshot(): Settings
      reads this
    {
      Settings(enableConfig, enableLogger, enableController, enableWebServer,
               enableCommand, enableTask, configPaths, port, customInits)
    }

    /** The zero-valued struct. */
    constructor ()
      ensures Snapshot() == Zero
    {
      enableConfig, enableLogger, enableController := false, false, false;
      enableWebServer, enableCommand, enableTask := false, false, false;
      configPaths, port, customInits := [], 0, [];
    }

    /** Runs one option's closure on this struct. */
    method Apply(o: Option)
      modifies this
      ensures Snapshot() == ApplyTo(o, old(Snapshot()))
    {
      match o {
        case WithConfig => enableConfig := true;
        case WithLogger => enableLogger := true;
        case WithConfigPaths(paths) =>
          enableConfig := true;
          configPaths := paths;
        case WithController => enableController := true;
        case WithWebServer => enableWebServer := true;
        case WithTask => enableTask := true;
        case WithPort(p) => port := p;
        case WithCustomInit(f) => customInits := customInits + [f];
        case WithCommandDefault =>
          enableConfig := true;
          enableLogger := true;
          enableCommand := true;
        case WithWebDefault =>
          enableConfig := true;
          enableLogger := true;
          enableController := true;
          enableTask := true;
          enableWebServer := true;
      }
    }
  }

  /** NewServe: a zero-valued ServeOptions with the options applied in order (the
      iris application it also creates is not part of this model). */
  method NewServe(options: seq<Option>) returns (opts: ServeOptions)
    ensures fresh(opts)
    ensures opts.Snapshot() == Fold(Zero, options)
  {
    opts := new ServeOptions();
    var i := 0;
    while i < |options|
      invariant 0 <= i <= |options|
      invariant opts.Snapshot() == Fold(Zero, options[..i])
    {
      opts.Apply(options[i]);
      assert options[..i + 1][..i] == options[..i];
      i := i + 1;
    }
    assert options[..i] == options;
  }

  // ---------------------------------------------------------------- Run

  /** A step of Run. */
  datatype Step =
    | ConfigStep
    | LoggerStep
    | CustomStep(index: nat)
    | TaskStep
    | ControllerStep
    | CommandStep
    | WebStep(port: int)

  /**
   * What the steps return: the logger setup, the custom init functions by their
   * position in the list, the task scheduler, the command line and the listener.
   * initConfiguration and initController always return nil.
   */
  datatype Outcomes = Outcomes(
    logger: GoError, custom: nat -> GoError, task: GoError, command: GoError, web: GoError)

  function Outcome(st: Step, out: Outcomes): GoError
  {
    match st
    case ConfigStep => Nil
    case LoggerStep => out.logger
    case CustomStep(i) => out.custom(i)
    case TaskStep => out.task
    case ControllerStep => Nil
    case CommandStep => out.command
    case WebStep(_) => out.web
  }

  /** initWeb's port: the configured option when positive, else the service port
      from the configuration file. */
  function ChoosePort(optionPort: int, configPort: int): (p: int)
    ensures p > 0 ==> p == optionPort || p == configPort
    ensures optionPort > 0 <==> p == optionPort && p > 0
    ensures optionPort <= 0 ==> p == configPort
  {
    if optionPort > 0 then optionPort else configPort
  }

  /** The custom steps from position `from` on, `count` of them. */
  function CustomRange(from: nat, count: nat): (r: seq<Step>)
    ensures |r| == count && forall i :: 0 <= i < count ==> r[i] == CustomStep(from + i)
  {
    seq(count, i requires 0 <= i => CustomStep(from + i))
  }

  function Customs(n: nat): seq<Step> { CustomRange(0, n) }

  function When(b: bool, st: Step): seq<Step> { if b then [st] else [] }

  /** The steps before the custom inits. */
  function Head(s: Settings): seq<Step>
  {
    When(s.enableConfig, ConfigStep) + When(s.enableLogger, LoggerStep)
  }

  /** The steps after the custom inits: task, controller, then the command line
      or, when command mode is off, the web server. */
  function Tail(s: Settings, configPort: int): seq<Step>
  {
    When(s.enableTask, TaskStep) + When(s.enableController, ControllerStep) + Last(s, configPort)
  }

  /** The last step: the command line in command mode, else the web server when
      it is enabled. */
  function Last(s: Settings, configPort: int): seq<Step>
  {
    if s.enableCommand then [CommandStep]
    else When(s.enableWebServer, WebStep(ChoosePort(s.port, configPort)))
  }

  /** Every step the settings switch on, in the order Run takes them. */
  function Plan(s: Settings, configPort: int): seq<Step>
  {
    Head(s) + Customs(|s.customInits|) + Tail(s, configPort)
  }

  /** The steps before the last one never start the web server nor run the
      command line. */
  lemma FrontSteps(s: Settings)
    ensures forall st ::
              st in (Head(s) + Customs(|s.customInits|) + When(s.enableTask, TaskStep) +
                     When(s.enableController, ControllerStep)) ==>
              !st.WebStep? && st != CommandStep
  {
    var c := Customs(|s.customInits|);
    assert forall st :: st in c ==> st.CustomStep?;
  }

  /** Command mode runs the command line and never starts the web server; without
      it, the web server starts, on the chosen port, exactly when it is enabled. */
  lemma CommandExcludesWeb(s: Settings, configPort: int)
    ensures s.enableCommand ==>
              CommandStep in Plan(s, configPort) && forall st :: st in Plan(s, configPort) ==> !st.WebStep?
    ensures !s.enableCommand ==> CommandStep !in Plan(s, configPort)
    ensures !s.enableCommand && s.enableWebServer ==> WebStep(ChoosePort(s.port, configPort)) in Plan(s, configPort)
    ensures !s.enableCommand && !s.enableWebServer ==> forall st :: st in Plan(s, configPort) ==> !st.WebStep?
  {
    FrontSteps(s);
    var front: seq<Step> := Head(s) + Customs(|s.customInits|) + When(s.enableTask, TaskStep) + When(s.enableController, ControllerStep);
    var last: seq<Step> := if s.enableCommand then [CommandStep]
                           else When(s.enableWebServer, WebStep(ChoosePort(s.port, configPort)));
    assert Plan(s, configPort) == front + last;
  }

  /** The text Run puts in front of a failed initialisation step's error. */
  function WrapText(st: Step): string
  {
    match st
    case ConfigStep => "failed to initialize configuration: "
    case LoggerStep => "failed to initialize logger: "
    case CustomStep(_) => "failed to execute custom initialization: "
    case TaskStep => "failed to initialize task scheduler: "
    case ControllerStep => "failed to initialize controller: "
    case _ => ""
  }

  /** What Run returns when step `st` fails: the command line's and the listener's
      errors as they are, the others wrapped as an InternalError. */
  function Reported(st: Step, out: Outcomes, rc: Retcodes): GoError
  {
    if st.CommandStep? || st.WebStep? then Outcome(st, out)
    else Newf(InternalError(rc), WrapText(st), Outcome(st, out))
  }

  predicate IsPrefix(a: seq<Step>, b: seq<Step>)
  {
    |a| <= |b| && b[..|a|] == a
  }

  /** The first i custom steps followed by the others. */
  lemma CustomsSplit(i: nat, n: nat)
    requires i <= n
    ensures Customs(n) == Customs(i) + CustomRange(i, n - i)
  {
    assert Customs(n) == Customs(i) + CustomRange(i, n - i);
  }

  /** No step in `trace` fails. */
  predicate AllSucceed(trace: seq<Step>, out: Outcomes)
  {
    forall k :: 0 <= k < |trace| ==> Outcome(trace[k], out) == Nil
  }

  /**
   * Running the steps of `plan` in order and stopping at the first that fails
   * takes the steps `trace` and returns `err`: the steps taken are a prefix of
   * the plan, all but the last succeed, nil comes back exactly when the whole
   * plan ran and succeeded, and otherwise the last step failed and `err` is
   * what Run reports for it.
   */
  predicate Stops(plan: seq<Step>, out: Outcomes, rc: Retcodes, err: GoError, trace: seq<Step>)
  {
    IsPrefix(trace, plan) &&
    (forall k :: 0 <= k < |trace| - 1 ==> Outcome(trace[k], out) == Nil) &&
    (err == Nil <==> trace == plan && AllSucceed(trace, out)) &&
    (err != Nil ==>
       0 < |trace| && Outcome(trace[|trace| - 1], out) != Nil &&
       err == Reported(trace[|trace| - 1], out, rc))
  }

  /** A run that stopped on a failure stops the same way inside a longer plan. */
  lemma StopsEarly(a: seq<Step>, b: seq<Step>, out: Outcomes, rc: Retcodes, err: GoError, trace: seq<Step>)
    requires Stops(a, out, rc, err, trace) && err != Nil
    ensures Stops(a + b, out, rc, err, trace)
  {
    assert (a + b)[..|trace|] == a[..|trace|];
    assert !AllSucceed(trace, out) by {
      assert Outcome(trace[|trace| - 1], out) != Nil;
    }
  }

  /** Steps that all succeeded followed by a run of the rest of the plan. */
  lemma StopsAfter(a: seq<Step>, b: seq<Step>, out: Outcomes, rc: Retcodes, err: GoError, trace: seq<Step>)
    requires AllSucceed(a, out) && Stops(b, out, rc, err, trace)
    ensures Stops(a + b, out, rc, err, a + trace)
  {
    assert (a + b)[..|a + trace|] == a + b[..|trace|];
    assert forall k :: |a| <= k < |a + trace| ==> (a + trace)[k] == trace[k - |a|];
    if err != Nil {
      assert (a + trace)[|a + trace| - 1] == trace[|trace| - 1];
      assert !AllSucceed(a + trace, out) by {
        assert Outcome((a + trace)[|a + trace| - 1], out) != Nil;
      }
    } else {
      assert AllSucceed(a + trace, out);
    }
  }

  /** The loop over the custom init functions: stops at the first that fails. */
  method RunCustomInits(n: nat, out: Outcomes, rc: Retcodes) returns (err: GoError, trace: seq<Step>)
    ensures Stops(Customs(n), out, rc, err, trace)
  {
    trace := [];
    var i := 0;
    while i < n
      invariant 0 <= i <= n
      invariant trace == Customs(i)
      invariant AllSucceed(trace, out)
    {
      trace := trace + [CustomStep(i)];
      assert Customs(i + 1) == Customs(i) + [CustomStep(i)];
      CustomsSplit(i + 1, n);
      assert Customs(n)[..i + 1] == trace;
      if out.custom(i) != Nil {
        err := Newf(InternalError(rc), WrapText(CustomStep(i)), out.custom(i));
        assert !AllSucceed(trace, out) by {
          assert Outcome(trace[i], out) != Nil;
        }
        return;
      }
      i := i + 1;
    }
    err := Nil;
  }

  /** The plan as the head steps followed by the rest, and the head as the
      configuration step followed by the logger step. */
  lemma PlanSplits(s: Settings, configPort: int)
    ensures Plan(s, configPort) == Head(s) + (Customs(|s.customInits|) + Tail(s, configPort))
    ensures Plan(s, configPort) ==
            When(s.enableConfig, ConfigStep) + (When(s.enableLogger, LoggerStep) + (Customs(|s.customInits|) + Tail(s, configPort)))
  {
  }

  /** One step run on its own: it fails exactly when its outcome is an error,
      and then its error is reported. */
  lemma StopsAtStep(st: Step, out: Outcomes, rc: Retcodes)
    ensures Stops([st], out, rc, if Outcome(st, out) == Nil then Nil else Reported(st, out, rc), [st])
  {
    if Outcome(st, out) != Nil {
      assert !AllSucceed([st], out) by {
        assert Outcome([st][0], out) != Nil;
      }
    }
  }

  /** The steps after the custom inits: task, controller, then command or web. */
  method RunTail(s: Settings, configPort: int, out: Outcomes, rc: Retcodes) returns (err: GoError, trace: seq<Step>)
    ensures Stops(Tail(s, configPort), out, rc, err, trace)
  {
    var controller := When(s.enableController, ControllerStep);
    var last := Last(s, configPort);
    trace := [];
    if s.enableTask {
      trace := [TaskStep];
      if out.task != Nil {
        err := Newf(InternalError(rc), WrapText(TaskStep), out.task);
        StopsAtStep(TaskStep, out, rc);
        StopsEarly([TaskStep], controller + last, out, rc, err, trace);
        assert [TaskStep] + (controller + last) == Tail(s, configPort);
        return;
      }
    }
    if s.enableController {
      trace := trace + [ControllerStep];
    }
    var front := trace;
    assert front == When(s.enableTask, TaskStep) + controller && AllSucceed(front, out);
    var lastTrace: seq<Step> := [];
    if s.enableCommand {
      lastTrace := [CommandStep];
      err := out.command;
      StopsAtStep(CommandStep, out, rc);
    } else if s.enableWebServer {
      lastTrace := [WebStep(ChoosePort(s.port, configPort))];
      err := out.web;
      StopsAtStep(WebStep(ChoosePort(s.port, configPort)), out, rc);
    } else {
      err := Nil;
    }
    StopsAfter(front, last, out, rc, err, lastTrace);
    trace := front + lastTrace;
  }

  /**
   * Serve.Run: the steps of the Plan in order, stopping at the first that fails.
   * `trace` lists the steps taken, the failed one last. The configuration
   * file's service port is a parameter.
   */
  method Run(opts: ServeOptions, configPort: int, out: Outcomes, rc: Retcodes)
    returns (err: GoError, trace: seq<Step>)
    ensures Stops(Plan(opts.Snapshot(), configPort), out, rc, err, trace)
  {
    var s := opts.Snapshot();
    var config := When(s.enableConfig, ConfigStep);
    var customs := Customs(|s.customInits|);
    var rest := customs + Tail(s, configPort);
    PlanSplits(s, configPort);
    trace := [];
    if s.enableConfig {
      trace := trace + [ConfigStep];
    }
    assert AllSucceed(config, out);
    if s.enableLogger {
      trace := trace + [LoggerStep];
      if out.logger != Nil {
        err := Newf(InternalError(rc), WrapText(LoggerStep), out.logger);
        StopsAtStep(LoggerStep, out, rc);
        StopsEarly([LoggerStep], rest, out, rc, err, [LoggerStep]);
        StopsAfter(config, [LoggerStep] + rest, out, rc, err, [LoggerStep]);
        return;
      }
    }
    var front := trace;
    assert front == Head(s) && AllSucceed(front, out);
    var customErr, customTrace := RunCustomInits(|s.customInits|, out, rc);
    if customErr != Nil {
      StopsEarly(customs, Tail(s, configPort), out, rc, customErr, customTrace);
      StopsAfter(front, rest, out, rc, customErr, customTrace);
      return customErr, trace + customTrace;
    }
    assert customTrace == customs && AllSucceed(customs, out);
    var tailErr, tailTrace := RunTail(s, configPort, out, rc);
    StopsAfter(customs, Tail(s, configPort), out, rc, tailErr, tailTrace);
    StopsAfter(front, rest, out, rc, tailErr, customTrace + tailTrace);
    return tailErr, front + (customTrace + tailTrace);
  }
}
