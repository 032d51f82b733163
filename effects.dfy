/**
 * The outside world the two `systemctl` controllers act on. Nothing here is
 * executed: files are an abstract set of existing paths, every effect a
 * controller attempts is recorded in a log, and whatever the operating
 * system would decide (an I/O error, what `systemctl` prints and how it
 * exits) is an oracle the model is given.
 */
module Effects {
  import opened Wrappers
  import opened Primitives

  /** One effect a controller attempts. */
  datatype Step =
    | CreateFile(path: Path)
    | WriteFile(path: Path, contents: string)
    | SetPermissions(path: Path, mode: nat)
    | RemoveFile(path: Path)
    | Systemctl(args: seq<string>)

  /** What a finished `systemctl` process reports: exit success, stdout, stderr. */
  datatype Output = Output(success: bool, stdout: string, stderr: string)

  /**
   * The oracles: the I/O error (as its rendered text) a step raises, `None`
   * when it goes through (for a command: when the process could be spawned),
   * and what `systemctl` answers to an argument list.
   */
  datatype World = World(fails: Step -> Option<string>, answer: seq<string> -> Output)

  /** The effect of a step that went through on the set of existing files. */
  function Effect(files: set<Path>, step: Step): (r: set<Path>)
    ensures step.CreateFile? ==> r == files + {step.path}
    ensures step.RemoveFile? ==> r == files - {step.path}
    ensures !step.CreateFile? && !step.RemoveFile? ==> r == files
  {
    match step
    case CreateFile(p) => files + {p}
    case RemoveFile(p) => files - {p}
    case _ => files
  }

  /** The files after a sequence of attempted steps; a step that failed changed nothing. */
  function Apply(w: World, files: set<Path>, steps: seq<Step>): set<Path> {
    if |steps| == 0 then files
    else
      var before := Apply(w, files, steps[..|steps| - 1]);
      var last := steps[|steps| - 1];
      if w.fails(last).None? then Effect(before, last) else before
  }

  /** A step that touches no file leaves the set of files as it was. */
  predicate Harmless(step: Step) {
    step.Systemctl? || step.WriteFile? || step.SetPermissions?
  }

  lemma {:induction false} HarmlessStepsKeepFiles(w: World, files: set<Path>, steps: seq<Step>)
    requires forall i :: 0 <= i < |steps| ==> Harmless(steps[i])
    ensures Apply(w, files, steps) == files
  {
    if |steps| > 0 {
      HarmlessStepsKeepFiles(w, files, steps[..|steps| - 1]);
    }
  }

  lemma {:induction false} ApplyAppend(w: World, files: set<Path>, a: seq<Step>, b: seq<Step>)
    ensures Apply(w, files, a + b) == Apply(w, Apply(w, files, a), b)
    decreases |b|
  {
    if |b| == 0 {
      assert a + b == a;
    } else {
      assert (a + b)[..|a + b| - 1] == a + b[..|b| - 1];
      ApplyAppend(w, files, a, b[..|b| - 1]);
    }
  }

  // ---------------------------------------------------------------------------
  // Plans: fixed sequences of steps with an early return at the first failure
  // ---------------------------------------------------------------------------

  /**
   * One step of a plan and the error reported when it fails: `raised` builds
   * the error from an I/O failure, `exitFailure`, when the source checks the
   * exit status of a command, builds it from that command's stderr.
   */
  datatype Attempt<E> = Attempt(step: Step, raised: string -> E, exitFailure: Option<string -> E>)

  /** The error a step of a plan ends the plan with, if any. */
  function Outcome<E>(w: World, a: Attempt<E>): Option<E> {
    if w.fails(a.step).Some? then Some(a.raised(w.fails(a.step).value))
    else if a.step.Systemctl? && a.exitFailure.Some? && !w.answer(a.step.args).success then
      Some(a.exitFailure.value(w.answer(a.step.args).stderr))
    else None
  }

  /** The steps a controller operation attempted and what it returned. */
  datatype Run<T, E> = Run(steps: seq<Step>, result: Result<T, E>)

  /** The steps of a plan, in order. */
  function Steps<E>(plan: seq<Attempt<E>>): (r: seq<Step>)
    ensures |r| == |plan| && forall i :: 0 <= i < |plan| ==> r[i] == plan[i].step
  {
    if |plan| == 0 then [] else [plan[0].step] + Steps(plan[1..])
  }

  /** A plan run with `?`-style early returns. */
  function Execute<E>(w: World, plan: seq<Attempt<E>>): Run<(), E> {
    if |plan| == 0 then Run([], Ok(()))
    else match Outcome(w, plan[0])
      case Some(e) => Run([plan[0].step], Err(e))
      case None =>
        var rest := Execute(w, plan[1..]);
        Run([plan[0].step] + rest.steps, rest.result)
  }

  /**
   * When step `k` is the first to fail, exactly the steps up to and including
   * it are attempted and its error is returned: nothing happens after a failure.
   */
  lemma {:induction false} ExecuteStopsAtFirstFailure<E>(w: World, plan: seq<Attempt<E>>, k: nat)
    requires k < |plan| && Outcome(w, plan[k]).Some?
    requires forall j :: 0 <= j < k ==> Outcome(w, plan[j]).None?
    ensures Execute(w, plan).steps == Steps(plan)[..k + 1]
    ensures Execute(w, plan).result == Err(Outcome(w, plan[k]).value)
  {
    if k > 0 {
      assert Outcome(w, plan[0]).None?;
      forall j | 0 <= j < k - 1 ensures Outcome(w, plan[1..][j]).None? {
        assert plan[1..][j] == plan[j + 1];
      }
      ExecuteStopsAtFirstFailure(w, plan[1..], k - 1);
      assert Steps(plan)[..k + 1] == [plan[0].step] + Steps(plan[1..])[..k];
    }
  }

  /** When no step fails, every step is attempted, in order, and the plan returns `Ok`. */
  lemma {:induction false} ExecuteCompletes<E>(w: World, plan: seq<Attempt<E>>)
    requires forall j :: 0 <= j < |plan| ==> Outcome(w, plan[j]).None?
    ensures Execute(w, plan) == Run(Steps(plan), Ok(()))
  {
    if |plan| > 0 {
      forall j | 0 <= j < |plan| - 1 ensures Outcome(w, plan[1..][j]).None? {
        assert plan[1..][j] == plan[j + 1];
      }
      ExecuteCompletes(w, plan[1..]);
    }
  }

  /** A plan succeeds exactly when none of its steps fails. */
  lemma {:induction false} ExecuteOkIffNoFailure<E>(w: World, plan: seq<Attempt<E>>)
    ensures Execute(w, plan).result.Ok? <==> forall j :: 0 <= j < |plan| ==> Outcome(w, plan[j]).None?
  {
    if |plan| > 0 {
      ExecuteOkIffNoFailure(w, plan[1..]);
      if Outcome(w, plan[0]).None? {
        if forall j :: 0 <= j < |plan| - 1 ==> Outcome(w, plan[1..][j]).None? {
          forall j | 0 <= j < |plan| ensures Outcome(w, plan[j]).None? {
            if j > 0 {
              assert plan[j] == plan[1..][j - 1];
            }
          }
        } else {
          var j :| 0 <= j < |plan| - 1 && Outcome(w, plan[1..][j]).Some?;
          assert plan[1..][j] == plan[j + 1];
        }
      }
    }
  }

  // ---------------------------------------------------------------------------
  // The host the controllers change
  // ---------------------------------------------------------------------------

  /** The machine as the controllers see it: existing files and the log of attempted steps. */
  class Host {
    var files: set<Path>
    var log: seq<Step>
    const world: World

    constructor (world: World, files: set<Path>)
      ensures this.world == world && this.files == files && log == []
    {
      this.world := world;
      this.files := files;
      log := [];
    }

    /** Attempts one step: it is logged, and takes effect unless the world makes it fail. */
    method Do(step: Step) returns (err: Option<string>)
      modifies this
      ensures err == world.fails(step)
      ensures log == old(log) + [step]
      ensures files == (if err.None? then Effect(old(files), step) else old(files))
    {
      err := world.fails(step);
      log := log + [step];
      if err.None? {
        files := Effect(files, step);
      }
    }

    /**
     * Runs `systemctl` with the given arguments: `Err` with the I/O error when
     * the process cannot be spawned (`output()?`), its output otherwise.
     */
    method Run(args: seq<string>) returns (r: Result<Output, string>)
      modifies this
      ensures world.fails(Systemctl(args)).Some? ==> r == Err(world.fails(Systemctl(args)).value)
      ensures world.fails(Systemctl(args)).None? ==> r == Ok(world.answer(args))
      ensures log == old(log) + [Systemctl(args)]
      ensures files == old(files)
    {
      var err := Do(Systemctl(args));
      if err.Some? {
        return Err(err.value);
      }
      return Ok(world.answer(args));
    }

    /** Attempts one step of a plan and reports the error that ends the plan, if any. */
    method Try<E>(a: Attempt<E>) returns (r: Option<E>)
      modifies this
      ensures r == Outcome(world, a)
      ensures log == old(log) + [a.step]
      ensures files == Apply(world, old(files), [a.step])
    {
      var err := Do(a.step);
      assert [a.step][..0] == [];
      if err.Some? {
        return Some(a.raised(err.value));
      }
      if a.step.Systemctl? && a.exitFailure.Some? && !world.answer(a.step.args).success {
        return Some(a.exitFailure.value(world.answer(a.step.args).stderr));
      }
      return None;
    }

    /**
     * Runs a plan the way a chain of `?` does: each step in turn, returning
     * the error of the first one that fails.
     */
    method Perform<E>(plan: seq<Attempt<E>>) returns (r: Result<(), E>)
      modifies this
      ensures r == Execute(world, plan).result
      ensures log == old(log) + Execute(world, plan).steps
      ensures files == Apply(world, old(files), Execute(world, plan).steps)
      decreases |plan|
    {
      if |plan| == 0 {
        return Ok(());
      }
      ghost var files0 := files;
      var e := Try(plan[0]);
      if e.Some? {
        return Err(e.value);
      }
      r := Perform(plan[1..]);
      ApplyAppend(world, files0, [plan[0].step], Execute(world, plan[1..]).steps);
    }
  }
}
