/**
 One conversion job, `FFmpegTask`: `prepare()` derives the output directory, the
 output file and the ffmpeg arguments; `run()` skips the job, or runs ffmpeg and
 reports Done or Failed from how it ended. Everything the job learns from the
 machine (the input's absolute directory, whether a file exists, how the ffmpeg
 process went) comes from an `Environment`.
 */
module Task {
  import opened Wrappers
  import opened Settings
  import opened Paths
  import opened Arguments

  /** What a job reports through `ConvertDone`. */
  datatype Status = Done | Skipped | Failed

  /** A job as constructed: its id, the input file and the chosen output root. */
  datatype Job = Job(id: int, infile: string, outdir: string)

  /** How an ffmpeg process went: it could not be started, and `QProcess` records
      `recordedCode` for it (0 for an empty program name or a failed `CreateProcess` on
      Windows, the status 255 of the child's failed `exec` on Unix); or it ended (normally or
      by crashing) with the exit code `QProcess` records, after running for `durationMs`. */
  datatype ProcessRun =
    | NotStarted(recordedCode: int)
    | Finished(crashed: bool, exitCode: int, durationMs: nat)

  /** The machine a job runs on. */
  datatype Environment = Environment(
    windows: bool,                                  // the `Q_OS_WIN` build
    absoluteDir: string -> string,                  // `QFileInfo(path).absoluteDir().path()`
    fileExists: string -> bool,                     // `QFileInfo(path).exists()`
    process: (string, seq<string>) -> ProcessRun)   // how ffmpeg runs for a program and its arguments

  /** The three things `prepare()` computes. */
  datatype Prepared = Prepared(outdir: string, outfile: string, args: seq<string>)

  /** `prepare()` for an input whose absolute directory is `absDir`. */
  function Prepare(c: Config, job: Job, windows: bool, absDir: string): (p: Prepared)
    ensures |p.outdir| > |job.outdir| && p.outdir[..|job.outdir|] == job.outdir
    ensures !windows && |absDir| > 0 && absDir[0] == '/' ==> p.outdir == job.outdir + absDir
    ensures |p.outfile| > |p.outdir| && p.outfile[..|p.outdir|] == p.outdir
    ensures p.outfile[|p.outdir|] == Separator(windows)
    ensures |p.outfile| > |c.outputFormat| && p.outfile[|p.outfile| - |c.outputFormat|..] == c.outputFormat
    ensures p.outfile[|p.outfile| - |c.outputFormat| - 1] == '.'
    ensures |p.args| >= 5
    ensures p.args[..4] == ["-hide_banner", if c.skipExistingFiles then "-n" else "-y", "-i", job.infile]
    ensures p.args[|p.args| - 1] == p.outfile
    ensures ParseCommandLine(p.args).Some? <==> |job.outdir| == 0 || job.outdir[0] != '-'
    ensures ParseCommandLine(p.args).Some? ==>
      ParseCommandLine(p.args) == Some(Invocation(JobOptions(c, job.infile), p.outfile))
  {
    var name := FileName(job.infile, windows);
    var outdir := OutputDir(job.outdir, absDir, windows);
    ExtensionIsFormatSetting(c.outputFormat);
    var outfile := OutputFile(outdir, name, Extension(FormatOf(c.outputFormat)), windows);
    var args := CommandLine(c, job.infile, outfile);
    assert outfile[0] == if |job.outdir| > 0 then job.outdir[0] else Separator(windows);
    assert (|job.outdir| == 0 || job.outdir[0] != '-') ==>
      ParseCommandLine(args) == Some(Invocation(JobOptions(c, job.infile), outfile)) by {
      if |job.outdir| == 0 || job.outdir[0] != '-' {
        CommandLineParses(c, job.infile, outfile);
      }
    }
    Prepared(outdir, outfile, args)
  }

  /** The output file is exactly the output directory, the platform separator, the input's
      base name, `.` and the format setting: nothing comes between the directory and the name. */
  lemma PrepareOutputFile(c: Config, job: Job, windows: bool, absDir: string)
    ensures var p := Prepare(c, job, windows, absDir);
      p.outfile == p.outdir + [Separator(windows)] + BaseName(FileName(job.infile, windows)) + "." + c.outputFormat
  {
    ExtensionIsFormatSetting(c.outputFormat);
  }

  /** The output file is named after the input: its base name followed by the format
      setting as extension (when that setting names no directory). */
  lemma OutputNamedAfterInput(c: Config, job: Job, windows: bool, absDir: string)
    requires forall i :: 0 <= i < |c.outputFormat| ==> !IsSeparator(c.outputFormat[i], windows)
    ensures var p := Prepare(c, job, windows, absDir);
      FileName(p.outfile, windows) == BaseName(FileName(job.infile, windows)) + "." + c.outputFormat
  {
    var name := FileName(job.infile, windows);
    ExtensionIsFormatSetting(c.outputFormat);
    OutputFileKeepsBaseName(OutputDir(job.outdir, absDir, windows), name, c.outputFormat, windows);
  }

  /** The ffmpeg process a job starts, and the directory it creates first. */
  datatype Launch = Launch(program: string, args: seq<string>, createdDir: string)

  /** What `run()` emits, and the process it started, if any. */
  datatype Outcome = Outcome(id: int, status: Status, launched: Option<Launch>)

  /** `waitForFinished()` with its default argument gives up after 30 000 ms. */
  const WaitLimitMs: nat := 30000

  /** What `exitCode()` returns right after `waitForFinished()`: the recorded code of a
      process that ended within the wait limit or could not start, and for one still
      running `QProcess`'s initial 0. */
  function ExitCodeRead(run: ProcessRun): (r: int)
    ensures run.Finished? && run.durationMs <= WaitLimitMs ==> r == run.exitCode
    ensures run.Finished? && run.durationMs > WaitLimitMs ==> r == 0
    ensures run.NotStarted? ==> r == run.recordedCode
  {
    match run
    case NotStarted(code) => code
    case Finished(_, code, durationMs) => if durationMs <= WaitLimitMs then code else 0
  }

  /** A process that ran to its end by itself and reported success. */
  predicate Converted(run: ProcessRun)
  {
    run.Finished? && !run.crashed && run.exitCode == 0
  }

  /** `run()` as the source writes it: the status follows the exit code read right after
      the bounded wait, so an unstarted or still running ffmpeg reads as 0 and is Done. */
  function RunAsWritten(c: Config, job: Job, env: Environment): (o: Outcome)
    ensures var p := Prepare(c, job, env.windows, env.absoluteDir(job.infile));
      && o.id == job.id
      && (o.status == Skipped <==> c.skipExistingFiles && env.fileExists(p.outfile))
      && (o.launched.None? <==> o.status == Skipped)
      && (o.launched.Some? ==> o.launched.value == Launch(c.ffmpegBinary, p.args, p.outdir))
      && (o.status == Done <==> o.launched.Some? && ExitCodeRead(env.process(c.ffmpegBinary, p.args)) == 0)
  {
    var p := Prepare(c, job, env.windows, env.absoluteDir(job.infile));
    if c.skipExistingFiles && env.fileExists(p.outfile) then
      Outcome(job.id, Skipped, None)
    else
      var exitCode := ExitCodeRead(env.process(c.ffmpegBinary, p.args));
      Outcome(job.id, if exitCode == 0 then Done else Failed, Some(Launch(c.ffmpegBinary, p.args, p.outdir)))
  }

  /** `run()` as intended: a job whose output already exists is skipped when existing files
      are kept; otherwise ffmpeg runs to its end, and only a normal exit with code 0 is Done. */
  function Run(c: Config, job: Job, env: Environment): (o: Outcome)
    ensures var p := Prepare(c, job, env.windows, env.absoluteDir(job.infile));
      var run := env.process(c.ffmpegBinary, p.args);
      && o.id == job.id
      && (o.status == Skipped <==> c.skipExistingFiles && env.fileExists(p.outfile))
      && (o.launched.None? <==> o.status == Skipped)
      && (o.launched.Some? ==> o.launched.value == Launch(c.ffmpegBinary, p.args, p.outdir))
      && (o.status == Done <==> o.launched.Some? && run.Finished? && !run.crashed && run.exitCode == 0)
  {
    var p := Prepare(c, job, env.windows, env.absoluteDir(job.infile));
    if c.skipExistingFiles && env.fileExists(p.outfile) then
      Outcome(job.id, Skipped, None)
    else
      var run := env.process(c.ffmpegBinary, p.args);
      Outcome(job.id, if Converted(run) then Done else Failed, Some(Launch(c.ffmpegBinary, p.args, p.outdir)))
  }

  /** The two readings differ exactly when ffmpeg was launched and its exit code reads
      as 0 although it did not run to a successful end: it never started, it was still
      running when the wait gave up, or it crashed with a recorded code of 0. */
  lemma RunsDifferOnlyWhenMisread(c: Config, job: Job, env: Environment)
    ensures var p := Prepare(c, job, env.windows, env.absoluteDir(job.infile));
      var run := env.process(c.ffmpegBinary, p.args);
      RunAsWritten(c, job, env) != Run(c, job, env) <==>
        !(c.skipExistingFiles && env.fileExists(p.outfile)) && ExitCodeRead(run) == 0 && !Converted(run)
  {
  }

  /** A process `run()` cannot see through: it fails only after the wait has given up on
      it, or it could not start and `QProcess` left its code at 0. */
  predicate Unfinished(run: ProcessRun)
  {
    (run.Finished? && run.durationMs > WaitLimitMs && run.exitCode != 0)
    || (run.NotStarted? && run.recordedCode == 0)
  }

  /** A launched ffmpeg that outlasts the wait, or that could not start with its code left
      at 0, is reported Done by the source although nothing was converted; the intended
      reading reports Failed. */
  lemma UnfinishedReportedDone(c: Config, job: Job, env: Environment)
    requires !c.skipExistingFiles || forall f :: !env.fileExists(f)
    requires forall b, a :: Unfinished(env.process(b, a))
    ensures RunAsWritten(c, job, env).status == Done
    ensures Run(c, job, env).status == Failed
  {
  }

  /** A concrete case: an mp3 conversion that fails with exit code 1 after a minute. */
  lemma SlowFailureReportedDone()
    ensures var c := Config("mp3", "high", "", false, "ffmpeg");
      var job := Job(1, "/music/song.flac", "/out");
      var env := Environment(false, (p: string) => "/music", (p: string) => false,
        (b: string, a: seq<string>) => Finished(false, 1, 60000));
      RunAsWritten(c, job, env).status == Done && Run(c, job, env).status == Failed
  {
  }

  /** Both readings of `run()` skip the same jobs and launch the same process; they differ
      only in the status they report after it. */
  lemma SameLaunch(c: Config, job: Job, env: Environment)
    ensures RunAsWritten(c, job, env).launched == Run(c, job, env).launched
    ensures RunAsWritten(c, job, env).status == Skipped <==> Run(c, job, env).status == Skipped
  {
  }

  /** A launched ffmpeg is told (`-n`) not to replace an existing output. */
  predicate NeverOverwrites(o: Outcome)
  {
    o.launched.None? || (|o.launched.value.args| > 1 && o.launched.value.args[1] == "-n")
  }

  /** With existing files kept, the prepared arguments tell ffmpeg not to overwrite. */
  lemma PreparedKeepsExisting(c: Config, job: Job, windows: bool, absDir: string)
    requires c.skipExistingFiles
    ensures |Prepare(c, job, windows, absDir).args| > 1 && Prepare(c, job, windows, absDir).args[1] == "-n"
  {
    var p := Prepare(c, job, windows, absDir);
    assert p.args[1] == p.args[..4][1];
  }

  /** With existing files kept, nothing is ever overwritten: either the job is skipped,
      or ffmpeg itself is told (`-n`) not to replace an output that appears meanwhile.
      Both readings of `run()` launch the same process, so this holds for each. */
  lemma KeepExistingNeverOverwrites(c: Config, job: Job, env: Environment)
    requires c.skipExistingFiles
    ensures NeverOverwrites(Run(c, job, env))
    ensures NeverOverwrites(RunAsWritten(c, job, env))
  {
    PreparedKeepsExisting(c, job, env.windows, env.absoluteDir(job.infile));
    SameLaunch(c, job, env);
  }

  /** The last argument of a launched ffmpeg lies directly inside the directory created for it. */
  predicate WritesIntoCreatedDir(o: Outcome, windows: bool)
  {
    o.launched.Some? ==>
      var args, dir := o.launched.value.args, o.launched.value.createdDir;
      |args| > 0 && |args[|args| - 1]| > |dir|
      && args[|args| - 1][..|dir|] == dir && args[|args| - 1][|dir|] == Separator(windows)
  }

  /** The directory created before ffmpeg starts is the one the output file is written into. */
  lemma CreatedDirHoldsOutput(c: Config, job: Job, env: Environment)
    ensures WritesIntoCreatedDir(Run(c, job, env), env.windows)
    ensures WritesIntoCreatedDir(RunAsWritten(c, job, env), env.windows)
  {
    assert WritesIntoCreatedDir(Run(c, job, env), env.windows);
    SameLaunch(c, job, env);
  }

  /** Running a batch again with existing files kept skips every job whose output the
      first run wrote: the output path depends only on the settings, the job and the
      input's directory, never on which files exist or how ffmpeg exits. */
  lemma RerunSkipsConverted(c: Config, job: Job, env: Environment, later: Environment)
    requires c.skipExistingFiles
    requires later.windows == env.windows && later.absoluteDir == env.absoluteDir
    ensures var first := Run(c, job, env);
      first.launched.Some? && later.fileExists(first.launched.value.args[|first.launched.value.args| - 1])
      ==> Run(c, job, later).status == Skipped
    ensures var first := RunAsWritten(c, job, env);
      first.launched.Some? && later.fileExists(first.launched.value.args[|first.launched.value.args| - 1])
      ==> RunAsWritten(c, job, later).status == Skipped
  {
    var p := Prepare(c, job, env.windows, env.absoluteDir(job.infile));
    assert Prepare(c, job, later.windows, later.absoluteDir(job.infile)) == p;
    assert Run(c, job, env).launched.Some? ==> Run(c, job, env).launched.value.args == p.args;
    assert Run(c, job, later).status == Skipped <==> later.fileExists(p.outfile);
    SameLaunch(c, job, env);
    SameLaunch(c, job, later);
  }
}
