/** `_run_subprocess_command` and `run_program`: the handler as it acts on the
    machine. The machine is a `Host` object. The handler updates three of its
    fields in place: the current directory (changed for MGLTools and changed
    back), the paths that exist (changed by each process run and by the
    clean-up of the temporary file), and the log of the processes started. The
    fourth, the parsed configuration files, is only read. What a process does is not modelled: each run is given
    as a `ProcessRun`, its exit (or its time-out) and the paths that exist
    when it is over. */
module Handler {
  import opened Outcomes
  import opened Paths
  import opened Commands
  import opened Conversion
  import opened CommandProperties

  /** The end of one `subprocess.run`: an exit status, or the time-out firing,
      with the paths that exist afterwards. */
  datatype ProcessRun =
    | Exited(code: int, after: set<string>)
    | TimedOut(after: set<string>)

  /** One process the handler started: the command given to the shell, the
      directory it ran in and its time-out in seconds (none for the
      conversion). */
  datatype Launch = Launch(command: string, dir: string, timeout: Option<int>)

  /** The command `_run_subprocess_command` runs and the directory it runs it
      in, once the MGLTools directory change and rebuild are done. */
  datatype Prepared = Prepared(command: string, dir: string)

  /** The time-out in seconds: the caller's when given, else 30 minutes for
      PDB2PQR and 5 minutes for every other tool. */
  function Timeout(tool: string, timeout: Option<int>): (t: int)
    ensures timeout.Some? ==> t == timeout.value
    ensures timeout.None? ==> (t == 1800 <==> tool == Pdb2Pqr) && (t == 300 <==> tool != Pdb2Pqr)
  {
    match timeout
    case Some(s) => s
    case None => if tool == Pdb2Pqr then 1800 else 300
  }

  /** What a finished run amounts to: a time-out raises `TimeoutExpired`; a
      non-zero exit raises `CalledProcessError` unless the tool is MolProbity
      and the output exists anyway; otherwise the result says whether the
      output file exists. */
  function RunOutcome(tool: string, run: ProcessRun, outputExists: bool, t: int): (r: Result<bool>)
    ensures r.Ok? ==> r.value == outputExists
    ensures r.Ok? <==> run.Exited? && (run.code == 0 || (tool == MolProbity && outputExists))
    ensures run.TimedOut? ==> r == Raised(TimeoutExpired(t))
    ensures run.Exited? && r.Raised? ==> r == Raised(CalledProcessError(run.code))
  {
    match run
    case TimedOut(_) => Raised(TimeoutExpired(t))
    case Exited(code, _) =>
      if code == 0 then Ok(outputExists)
      else if tool == MolProbity && outputExists then Ok(true)
      else Raised(CalledProcessError(code))
  }

  /** The step of `_run_subprocess_command` before the run: for MGLTools, the
      change into the input's directory (which raises when it is missing)
      and the command rebuilt there from the bare file names with pH 7.4;
      every other tool runs the command it was given where it is. */
  function Prepare(tool: string, command: string, absIn: string, absOut: string,
                   configFile: string, d: Disk): (r: Result<Prepared>)
    ensures tool != MglTools ==> r == Ok(Prepared(command, d.cwd))
    ensures tool == MglTools && Dirname(absIn) != "" && Resolve(d.cwd, Dirname(absIn)) !in d.paths
            ==> r == Raised(FileNotFound(Dirname(absIn)))
    ensures r.Ok? && tool == MglTools ==> r.value.dir == if Dirname(absIn) == "" then d.cwd else Resolve(d.cwd, Dirname(absIn))
  {
    if tool != MglTools then Ok(Prepared(command, d.cwd))
    else
      var dir := Dirname(absIn);
      if dir != "" && Resolve(d.cwd, dir) !in d.paths then Raised(FileNotFound(dir))
      else
        var there := if dir != "" then d.(cwd := Resolve(d.cwd, dir)) else d;
        match ConstructShellCommand(MglTools, Basename(absIn), Basename(absOut), "7.4", configFile, there)
        case Raised(e) => Raised(e)
        case Ok(c) => Ok(Prepared(c.GetOr(command), there.cwd))
  }

  /** With absolute paths and an absolute configuration, the MGLTools command
      rebuilt in the input's directory is the command `run_program` built:
      the directory change alters where the tool runs, not what it runs. */
  lemma MglRunsBuiltCommand(absIn: string, absOut: string, pH: string, configFile: string, d: Disk)
    requires IsAbs(absIn) && IsAbs(absOut) && AbsoluteMglConfig(configFile, d)
    ensures var built := ConstructShellCommand(MglTools, absIn, absOut, pH, configFile, d);
            built.Ok? && (Dirname(absIn) == "" || Resolve(d.cwd, Dirname(absIn)) in d.paths)
            ==> var p := Prepare(MglTools, built.value.GetOr(""), absIn, absOut, configFile, d);
                p.Ok? && Some(p.value.command) == built.value
  {
    var dir := Dirname(absIn);
    var there := if dir != "" then d.(cwd := Resolve(d.cwd, dir)) else d;
    MglRebuildAgrees(absIn, absOut, pH, configFile, d, there.cwd);
    assert there == d.(cwd := there.cwd);
  }

  /** Whether `run_program` converts the input first: MGLTools on a `pqr` input. */
  predicate Converts(tool: string, absIn: string)
  {
    tool == MglTools && Extension(absIn) == "pqr"
  }

  /** The disk once the conversion (if any) is over. */
  function AfterConversion(tool: string, absIn: string, conversion: ProcessRun, d: Disk): Disk
  {
    if Converts(tool, absIn) then d.(paths := conversion.after) else d
  }

  /** The input handed on to the tool: the temporary PDB file when the
      conversion exited with status 0 and left that file, else the input. */
  function ToolInput(tool: string, absIn: string, conversion: ProcessRun, d: Disk): (input: string)
    ensures input == absIn || (Converts(tool, absIn) && input == TempPath(absIn))
  {
    if Converts(tool, absIn) && conversion.Exited? && conversion.code == 0
       && FileExists(TempPath(absIn), AfterConversion(tool, absIn, conversion, d))
    then TempPath(absIn)
    else absIn
  }

  /** The input is replaced only after a conversion that exited with status 0
      and left the temporary file; when the temporary path differs from the
      input, such a conversion always replaces it. */
  lemma ToolInputAfterCleanConversion(tool: string, absIn: string, conversion: ProcessRun, d: Disk)
    ensures var input := ToolInput(tool, absIn, conversion, d);
            input != absIn ==>
              conversion.Exited? && conversion.code == 0
              && FileExists(input, AfterConversion(tool, absIn, conversion, d))
    ensures TempPath(absIn) != absIn ==>
              (ToolInput(tool, absIn, conversion, d) == TempPath(absIn) <==>
                 Converts(tool, absIn) && conversion.Exited? && conversion.code == 0
                 && FileExists(TempPath(absIn), AfterConversion(tool, absIn, conversion, d)))
  {
  }

  /** The conversion's entry in the log, when there is one. */
  function ConversionLaunches(tool: string, absIn: string, cwd: string): seq<Launch>
  {
    if Converts(tool, absIn) then [Launch(ConversionCommand(absIn, TempPath(absIn)), cwd, None)] else []
  }

  class Host {
    var cwd: string
    var paths: set<string>
    var json: map<string, map<string, string>>
    var launched: seq<Launch>

    /** `os.getcwd()` is always an absolute path. */
    predicate Valid()
      reads this
    {
      IsAbs(cwd)
    }

    /** The machine as `construct_shell_command` reads it. */
    function View(): Disk
      reads this
    {
      Disk(cwd, paths, json)
    }

    constructor(cwd0: string, paths0: set<string>, json0: map<string, map<string, string>>)
      requires IsAbs(cwd0)
      ensures Valid()
      ensures cwd == cwd0 && paths == paths0 && json == json0 && launched == []
    {
      cwd := cwd0;
      paths := paths0;
      json := json0;
      launched := [];
    }

    /** `subprocess.run(command, shell=True, …)`: the process is logged and the
        paths become what the run left behind. */
    method Start(command: string, timeout: Option<int>, run: ProcessRun)
      modifies this
      ensures launched == old(launched) + [Launch(command, cwd, timeout)]
      ensures paths == run.after
      ensures cwd == old(cwd) && json == old(json)
    {
      launched := launched + [Launch(command, cwd, timeout)];
      paths := run.after;
    }

    /** `_run_subprocess_command`: prepare the command, run it with its
        time-out, judge the run, and always come back to the directory it
        started in. */
    method RunSubprocessCommand(tool: string, command: string, absIn: string, absOut: string,
                                configFile: string, timeout: Option<int>, run: ProcessRun)
      returns (r: Result<bool>)
      requires Valid()
      modifies this
      ensures Valid()
      ensures cwd == old(cwd) && json == old(json)
      ensures var p := Prepare(tool, command, absIn, absOut, configFile, old(View()));
              if p.Raised? then
                r == Raised(p.error) && launched == old(launched) && paths == old(paths)
              else
                launched == old(launched) + [Launch(p.value.command, p.value.dir, Some(Timeout(tool, timeout)))]
                && paths == run.after
                && r == RunOutcome(tool, run, FileExists(absOut, Disk(p.value.dir, run.after, json)),
                                   Timeout(tool, timeout))
    {
      var originalCwd := cwd;
      var t: int;
      if timeout.None? {
        if tool == Pdb2Pqr {
          t := 1800;
        } else {
          t := 300;
        }
      } else {
        t := timeout.value;
      }
      var cmd := command;
      if tool == MglTools {
        var inputDir := Dirname(absIn);
        if inputDir != "" {
          if Resolve(cwd, inputDir) !in paths {
            r := Raised(FileNotFound(inputDir));
            return;
          }
          cwd := Resolve(cwd, inputDir);
        }
        var rebuilt := ConstructShellCommand(tool, Basename(absIn), Basename(absOut), "7.4", configFile, View());
        if rebuilt.Raised? {
          cwd := originalCwd;
          r := Raised(rebuilt.error);
          return;
        }
        cmd := rebuilt.value.value;
      }
      Start(cmd, Some(t), run);
      var outputExists := FileExists(absOut, View());
      if run.TimedOut? {
        r := Raised(TimeoutExpired(t));
      } else if run.code != 0 {
        if tool == MolProbity && outputExists {
          r := Ok(true);
        } else {
          r := Raised(CalledProcessError(run.code));
        }
      } else {
        r := Ok(outputExists);
      }
      cwd := originalCwd;
    }

    /** The conversion step of `run_program`: for MGLTools on a `pqr` input,
        OpenBabel converts the input into the temporary file, and the
        temporary file is used when the conversion exited with status 0 and
        the file exists; any failure leaves the original input in use. */
    method ConvertInput(tool: string, absIn: string, conversion: ProcessRun) returns (input: string)
      modifies this
      ensures input == ToolInput(tool, absIn, conversion, old(View()))
      ensures View() == AfterConversion(tool, absIn, conversion, old(View()))
      ensures launched == old(launched) + ConversionLaunches(tool, absIn, old(cwd))
    {
      input := absIn;
      if tool == MglTools && Extension(absIn) == "pqr" {
        var temp := TempPath(absIn);
        Start(ConversionCommand(absIn, temp), None, conversion);
        if conversion.Exited? && conversion.code == 0 && FileExists(temp, View()) {
          input := temp;
        }
      }
    }

    /** The clean-up of `run_program`: the temporary file of a converted
        input is removed when it exists. */
    method RemoveTemp(tool: string, absIn: string)
      modifies this
      ensures paths == if Converts(tool, absIn) && FileExists(TempPath(absIn), old(View()))
                       then old(paths) - {Resolve(cwd, TempPath(absIn))}
                       else old(paths)
      ensures cwd == old(cwd) && json == old(json) && launched == old(launched)
    {
      if tool == MglTools && Extension(absIn) == "pqr" && FileExists(TempPath(absIn), View()) {
        paths := paths - {Resolve(cwd, TempPath(absIn))};
      }
    }

    /** The rest of `run_program` once the input is settled: build the
        command (no command for the tool raises `ValueError`), run it, and on
        a normal return remove the temporary file if it exists. */
    method BuildAndRun(tool: string, absIn: string, input: string, absOut: string, pH: string,
                       configFile: string, timeout: Option<int>, run: ProcessRun)
      returns (r: Result<bool>)
      requires Valid() && IsAbs(absOut)
      modifies this
      ensures Valid()
      ensures cwd == old(cwd) && json == old(json)
      ensures r == Ok(true) ==>
                FileExists(absOut, View())
                || (Converts(tool, absIn) && absOut == Resolve(cwd, TempPath(absIn)))
      ensures var built := ConstructShellCommand(tool, input, absOut, pH, configFile, old(View()));
              if built.Raised? then
                r == Raised(built.error) && launched == old(launched) && paths == old(paths)
              else if built.value.None? then
                r == Raised(ValueError(tool)) && launched == old(launched) && paths == old(paths)
              else
                var p := Prepare(tool, built.value.value, input, absOut, configFile, old(View()));
                if p.Raised? then
                  r == Raised(p.error) && launched == old(launched) && paths == old(paths)
                else
                  launched == old(launched) + [Launch(p.value.command, p.value.dir, Some(Timeout(tool, timeout)))]
                  && r == RunOutcome(tool, run, FileExists(absOut, Disk(p.value.dir, run.after, json)),
                                     Timeout(tool, timeout))
                  && paths == if r.Ok? && Converts(tool, absIn)
                                 && FileExists(TempPath(absIn), Disk(cwd, run.after, json))
                              then run.after - {Resolve(cwd, TempPath(absIn))}
                              else run.after
    {
      var command := ConstructShellCommand(tool, input, absOut, pH, configFile, View());
      if command.Raised? {
        r := Raised(command.error);
        return;
      }
      if command.value.None? {
        r := Raised(ValueError(tool));
        return;
      }
      r := RunAndCleanUp(tool, absIn, command.value.value, input, absOut, configFile, timeout, run);
    }

    /** Run a built command and, on a normal return, remove the temporary
        file if it exists. */
    method RunAndCleanUp(tool: string, absIn: string, command: string, input: string, absOut: string,
                         configFile: string, timeout: Option<int>, run: ProcessRun)
      returns (r: Result<bool>)
      requires Valid() && IsAbs(absOut)
      modifies this
      ensures Valid()
      ensures cwd == old(cwd) && json == old(json)
      ensures r == Ok(true) ==>
                FileExists(absOut, View())
                || (Converts(tool, absIn) && absOut == Resolve(cwd, TempPath(absIn)))
      ensures var p := Prepare(tool, command, input, absOut, configFile, old(View()));
              if p.Raised? then
                r == Raised(p.error) && launched == old(launched) && paths == old(paths)
              else
                launched == old(launched) + [Launch(p.value.command, p.value.dir, Some(Timeout(tool, timeout)))]
                && r == RunOutcome(tool, run, FileExists(absOut, Disk(p.value.dir, run.after, json)),
                                   Timeout(tool, timeout))
                && paths == if r.Ok? && Converts(tool, absIn)
                               && FileExists(TempPath(absIn), Disk(cwd, run.after, json))
                            then run.after - {Resolve(cwd, TempPath(absIn))}
                            else run.after
    {
      r := RunSubprocessCommand(tool, command, input, absOut, configFile, timeout, run);
      if r.Raised? {
        return;
      }
      RemoveTemp(tool, absIn);
    }

    /** `run_program`: resolve the paths, check the input, convert a `pqr`
        input for MGLTools, build the command, run it, and on a normal return
        remove the temporary file. */
    method RunProgram(tool: string, inputPath: string, outputPath: string, pH: string,
                      configFile: string, timeout: Option<int>, conversion: ProcessRun, run: ProcessRun)
      returns (r: Result<bool>)
      requires Valid()
      modifies this
      ensures Valid()
      ensures cwd == old(cwd) && json == old(json)
      ensures var absIn := Resolve(old(cwd), inputPath);
              !FileExists(absIn, old(View())) ==>
                r == Raised(CheckFileExists(absIn, old(View())).value)
                && launched == old(launched) && paths == old(paths)
      ensures var absIn, absOut := Resolve(old(cwd), inputPath), Resolve(old(cwd), outputPath);
              var d1 := AfterConversion(tool, absIn, conversion, old(View()));
              var input := ToolInput(tool, absIn, conversion, old(View()));
              var built := ConstructShellCommand(tool, input, absOut, pH, configFile, d1);
              var before := old(launched) + ConversionLaunches(tool, absIn, old(cwd));
              FileExists(absIn, old(View())) ==>
                if built.Raised? then
                  r == Raised(built.error) && launched == before && paths == d1.paths
                else if built.value.None? then
                  r == Raised(ValueError(tool)) && launched == before && paths == d1.paths
                else
                  var p := Prepare(tool, built.value.value, input, absOut, configFile, d1);
                  if p.Raised? then
                    r == Raised(p.error) && launched == before && paths == d1.paths
                  else
                    launched == before + [Launch(p.value.command, p.value.dir, Some(Timeout(tool, timeout)))]
                    && r == RunOutcome(tool, run, FileExists(absOut, Disk(p.value.dir, run.after, json)),
                                       Timeout(tool, timeout))
                    && paths == if r.Ok? && Converts(tool, absIn)
                                   && FileExists(TempPath(absIn), Disk(cwd, run.after, json))
                                then run.after - {Resolve(cwd, TempPath(absIn))}
                                else run.after
      ensures var absIn := Resolve(old(cwd), inputPath);
              tool !in KnownTools && FileExists(absIn, old(View())) ==>
                r == Raised(ValueError(tool)) && launched == old(launched) && paths == old(paths)
      ensures var absIn := Resolve(old(cwd), inputPath);
              r.Ok? && Converts(tool, absIn) ==> !FileExists(TempPath(absIn), View())
      ensures var absIn := Resolve(old(cwd), inputPath);
              r.Ok? && Converts(tool, absIn) && !Occurs(absIn, ".pqr") ==> !FileExists(absIn, View())
      ensures var absIn, absOut := Resolve(old(cwd), inputPath), Resolve(old(cwd), outputPath);
              r == Ok(true) ==>
                FileExists(absOut, View())
                || (Converts(tool, absIn) && Resolve(cwd, absOut) == Resolve(cwd, TempPath(absIn)))
    {
      var absIn := Resolve(cwd, inputPath);
      var absOut := Resolve(cwd, outputPath);
      if !FileExists(absIn, View()) {
        r := Raised(CheckFileExists(absIn, View()).value);
        return;
      }
      var input := ConvertInput(tool, absIn, conversion);
      r := BuildAndRun(tool, absIn, input, absOut, pH, configFile, timeout, run);
      TempPathUnchangedIff(absIn);
      assert IsAbs(absOut);
    }
  }
}
