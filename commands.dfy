/** `construct_shell_command` and what it reads: the configuration file
    (`get_env_vars`), the existence checks on tool binaries
    (`_check_if_file_exists`) and the OpenBabel format table. Each tool's
    command is the text of the source's f-string: its words joined by single
    spaces. */
module Commands {
  import opened Outcomes
  import opened Paths
  import opened Shell

  const MglTools: string := "MGLTools"
  const OpenBabel: string := "OpenBabel"
  const MolProbity: string := "MolProbity"
  const Pdb2Pqr: string := "PDB2PQR"

  /** The tool names `construct_shell_command` has a branch for. */
  const KnownTools: set<string> := {MglTools, OpenBabel, MolProbity, Pdb2Pqr}

  /** What the handler sees of the machine: its current directory, the paths
      that exist (resolved), and the parsed contents of the files that hold
      valid JSON, keyed by resolved path. */
  datatype Disk = Disk(cwd: string, paths: set<string>, json: map<string, map<string, string>>)

  /** `os.path.exists(p)`, a relative `p` being taken from the current
      directory. The empty path never exists. */
  predicate FileExists(p: string, d: Disk)
  {
    p != "" && Resolve(d.cwd, p) in d.paths
  }

  /** `_check_if_file_exists(p)`: nothing when `p` exists. A missing `p` is
      reported only after its directory (`dirname(p) or '.'`) is listed, so
      when that directory is missing too the error names the directory, not
      `p`. The current directory itself is taken to exist. */
  function CheckFileExists(p: string, d: Disk): (r: Option<Error>)
    ensures r.None? <==> FileExists(p, d)
    ensures r.Some? ==> r.value.FileNotFound?
  {
    if FileExists(p, d) then None
    else if Dirname(p) != "" && !FileExists(Dirname(p), d) then Some(FileNotFound(Dirname(p)))
    else Some(FileNotFound(p))
  }

  /** The error of a failed existence check names a path that is missing:
      `p` itself, or its directory, and the directory whenever that is
      missing. */
  lemma CheckNamesMissingPath(p: string, d: Disk)
    requires !FileExists(p, d)
    ensures var e := CheckFileExists(p, d).value;
            e.FileNotFound? && !FileExists(e.path, d)
            && (Dirname(p) != "" && !FileExists(Dirname(p), d) ==> e.path == Dirname(p))
            && (Dirname(p) == "" || FileExists(Dirname(p), d) ==> e.path == p)
  {
  }

  /** `get_env_vars(config_file)`: the configuration mapping, or the error
      raised when the file is missing or does not parse. */
  function GetEnvVars(configFile: string, d: Disk): (r: Result<map<string, string>>)
    ensures r.Ok? <==> FileExists(configFile, d) && Resolve(d.cwd, configFile) in d.json
    ensures r.Ok? ==> r.value == d.json[Resolve(d.cwd, configFile)]
    ensures !FileExists(configFile, d) ==> r == Raised(FileNotFound(configFile))
    ensures FileExists(configFile, d) && Resolve(d.cwd, configFile) !in d.json
            ==> r == Raised(JsonDecodeError(configFile))
  {
    if !FileExists(configFile, d) then Raised(FileNotFound(configFile))
    else if Resolve(d.cwd, configFile) !in d.json then Raised(JsonDecodeError(configFile))
    else Ok(d.json[Resolve(d.cwd, configFile)])
  }

  /** The extensions OpenBabel is told about. */
  const KnownFormats: set<string> := {"pdb", "pqr", "mol", "mol2", "sdf", "xyz", "pdbqt", "cif"}

  /** `format_map`, written as the source writes it: `'cif'` appears twice and
      the later entry is the one that stays. */
  const FormatMap: map<string, string> :=
    map["pdb" := "pdb", "pqr" := "pqr", "mol" := "mol", "mol2" := "mol2", "sdf" := "sdf",
        "xyz" := "xyz", "pdbqt" := "pdbqt", "cif" := "mmcif", "cif" := "cif"]

  /** `format_map.get(ext)`: every known extension is its own format code
      (`cif` included, not `mmcif`); any other extension has none. */
  function FormatCode(ext: string): (code: Option<string>)
    ensures code == if ext in KnownFormats then Some(ext) else None
  {
    if ext in FormatMap then Some(FormatMap[ext]) else None
  }

  /** How an f-string renders an optional string: `None` as the word None. */
  function Render(code: Option<string>): string
  {
    match code
    case Some(s) => s
    case None => "None"
  }

  /** The format word OpenBabel receives for a path: its extension when that
      is a known format, the text `None` otherwise. It is the rendered table
      lookup `Render(FormatCode(Extension(p)))` (`RenderedFormat` proves the
      two equal), written as a case split the word lemmas can use directly. */
  function FormatWord(p: string): string
  {
    if Extension(p) in KnownFormats then Extension(p) else "None"
  }

  /** The path MGLTools receives: the bare file name of an absolute path, a
      relative path as it is. It is always relative and has the same base
      name. */
  function MglArg(p: string): (arg: string)
    ensures !IsAbs(arg) && Basename(arg) == Basename(p)
    ensures IsAbs(p) ==> '/' !in arg
    ensures !IsAbs(p) ==> arg == p
  {
    BasenameOfBasename(p);
    if IsAbs(p) then Basename(p) else p
  }

  /** `os.path.join(MGL_PACKAGES, 'AutoDockTools', 'Utilities24', 'prepare_receptor4.py')`. */
  function PrepareReceptorScript(packages: string): string
  {
    Join(Join(Join(packages, "AutoDockTools"), "Utilities24"), "prepare_receptor4.py")
  }

  /** The script `bash -c` runs for MGLTools: put `MGL_PACKAGES` on
      `PYTHONPATH`, then call `prepare_receptor4.py` through `pythonsh` with the
      input and output, adding hydrogens only where there are none and, for a
      charged (`pqr`) input, keeping its charges and merging only non-polar
      hydrogens. */
  function MglScript(packages: string, pythonsh: string, script: string,
                     inArg: string, outArg: string, chargedInput: bool): string
  {
    JoinWords(["export", "PYTHONPATH=" + packages + ":$PYTHONPATH", "&&", pythonsh, script,
               "-r", inArg, "-o", outArg, "-A", "checkhydrogens"]
              + (if chargedInput then ["-C", "-U", "nphs_lps"] else []))
  }

  /** The whole MGLTools command: the script, single-quoted, under `conda run`. */
  function MglCommand(envName: string, bashScript: string): string
  {
    JoinWords(["conda", "run", "-n", envName, "--no-capture-output", "bash", "-c", "'" + bashScript + "'"])
  }

  /** The MGLTools branch of `construct_shell_command`: the configuration is
      read, both keys for the binaries looked up, both binaries checked, and
      only then the environment name looked up. MGLTools is given `MglArg` of
      each path, and the `pqr` flags follow the input's extension. */
  function MglToolsCommand(inPath: string, outPath: string, configFile: string, d: Disk): Result<string>
  {
    match GetEnvVars(configFile, d)
    case Raised(e) => Raised(e)
    case Ok(env) =>
      if "MGL_BIN" !in env then Raised(KeyError("MGL_BIN"))
      else if "MGL_PACKAGES" !in env then Raised(KeyError("MGL_PACKAGES"))
      else
        var pythonsh := Join(env["MGL_BIN"], "pythonsh");
        var script := PrepareReceptorScript(env["MGL_PACKAGES"]);
        if !FileExists(pythonsh, d) then Raised(CheckFileExists(pythonsh, d).value)
        else if !FileExists(script, d) then Raised(CheckFileExists(script, d).value)
        else if "MGL_ENV_NAME" !in env then Raised(KeyError("MGL_ENV_NAME"))
        else
          Ok(MglCommand(env["MGL_ENV_NAME"],
                        MglScript(env["MGL_PACKAGES"], pythonsh, script,
                                  MglArg(inPath), MglArg(outPath), Extension(inPath) == "pqr")))
  }

  /** The OpenBabel branch: formats from the table, rendered without checking. */
  function OpenBabelCommand(inPath: string, outPath: string): string
  {
    JoinWords(["obabel", "-i" + Render(FormatCode(Extension(inPath))), inPath,
               "-o" + Render(FormatCode(Extension(outPath))), "-O", outPath])
  }

  /** The MolProbity branch: `reduce` and `probe` must both exist, only
      `reduce` is run, its standard output redirected to the output path. */
  function MolProbityCommand(inPath: string, outPath: string, configFile: string, d: Disk): Result<string>
  {
    match GetEnvVars(configFile, d)
    case Raised(e) => Raised(e)
    case Ok(env) =>
      if "MOLPROBITY_BIN" !in env then Raised(KeyError("MOLPROBITY_BIN"))
      else
        var reduce := Join(env["MOLPROBITY_BIN"], "reduce");
        var probe := Join(env["MOLPROBITY_BIN"], "probe");
        if !FileExists(reduce, d) then Raised(CheckFileExists(reduce, d).value)
        else if !FileExists(probe, d) then Raised(CheckFileExists(probe, d).value)
        else Ok(JoinWords([reduce, "-FLIP", inPath, ">", outPath]))
  }

  /** The PDB2PQR branch; `pH` is the pH value as the f-string renders it. */
  function Pdb2PqrCommand(pH: string, inPath: string, outPath: string): string
  {
    JoinWords(["pdb2pqr30", "--ff", "AMBER", "--keep-chain", "--titration-state-method", "propka",
               "--with-ph", pH, inPath, outPath])
  }

  /** `construct_shell_command`: a command for each known tool, `None` for any
      other tool name (the function falls off its end), or the exception the
      configuration and binary checks raise. OpenBabel and PDB2PQR read no
      configuration and never fail; a command that is built is never empty,
      so the caller's `not command` test is exactly "no command". */
  function ConstructShellCommand(tool: string, inPath: string, outPath: string, pH: string,
                                 configFile: string, d: Disk): (r: Result<Option<string>>)
    ensures r == Ok(None) <==> tool !in KnownTools
    ensures r.Ok? && r.value.Some? ==> r.value.value != ""
    ensures tool == OpenBabel || tool == Pdb2Pqr ==> r.Ok?
    ensures r.Raised? ==> r.error.FileNotFound? || r.error.KeyError? || r.error.JsonDecodeError?
  {
    if tool == MglTools then
      match MglToolsCommand(inPath, outPath, configFile, d)
      case Ok(c) => Ok(Some(c))
      case Raised(e) => Raised(e)
    else if tool == OpenBabel then
      Ok(Some(OpenBabelCommand(inPath, outPath)))
    else if tool == MolProbity then
      match MolProbityCommand(inPath, outPath, configFile, d)
      case Ok(c) => Ok(Some(c))
      case Raised(e) => Raised(e)
    else if tool == Pdb2Pqr then
      Ok(Some(Pdb2PqrCommand(pH, inPath, outPath)))
    else
      Ok(None)
  }
}
