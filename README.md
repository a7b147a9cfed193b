# Decision core of the pdbqt-converter subprocess handler

`dock_prep/subprocess_handler.py` prepares molecular structure files for
docking by running external programs: MGLTools `prepare_receptor4.py`,
OpenBabel, MolProbity `reduce` and `pdb2pqr30`. This project models the
decisions the handler takes around those programs and proves what they
guarantee:

- **Command construction** (`construct_shell_command`). The extension of a
  path is worked out as `os.path.splitext(p)[1].lower().lstrip('.')`. It is
  looked up in the OpenBabel format table, where the duplicate `'cif'` key
  leaves `cif` (not `mmcif`) and an unknown extension is rendered as the
  word `None`. The MGLTools flag set is chosen by the input extension, and
  absolute paths are cut down to bare file names for MGLTools. The per-tool
  command templates are filled in, and an unknown tool gets no command.
- **Running a command** (`_run_subprocess_command`). The default time-out is
  chosen. For MGLTools the handler changes into the input's directory and
  rebuilds the command there from bare file names with pH 7.4. The run is
  then judged: a time-out always raises; a non-zero exit raises, except for
  MolProbity when the output exists; a zero exit returns whether the output
  exists. The working directory is restored on every path.
- **The whole conversion** (`run_program`). Paths are resolved and the input
  is checked. For MGLTools on a `pqr` input there is a detour: the input is
  converted to PDB with OpenBabel into a temporary file, that file is used
  when the conversion produced it, and it is removed after a normal return.

The machine is a `Handler.Host` object. The handler changes three of its
fields in place:

- the current directory;
- the set of paths that exist (resolved);
- the log of the processes started.

A fourth field, the parsed JSON configuration files keyed by resolved path,
is only read.

A process is not executed. Each `subprocess.run` is given as a
`Handler.ProcessRun`: its exit status or its time-out, together with the set
of paths that exist once it is over.

A command string is the text of its f-string: its words joined by single
spaces (`Shell.JoinWords`). `Shell.Split` is Python's `split(' ')`, the
words a split at single spaces gives. The word lemmas show that the command
splits back into exactly the intended words when no path contains a space.
The shell does more than that (see "Left out"), so these lemmas speak about
the words, not about everything the shell makes of them.
`Shell.SpaceSplitsArgument` and `CommandProperties.OpenBabelSpacedInput` show
what happens otherwise: the source quotes nothing, so a path with a space
becomes two words.

A relative configuration path matters. After the MGLTools directory change,
the configuration is read again relative to the input's directory
(`Handler.Prepare`). The rebuilt command is the original one at least under the
conditions of `Handler.MglRunsBuiltCommand`: absolute input, output,
configuration file and configured directories.

Four behaviours of the code are worth stating outright:

- The temporary file is removed only when the main run returns normally; a
  raised error leaves it behind (lines 270-278).
- An unknown extension does not stop OpenBabel command construction: it is
  passed on as `-iNone` / `-oNone` (lines 191-196).
- A run that exits with status 0 without producing the output returns
  `False` rather than raising (lines 131-137).
- A missing file is reported only after its directory is listed (lines
  19-26). When that directory is missing too, the `FileNotFoundError` names
  the directory, not the file (`Commands.CheckFileExists`).

## Model

| member | source | states |
|---|---|---|
| Paths.Basename | dock_prep/subprocess_handler.py:89-90 | the base name holds no '/' and is what follows the last '/' of the path |
| Paths.Extension | dock_prep/subprocess_handler.py:162-163 | the extension holds no '.', no '/' and no upper-case letter, and is empty when the final component has no '.' |
| Paths.ExtensionOf | dock_prep/subprocess_handler.py:238 | for `<dir><stem>.<ext>` with a stem that is not all dots, the extension is `ext` lower-cased: the part after the last '.' of the final component |
| Paths.BasenameOfBasename | dock_prep/subprocess_handler.py:175-176 | a base name is its own base name and is never an absolute path |
| Paths.ResolveBasenameInDirname | dock_prep/subprocess_handler.py:88-96 | after changing into `dirname(p)`, `basename(p)` denotes `p` again, unless the last '/' of `p` is doubled |
| Paths.ReplaceUnchangedIff | dock_prep/subprocess_handler.py:242 | `s.replace(pat, rep)` with a longer `rep` leaves `s` unchanged exactly when `pat` does not occur in `s` |
| Shell.SplitJoinWords | dock_prep/subprocess_handler.py:112 | splitting at spaces gives back the joined words when none of them holds a space |
| Shell.SpaceSplitsArgument | dock_prep/subprocess_handler.py:112 | wherever it stands in a command, an argument holding a space splits into two words while the words around it stay as they are |
| Commands.CheckFileExists | dock_prep/subprocess_handler.py:15-28 | the check passes exactly when the file exists, and a failure raises `FileNotFoundError` |
| Commands.CheckNamesMissingPath | dock_prep/subprocess_handler.py:19-26 | the error of a failed check names a missing path: the file's directory exactly when that directory is missing, the file itself otherwise |
| Commands.GetEnvVars | dock_prep/subprocess_handler.py:51-59 | the configuration loads exactly when the file exists and parses; a missing file raises `FileNotFoundError` and an unparsable one a decode error |
| Commands.FormatCode | dock_prep/subprocess_handler.py:191-193 | each of pdb, pqr, mol, mol2, sdf, xyz, pdbqt and cif is its own format code (`cif` not `mmcif`: the later duplicate key wins); every other extension has none |
| Commands.MglArg | dock_prep/subprocess_handler.py:175-176 | an absolute path becomes its slash-free base name, a relative one is kept as it is; the result is relative and has the same base name |
| Commands.ConstructShellCommand | dock_prep/subprocess_handler.py:157-207 | no command exactly for a tool outside the four; a built command is never empty; OpenBabel and PDB2PQR never raise; the other tools raise only missing-file, missing-key or decode errors |
| CommandProperties.RenderedFormat | dock_prep/subprocess_handler.py:192-196 | the format interpolated into the OpenBabel command is the extension when it is known and the word `None` exactly when it is not |
| CommandProperties.OpenBabelWords | dock_prep/subprocess_handler.py:189-196 | the OpenBabel command always builds and is `obabel -i<in format> <in> -o<out format> -O <out>`, word for word |
| CommandProperties.OpenBabelSpacedInput | dock_prep/subprocess_handler.py:196 | an input path `a b` reaches OpenBabel as the two words `a` and `b`, so the command splits into seven words instead of six |
| CommandProperties.Pdb2PqrWords | dock_prep/subprocess_handler.py:206-207 | the PDB2PQR command always builds and is the fixed force-field and titration flags, `--with-ph <pH>`, the input, then the output, word for word |
| CommandProperties.MolProbityBuildsIff | dock_prep/subprocess_handler.py:197-203 | the MolProbity command builds exactly when the configuration loads, names `MOLPROBITY_BIN`, and both `reduce` and `probe` exist there |
| CommandProperties.MolProbityWords | dock_prep/subprocess_handler.py:200-205 | the MolProbity command is `<bin>/reduce -FLIP <in> > <out>`, word for word |
| CommandProperties.MglToolsBuildsIff | dock_prep/subprocess_handler.py:165-186 | the MGLTools command builds exactly when the configuration loads, names its three keys, and `pythonsh` and `prepare_receptor4.py` exist |
| CommandProperties.MglFlagsFollowExtension | dock_prep/subprocess_handler.py:183-186 | the MGLTools command ends with `nphs_lps'` exactly when the input extension is `pqr`, and with `checkhydrogens'` exactly when it is not |
| CommandProperties.MglWords | dock_prep/subprocess_handler.py:168-186 | the MGLTools script is `export PYTHONPATH=<packages>:$PYTHONPATH && <pythonsh> <script> -r <in> -o <out> -A checkhydrogens`, followed by `-C -U nphs_lps` for a `pqr` input, word for word |
| CommandProperties.MglRebuildAgrees | dock_prep/subprocess_handler.py:99-105 | with absolute paths and configuration, the command rebuilt from bare file names in another directory with pH 7.4 equals the one built from the absolute paths |
| Conversion.TempPathUnchangedIff | dock_prep/subprocess_handler.py:242 | the temporary path equals the input path exactly when the input path holds no lower-case `.pqr` |
| Conversion.TempPathOfPqr | dock_prep/subprocess_handler.py:242 | when `.pqr` occurs only as the final suffix, the temporary path is the input with that suffix turned into `_temp.pdb` |
| Conversion.ConversionIsOpenBabel | dock_prep/subprocess_handler.py:242-245 | for `<dir><stem>.pqr`, the temporary file is `<dir><stem>_temp.pdb` with extension `pdb`, and the conversion command is the OpenBabel command for that pair |
| Conversion.ConversionCommandIsOpenBabel | dock_prep/subprocess_handler.py:245 | from a `pqr` input to a `pdb` output, the conversion command equals the OpenBabel command |
| Conversion.UpperCaseTempIsInput | dock_prep/subprocess_handler.py:238-242 | an upper-case `.PQR` input dispatches as `pqr`, yet its temporary path is the input path itself |
| Handler.Timeout | dock_prep/subprocess_handler.py:77-82 | a given time-out is used unchanged; without one it is 1800 seconds exactly for PDB2PQR and 300 for every other tool |
| Handler.RunOutcome | dock_prep/subprocess_handler.py:110-137 | a time-out always raises; a normal result is exactly a zero exit, or a MolProbity exit with the output present; a normal result says whether the output exists; a failing exit raises with its return code |
| Handler.Prepare | dock_prep/subprocess_handler.py:87-105 | other tools run the given command where they are; MGLTools raises when the input's directory is missing and otherwise runs in that directory |
| Handler.MglRunsBuiltCommand | dock_prep/subprocess_handler.py:98-105 | with absolute paths and configuration, MGLTools runs exactly the command `run_program` built, only in the input's directory |
| Handler.ToolInput | dock_prep/subprocess_handler.py:249-257 | the input handed on is the original input, or the temporary path when the input was converted |
| Handler.ToolInputAfterCleanConversion | dock_prep/subprocess_handler.py:244-257 | the input is replaced only after a conversion that exited 0 and left the temporary file; when the temporary path differs from the input, such a conversion always replaces it |
| Handler.Host.Start | dock_prep/subprocess_handler.py:112 | a run is logged with its command, directory and time-out, and the existing paths become what the run left |
| Handler.Host.RunSubprocessCommand | dock_prep/subprocess_handler.py:61-154 | the directory is the same afterwards on every path; a failed preparation raises before any run; otherwise one run with the effective time-out, judged by `RunOutcome` on the output's existence where the run took place |
| Handler.Host.ConvertInput | dock_prep/subprocess_handler.py:239-257 | for MGLTools on `pqr` exactly one conversion run with no time-out, and the input becomes the temporary file only when the conversion exited 0 and the file exists |
| Handler.Host.RemoveTemp | dock_prep/subprocess_handler.py:273-278 | the temporary file of a converted input is removed when it exists, and nothing else changes |
| Handler.Host.BuildAndRun | dock_prep/subprocess_handler.py:259-280 | a construction error or a missing command raises before the main run; a raised run leaves the temporary file; clean-up follows only a normal return; a `True` result means the output exists unless it is the temporary path |
| Handler.Host.RunAndCleanUp | dock_prep/subprocess_handler.py:268-280 | the built command is run as `RunSubprocessCommand` specifies, and the temporary file is removed only after a normal return |
| Handler.Host.RunProgram | dock_prep/subprocess_handler.py:209-280 | a missing input raises the error of `CheckFileExists` before anything runs; an unknown tool raises `ValueError` with nothing run; after a normal return the temporary file is gone, an upper-case `.PQR` input is deleted, and a `True` result means the output exists unless it is the temporary path |

## Left out

- `get_conda_env` (lines 30-49): it reads an environment variable and may run `conda info`. Its result is only printed, so it is not part of this model.
- Console output and `traceback`. The directory listing `_check_if_file_exists` prints is not modelled, only whether it fails (`Commands.CheckFileExists`).
- `Commands.CheckFileExists`: a listed directory that is a file (`NotADirectoryError`) or is unreadable (`PermissionError`) is not modelled, and the current directory (`'.'`) is taken to exist.
- What the shell does beyond splitting at single spaces: runs of blanks, tabs and newlines, `$` expansion, `;` and `&&`, quotes, globs, and redirections such as MolProbity's `>`. The word lemmas state the words `split(' ')` gives, not what the shell finally runs.
- `subprocess.run`, the shell and the external programs: each run is an oracle (`ProcessRun`), so what the tools compute is not modelled.
- `os.path.abspath` normalisation (`normpath`: `..`, `.` and repeated slashes). `Paths.Resolve` only joins the current directory and the path.
- `Paths.Extension`: `lower()` folds ASCII letters only, not the rest of Unicode.
- The float `pH_value` and how an f-string renders it: the pH is passed as its rendered text.
- `config_file=None`, which makes `os.path.exists` raise `TypeError`: the configuration path is always a string here.
- JSON values other than strings, and the `TypeError` `os.path.join` would raise on them: the configuration is a map from strings to strings.
- A configuration file that exists but is not a regular readable file (a directory, missing permissions).
- Files and directories are not told apart: a path in the set exists for `os.path.exists` and for `os.chdir` alike.
- A failure of `os.chdir` back to the original directory, and a failure of `os.remove` during clean-up (the source only prints it): both are taken to succeed.
- The process-wide current-directory race when several conversions run at once: the model is sequential.
- The conversion run has no time-out in the source; a `TimedOut` conversion is treated like any other failed conversion.
