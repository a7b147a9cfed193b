/** What each command built by `construct_shell_command` says: the words the
    shell receives, which flags MGLTools gets, when the configured tools fail,
    and that rebuilding the MGLTools command from bare file names after the
    directory change gives the same command again. */
module CommandProperties {
  import opened Outcomes
  import opened Paths
  import opened Shell
  import opened Commands

  /** The f-string rendering of the table lookup is the format word. */
  lemma RenderedFormat(p: string)
    ensures Render(FormatCode(Extension(p))) == FormatWord(p)
    ensures FormatWord(p) == "None" <==> Extension(p) !in KnownFormats
  {
  }

  /** OpenBabel is called with the input format, the input path, the output
      format and the output path, in that order, each format being the
      extension when it is in the table and `None` when it is not. */
  lemma OpenBabelWords(inPath: string, outPath: string, pH: string, configFile: string, d: Disk)
    requires ' ' !in inPath && ' ' !in outPath
    ensures var r := ConstructShellCommand(OpenBabel, inPath, outPath, pH, configFile, d);
            r.Ok? && r.value.Some?
            && Split(r.value.value)
               == ["obabel", "-i" + FormatWord(inPath), inPath, "-o" + FormatWord(outPath), "-O", outPath]
  {
    var words := ["obabel", "-i" + FormatWord(inPath), inPath, "-o" + FormatWord(outPath), "-O", outPath];
    OpenBabelCommandWords(inPath, outPath);
    FormatWordWithoutSpace(inPath);
    FormatWordWithoutSpace(outPath);
    assert forall k :: 0 <= k < |words| ==> ' ' !in words[k];
    SplitJoinWords(words);
  }

  /** Nothing is quoted: an input path holding a space reaches OpenBabel as
      two arguments, so `obabel` sees seven words and takes the second half
      of the path where it expects the output format flag to follow. */
  lemma OpenBabelSpacedInput(a: string, b: string, outPath: string)
    requires ' ' !in a && ' ' !in b && ' ' !in outPath
    ensures var inPath := a + " " + b;
            Split(OpenBabelCommand(inPath, outPath))
            == ["obabel", "-i" + FormatWord(inPath), a, b, "-o" + FormatWord(outPath), "-O", outPath]
  {
    var inPath := a + " " + b;
    OpenBabelCommandWords(inPath, outPath);
    FormatWordWithoutSpace(inPath);
    FormatWordWithoutSpace(outPath);
    SpacedSecondArgument("obabel", "-i" + FormatWord(inPath), a, b, "-o" + FormatWord(outPath), outPath);
  }

  /** The OpenBabel word list with a spaced input splits into seven words. */
  lemma SpacedSecondArgument(tool: string, fi: string, a: string, b: string, fo: string, outPath: string)
    requires ' ' !in tool && ' ' !in fi && ' ' !in a && ' ' !in b && ' ' !in fo && ' ' !in outPath
    ensures Split(JoinWords([tool, fi, a + " " + b, fo, "-O", outPath])) == [tool, fi, a, b, fo, "-O", outPath]
  {
    var pre, post := [tool, fi], [fo, "-O", outPath];
    assert [tool, fi, a + " " + b, fo, "-O", outPath] == pre + [a + " " + b] + post;
    assert [tool, fi, a, b, fo, "-O", outPath] == pre + [a, b] + post;
    SpaceSplitsArgument(pre, a, b, post);
  }

  /** The OpenBabel command joins its six words. */
  lemma OpenBabelCommandWords(inPath: string, outPath: string)
    ensures OpenBabelCommand(inPath, outPath)
            == JoinWords(["obabel", "-i" + FormatWord(inPath), inPath, "-o" + FormatWord(outPath), "-O", outPath])
  {
    RenderedFormat(inPath);
    RenderedFormat(outPath);
  }

  /** A format word never holds a space. */
  lemma FormatWordWithoutSpace(p: string)
    ensures ' ' !in FormatWord(p) && ' ' !in "-i" + FormatWord(p) && ' ' !in "-o" + FormatWord(p)
  {
    var w := FormatWord(p);
    assert w in {"pdb", "pqr", "mol", "mol2", "sdf", "xyz", "pdbqt", "cif", "None"};
    assert ' ' !in w;
    assert "-i" + w == ['-', 'i'] + w && "-o" + w == ['-', 'o'] + w;
  }

  /** PDB2PQR is called with the fixed force field and titration flags, then
      `--with-ph` and the pH, then the input path, then the output path. */
  lemma Pdb2PqrWords(inPath: string, outPath: string, pH: string, configFile: string, d: Disk)
    requires ' ' !in pH && ' ' !in inPath && ' ' !in outPath
    ensures var r := ConstructShellCommand(Pdb2Pqr, inPath, outPath, pH, configFile, d);
            r.Ok? && r.value.Some?
            && Split(r.value.value)
               == ["pdb2pqr30", "--ff", "AMBER", "--keep-chain", "--titration-state-method", "propka",
                   "--with-ph", pH, inPath, outPath]
  {
    SplitJoinWords(["pdb2pqr30", "--ff", "AMBER", "--keep-chain", "--titration-state-method", "propka",
                    "--with-ph", pH, inPath, outPath]);
  }

  /** The MolProbity command builds exactly when the configuration loads, it
      names `MOLPROBITY_BIN`, and both `reduce` and `probe` exist there. */
  lemma MolProbityBuildsIff(inPath: string, outPath: string, pH: string, configFile: string, d: Disk)
    ensures var r := ConstructShellCommand(MolProbity, inPath, outPath, pH, configFile, d);
            var env := GetEnvVars(configFile, d);
            r.Ok? <==>
              env.Ok? && "MOLPROBITY_BIN" in env.value
              && FileExists(Join(env.value["MOLPROBITY_BIN"], "reduce"), d)
              && FileExists(Join(env.value["MOLPROBITY_BIN"], "probe"), d)
  {
  }

  /** The MolProbity command runs `reduce -FLIP` on the input and sends its
      standard output to the output path with a shell redirection. */
  lemma MolProbityWords(inPath: string, outPath: string, pH: string, configFile: string, d: Disk)
    requires ' ' !in inPath && ' ' !in outPath
    requires GetEnvVars(configFile, d).Ok?
    requires "MOLPROBITY_BIN" in GetEnvVars(configFile, d).value
    requires ' ' !in GetEnvVars(configFile, d).value["MOLPROBITY_BIN"]
    ensures var r := ConstructShellCommand(MolProbity, inPath, outPath, pH, configFile, d);
            var reduce := Join(GetEnvVars(configFile, d).value["MOLPROBITY_BIN"], "reduce");
            r.Ok? ==> r.value.Some? && Split(r.value.value) == [reduce, "-FLIP", inPath, ">", outPath]
  {
    var reduce := Join(GetEnvVars(configFile, d).value["MOLPROBITY_BIN"], "reduce");
    assert ' ' !in reduce;
    SplitJoinWords([reduce, "-FLIP", inPath, ">", outPath]);
  }

  /** The MGLTools command builds exactly when the configuration loads, names
      `MGL_BIN`, `MGL_PACKAGES` and `MGL_ENV_NAME`, and `pythonsh` and
      `prepare_receptor4.py` exist where those keys say. */
  lemma MglToolsBuildsIff(inPath: string, outPath: string, pH: string, configFile: string, d: Disk)
    ensures var r := ConstructShellCommand(MglTools, inPath, outPath, pH, configFile, d);
            var env := GetEnvVars(configFile, d);
            r.Ok? <==>
              env.Ok?
              && "MGL_BIN" in env.value && "MGL_PACKAGES" in env.value && "MGL_ENV_NAME" in env.value
              && FileExists(Join(env.value["MGL_BIN"], "pythonsh"), d)
              && FileExists(PrepareReceptorScript(env.value["MGL_PACKAGES"]), d)
  {
  }

  predicate EndsWith(s: string, suffix: string)
  {
    |suffix| <= |s| && s[|s| - |suffix|..] == suffix
  }

  /** A string closed by a word and a quote ends with that word and quote,
      and its third character from the end is the word's last but one. */
  lemma QuotedEnding(x: string, w: string)
    requires |w| >= 2
    ensures EndsWith(x + " " + w + "'", " " + w + "'")
    ensures (x + " " + w + "'")[|x + " " + w + "'"| - 3] == w[|w| - 2]
  {
    var c := x + " " + w + "'";
    assert c == x + (" " + w + "'");
  }

  /** The MGLTools script ends with a space and its last flag word. */
  lemma MglScriptLast(packages: string, pythonsh: string, script: string,
                      inArg: string, outArg: string, chargedInput: bool)
    ensures var sc := MglScript(packages, pythonsh, script, inArg, outArg, chargedInput);
            var w := if chargedInput then "nphs_lps" else "checkhydrogens";
            |sc| > |w| && sc == sc[..|sc| - |w| - 1] + " " + w
  {
    var words := ["export", "PYTHONPATH=" + packages + ":$PYTHONPATH", "&&", pythonsh, script,
                  "-r", inArg, "-o", outArg, "-A", "checkhydrogens"]
                 + (if chargedInput then ["-C", "-U", "nphs_lps"] else []);
    JoinWordsLast(words);
    var front := JoinWords(words[..|words| - 1]);
    var w := words[|words| - 1];
    var sc := front + " " + w;
    assert sc[..|sc| - |w| - 1] == front;
  }

  /** The MGLTools command ends with its script and the closing quote. */
  lemma MglCommandEnds(envName: string, bashScript: string)
    ensures var c := MglCommand(envName, bashScript);
            |c| > |bashScript| && c == c[..|c| - |bashScript| - 1] + bashScript + "'"
  {
    var words := ["conda", "run", "-n", envName, "--no-capture-output", "bash", "-c", "'" + bashScript + "'"];
    JoinWordsLast(words);
    var front := JoinWords(words[..|words| - 1]) + " " + "'";
    var c := front + bashScript + "'";
    assert MglCommand(envName, bashScript) == c;
    assert c[..|c| - |bashScript| - 1] == front;
  }

  /** The MGLTools command is some text, a space, the script's last word and
      the closing quote. */
  lemma MglCommandLastWord(envName: string, packages: string, pythonsh: string, script: string,
                           inArg: string, outArg: string, chargedInput: bool)
    ensures var c := MglCommand(envName, MglScript(packages, pythonsh, script, inArg, outArg, chargedInput));
            var w := if chargedInput then "nphs_lps" else "checkhydrogens";
            EndsWith(c, " " + w + "'") && c[|c| - 3] == w[|w| - 2]
  {
    var sc := MglScript(packages, pythonsh, script, inArg, outArg, chargedInput);
    var w := if chargedInput then "nphs_lps" else "checkhydrogens";
    MglScriptLast(packages, pythonsh, script, inArg, outArg, chargedInput);
    MglCommandEnds(envName, sc);
    var c := MglCommand(envName, sc);
    var x := c[..|c| - |sc| - 1] + sc[..|sc| - |w| - 1];
    assert c == x + " " + w + "'";
    QuotedEnding(x, w);
  }

  /** Two endings told apart by their third character from the end. */
  lemma QuotedEndings(c: string, chargedInput: bool)
    requires var w := if chargedInput then "nphs_lps" else "checkhydrogens";
             EndsWith(c, " " + w + "'") && c[|c| - 3] == w[|w| - 2]
    ensures EndsWith(c, " nphs_lps'") <==> chargedInput
    ensures EndsWith(c, " checkhydrogens'") <==> !chargedInput
  {
    assert " " + "nphs_lps" + "'" == " nphs_lps'";
    assert " " + "checkhydrogens" + "'" == " checkhydrogens'";
  }

  /** The MGLTools command ends with `nphs_lps` (the input charges kept, only
      non-polar hydrogens merged) exactly when the input extension is `pqr`,
      and with `checkhydrogens` exactly when it is not. */
  lemma MglFlagsFollowExtension(inPath: string, outPath: string, pH: string, configFile: string, d: Disk)
    ensures var r := ConstructShellCommand(MglTools, inPath, outPath, pH, configFile, d);
            r.Ok? ==>
              r.value.Some?
              && (EndsWith(r.value.value, " nphs_lps'") <==> Extension(inPath) == "pqr")
              && (EndsWith(r.value.value, " checkhydrogens'") <==> Extension(inPath) != "pqr")
  {
    var r := ConstructShellCommand(MglTools, inPath, outPath, pH, configFile, d);
    if r.Ok? {
      var env := GetEnvVars(configFile, d).value;
      var pythonsh, script := Join(env["MGL_BIN"], "pythonsh"), PrepareReceptorScript(env["MGL_PACKAGES"]);
      var charged := Extension(inPath) == "pqr";
      MglCommandLastWord(env["MGL_ENV_NAME"], env["MGL_PACKAGES"], pythonsh, script, MglArg(inPath), MglArg(outPath), charged);
      QuotedEndings(r.value.value, charged);
    }
  }

  /** The words of the MGLTools script. */
  lemma MglScriptWords(packages: string, pythonsh: string, script: string,
                       inArg: string, outArg: string, chargedInput: bool)
    requires ' ' !in packages && ' ' !in pythonsh && ' ' !in script && ' ' !in inArg && ' ' !in outArg
    ensures Split(MglScript(packages, pythonsh, script, inArg, outArg, chargedInput))
            == ["export", "PYTHONPATH=" + packages + ":$PYTHONPATH", "&&", pythonsh, script,
                "-r", inArg, "-o", outArg, "-A", "checkhydrogens"]
               + (if chargedInput then ["-C", "-U", "nphs_lps"] else [])
  {
    var path := "PYTHONPATH=" + packages + ":$PYTHONPATH";
    assert ' ' !in path;
    SplitJoinWords(["export", path, "&&", pythonsh, script, "-r", inArg, "-o", outArg, "-A", "checkhydrogens"]
                   + (if chargedInput then ["-C", "-U", "nphs_lps"] else []));
  }

  /** Joining two space-free paths gives a space-free path. */
  lemma JoinWithoutSpace(a: string, b: string)
    requires ' ' !in a && ' ' !in b
    ensures ' ' !in Join(a, b)
  {
  }

  /** A built MGLTools command is the script of the configured paths under
      `conda run`. */
  lemma MglCommandIs(inPath: string, outPath: string, pH: string, configFile: string, d: Disk)
    ensures var r := ConstructShellCommand(MglTools, inPath, outPath, pH, configFile, d);
            r.Ok? ==>
              var env := GetEnvVars(configFile, d).value;
              r.value == Some(MglCommand(env["MGL_ENV_NAME"],
                                         MglScript(env["MGL_PACKAGES"], Join(env["MGL_BIN"], "pythonsh"),
                                                   PrepareReceptorScript(env["MGL_PACKAGES"]),
                                                   MglArg(inPath), MglArg(outPath), Extension(inPath) == "pqr")))
  {
    var r := ConstructShellCommand(MglTools, inPath, outPath, pH, configFile, d);
    if r.Ok? {
      var m := MglToolsCommand(inPath, outPath, configFile, d);
      assert m.Ok? && r.value == Some(m.value);
    }
  }

  /** The MGLTools command wraps, as `bash -c '…'` under `conda run -n` with the
      configured environment, a script that puts `MGL_PACKAGES` on
      `PYTHONPATH` and calls `pythonsh` on `prepare_receptor4.py` with `-r` the
      input and `-o` the output (each as `MglArg` gives it), then the flags for
      the input's extension. */
  lemma MglWords(inPath: string, outPath: string, pH: string, configFile: string, d: Disk)
    requires GetEnvVars(configFile, d).Ok?
    requires var env := GetEnvVars(configFile, d).value;
             "MGL_BIN" in env && "MGL_PACKAGES" in env
             && ' ' !in env["MGL_BIN"] && ' ' !in env["MGL_PACKAGES"]
    requires ' ' !in inPath && ' ' !in outPath
    ensures var r := ConstructShellCommand(MglTools, inPath, outPath, pH, configFile, d);
            var env := GetEnvVars(configFile, d).value;
            var pythonsh, script := Join(env["MGL_BIN"], "pythonsh"), PrepareReceptorScript(env["MGL_PACKAGES"]);
            var charged := Extension(inPath) == "pqr";
            r.Ok? ==>
              r.value == Some(MglCommand(env["MGL_ENV_NAME"],
                                         MglScript(env["MGL_PACKAGES"], pythonsh, script,
                                                   MglArg(inPath), MglArg(outPath), charged)))
              && Split(MglScript(env["MGL_PACKAGES"], pythonsh, script, MglArg(inPath), MglArg(outPath), charged))
                 == ["export", "PYTHONPATH=" + env["MGL_PACKAGES"] + ":$PYTHONPATH", "&&", pythonsh, script,
                     "-r", MglArg(inPath), "-o", MglArg(outPath), "-A", "checkhydrogens"]
                    + (if charged then ["-C", "-U", "nphs_lps"] else [])
  {
    var env := GetEnvVars(configFile, d).value;
    var packages := env["MGL_PACKAGES"];
    JoinWithoutSpace(env["MGL_BIN"], "pythonsh");
    JoinWithoutSpace(packages, "AutoDockTools");
    JoinWithoutSpace(Join(packages, "AutoDockTools"), "Utilities24");
    JoinWithoutSpace(Join(Join(packages, "AutoDockTools"), "Utilities24"), "prepare_receptor4.py");
    MglCommandIs(inPath, outPath, pH, configFile, d);
    MglScriptWords(packages, Join(env["MGL_BIN"], "pythonsh"), PrepareReceptorScript(packages),
                   MglArg(inPath), MglArg(outPath), Extension(inPath) == "pqr");
  }

  /** The configuration, when it loads, names absolute directories for the
      MGLTools binaries. */
  predicate AbsoluteMglConfig(configFile: string, d: Disk)
  {
    IsAbs(configFile)
    && (configFile in d.json ==>
          ("MGL_BIN" in d.json[configFile] ==> IsAbs(d.json[configFile]["MGL_BIN"]))
          && ("MGL_PACKAGES" in d.json[configFile] ==> IsAbs(d.json[configFile]["MGL_PACKAGES"])))
  }

  /** An absolute path means the same file from any directory. */
  lemma AbsoluteIgnoresCwd(p: string, d: Disk, cwd: string)
    requires IsAbs(p)
    ensures Resolve(cwd, p) == p
    ensures FileExists(p, d.(cwd := cwd)) == FileExists(p, d)
  {
  }

  /** The existence check on an absolute path, with the listing of its
      directory, does not depend on the current directory. */
  lemma CheckIgnoresCwd(p: string, d: Disk, cwd: string)
    requires IsAbs(p)
    ensures CheckFileExists(p, d.(cwd := cwd)) == CheckFileExists(p, d)
  {
    DirnameOfAbsolute(p);
    AbsoluteIgnoresCwd(p, d, cwd);
    AbsoluteIgnoresCwd(Dirname(p), d, cwd);
  }

  /** Joining onto an absolute directory gives an absolute path. */
  lemma JoinKeepsAbsolute(a: string, b: string)
    requires IsAbs(a)
    ensures IsAbs(Join(a, b))
  {
  }

  /** A final component has the extension of the path it comes from. */
  lemma ExtensionOfBasename(p: string)
    ensures Extension(Basename(p)) == Extension(p)
  {
    BasenameOfBasename(p);
  }

  /** With absolute paths throughout, the current directory does not matter to
      `construct_shell_command`, and the MGLTools command rebuilt from the bare
      file names after the directory change (with pH 7.4) is the command
      built from the absolute paths before it. */
  lemma MglRebuildAgrees(absIn: string, absOut: string, pH: string, configFile: string, d: Disk, cwd: string)
    requires IsAbs(absIn) && IsAbs(absOut)
    requires AbsoluteMglConfig(configFile, d)
    ensures ConstructShellCommand(MglTools, Basename(absIn), Basename(absOut), "7.4", configFile, d.(cwd := cwd))
            == ConstructShellCommand(MglTools, absIn, absOut, pH, configFile, d)
  {
    MglBareNamesAgree(absIn, absOut, configFile, d.(cwd := cwd));
    MglConfigIgnoresCwd(configFile, d, cwd);
    assert MglToolsCommand(absIn, absOut, configFile, d.(cwd := cwd))
        == MglToolsCommand(absIn, absOut, configFile, d);
  }

  /** MGLTools receives the bare file names of absolute paths anyway, so
      building from those names gives the same command. */
  lemma MglBareNamesAgree(absIn: string, absOut: string, configFile: string, d: Disk)
    requires IsAbs(absIn) && IsAbs(absOut)
    ensures MglToolsCommand(Basename(absIn), Basename(absOut), configFile, d)
            == MglToolsCommand(absIn, absOut, configFile, d)
  {
    BasenameOfBasename(absIn);
    BasenameOfBasename(absOut);
    ExtensionOfBasename(absIn);
    assert MglArg(Basename(absIn)) == MglArg(absIn) && MglArg(Basename(absOut)) == MglArg(absOut);
  }

  /** With an absolute configuration, what MGLTools reads and checks does not
      depend on the current directory. */
  lemma MglConfigIgnoresCwd(configFile: string, d: Disk, cwd: string)
    requires AbsoluteMglConfig(configFile, d)
    ensures GetEnvVars(configFile, d.(cwd := cwd)) == GetEnvVars(configFile, d)
    ensures var env := GetEnvVars(configFile, d);
            env.Ok? && "MGL_BIN" in env.value && "MGL_PACKAGES" in env.value ==>
              CheckFileExists(Join(env.value["MGL_BIN"], "pythonsh"), d.(cwd := cwd))
                == CheckFileExists(Join(env.value["MGL_BIN"], "pythonsh"), d)
              && CheckFileExists(PrepareReceptorScript(env.value["MGL_PACKAGES"]), d.(cwd := cwd))
                 == CheckFileExists(PrepareReceptorScript(env.value["MGL_PACKAGES"]), d)
  {
    AbsoluteIgnoresCwd(configFile, d, cwd);
    var env := GetEnvVars(configFile, d);
    if env.Ok? && "MGL_BIN" in env.value && "MGL_PACKAGES" in env.value {
      var packages := env.value["MGL_PACKAGES"];
      JoinKeepsAbsolute(env.value["MGL_BIN"], "pythonsh");
      JoinKeepsAbsolute(packages, "AutoDockTools");
      JoinKeepsAbsolute(Join(packages, "AutoDockTools"), "Utilities24");
      JoinKeepsAbsolute(Join(Join(packages, "AutoDockTools"), "Utilities24"), "prepare_receptor4.py");
      CheckIgnoresCwd(Join(env.value["MGL_BIN"], "pythonsh"), d, cwd);
      CheckIgnoresCwd(PrepareReceptorScript(packages), d, cwd);
    }
  }
}
