/** The detour `run_program` takes for a `pqr` input to MGLTools: the input is
    first converted to PDB with OpenBabel, into a temporary file whose name is
    the input path with every `.pqr` replaced by `_temp.pdb`. */
module Conversion {
  import opened Paths
  import opened Shell
  import opened Commands

  /** `abs_input_path.replace('.pqr', '_temp.pdb')`. */
  function TempPath(p: string): string
  {
    ReplaceAll(p, ".pqr", "_temp.pdb")
  }

  /** The conversion command: OpenBabel from PQR to PDB. */
  function ConversionCommand(absIn: string, temp: string): string
  {
    JoinWords(["obabel", "-ipqr", absIn, "-opdb", "-O", temp])
  }

  /** The temporary path is the input path itself exactly when the input path
      holds no lower-case `.pqr`. */
  lemma TempPathUnchangedIff(p: string)
    ensures TempPath(p) == p <==> !Occurs(p, ".pqr")
  {
    ReplaceUnchangedIff(p, ".pqr", "_temp.pdb");
  }

  /** A string without `.pqr` gets none by having a four-character suffix
      other than `.pqr` that starts with a dot: no occurrence can straddle
      the join, since `.pqr` has its only dot in front. */
  lemma NoPqrAcross(s: string, t: string)
    requires !Occurs(s, ".pqr")
    requires |t| == 4 && t[0] == '.' && t != ".pqr"
    ensures !Occurs(s + t, ".pqr")
  {
    var c := s + t;
    forall i | 0 <= i <= |c|
      ensures !OccursAt(c, ".pqr", i)
    {
      if i + 4 <= |s| {
        assert !OccursAt(s, ".pqr", i);
        assert c[i..i + 4] == s[i..i + 4];
      } else if i < |s| {
        assert c[|s|] == '.';
      } else if i == |s| {
        assert c[i..] == t;
      }
    }
  }

  /** When `.pqr` occurs only as the final suffix, the temporary path is the
      input path with that suffix turned into `_temp.pdb`. */
  lemma {:induction false} TempPathOfPqr(stem: string)
    requires !Occurs(stem, ".pqr")
    ensures TempPath(stem + ".pqr") == stem + "_temp.pdb"
    decreases |stem|
  {
    var s := stem + ".pqr";
    if stem == "" {
      assert s[..4] == ".pqr" && s[4..] == "";
      assert ReplaceAll("", ".pqr", "_temp.pdb") == "";
    } else {
      if |stem| >= 4 {
        assert !OccursAt(stem, ".pqr", 0);
        assert s[..4] == stem[..4];
      } else {
        assert s[..4][|stem|] == '.';
      }
      forall i | 0 <= i <= |stem[1..]|
        ensures !OccursAt(stem[1..], ".pqr", i)
      {
        assert !OccursAt(stem, ".pqr", i + 1);
        if i + 4 <= |stem[1..]| {
          assert stem[1..][i..i + 4] == stem[i + 1..i + 5];
        }
      }
      TempPathOfPqr(stem[1..]);
      assert s[1..] == stem[1..] + ".pqr";
      assert [stem[0]] + (stem[1..] + "_temp.pdb") == stem + "_temp.pdb";
    }
  }

  /** A path `<dir><stem>.<ext>` with a lower-case extension has that
      extension. */
  lemma ExtensionOfLower(dir: string, stem: string, ext: string)
    requires dir == "" || dir[|dir| - 1] == '/'
    requires '/' !in stem && exists k :: 0 <= k < |stem| && stem[k] != '.'
    requires '/' !in ext && '.' !in ext && Lower(ext) == ext
    ensures Extension(dir + stem + "." + ext) == ext
  {
    ExtensionOf(dir, stem, ext);
  }

  /** The temporary file of `<dir><stem>.pqr` has the extension `pdb`. */
  lemma TempExtension(dir: string, stem: string)
    requires dir == "" || dir[|dir| - 1] == '/'
    requires '/' !in stem && exists k :: 0 <= k < |stem| && stem[k] != '.'
    ensures Extension(dir + stem + "_temp.pdb") == "pdb"
  {
    var tempStem := stem + "_temp";
    var k :| 0 <= k < |stem| && stem[k] != '.';
    assert tempStem[k] != '.';
    assert dir + stem + "_temp.pdb" == dir + tempStem + "." + "pdb";
    assert Lower("pdb") == "pdb";
    ExtensionOfLower(dir, tempStem, "pdb");
  }

  /** For an input `<dir><stem>.pqr` with no other `.pqr` in it, the temporary
      file sits beside the input as `<stem>_temp.pdb`, its extension is `pdb`,
      and the conversion command is exactly the OpenBabel command
      `construct_shell_command` builds for that input and output. */
  lemma ConversionIsOpenBabel(dir: string, stem: string)
    requires dir == "" || dir[|dir| - 1] == '/'
    requires '/' !in stem && exists k :: 0 <= k < |stem| && stem[k] != '.'
    requires !Occurs(dir + stem, ".pqr")
    ensures var p := dir + stem + ".pqr";
            TempPath(p) == dir + stem + "_temp.pdb"
            && Extension(p) == "pqr" && Extension(TempPath(p)) == "pdb"
            && ConversionCommand(p, TempPath(p)) == OpenBabelCommand(p, TempPath(p))
  {
    var p := dir + stem + ".pqr";
    TempPathOfPqr(dir + stem);
    assert p == dir + stem + "." + "pqr";
    assert Lower("pqr") == "pqr";
    ExtensionOfLower(dir, stem, "pqr");
    TempExtension(dir, stem);
    ConversionCommandIsOpenBabel(p, TempPath(p));
  }

  /** Between a `pqr` input and a `pdb` output, the conversion command and the
      OpenBabel command agree. */
  lemma ConversionCommandIsOpenBabel(p: string, temp: string)
    requires Extension(p) == "pqr" && Extension(temp) == "pdb"
    ensures ConversionCommand(p, temp) == OpenBabelCommand(p, temp)
  {
    assert "-i" + "pqr" == "-ipqr" && "-o" + "pdb" == "-opdb";
  }

  /** `.PQR` lowers to `pqr`. */
  lemma UpperPqr()
    ensures Lower("PQR") == "pqr"
  {
    assert LowerChar('P') == 'p' && LowerChar('Q') == 'q' && LowerChar('R') == 'r';
  }

  /** An upper-case `.PQR` input counts as `pqr` for the dispatch, yet the
      replacement finds no `.pqr` in it: the temporary path is the input path
      itself, so the conversion writes over the input and the clean-up that
      follows removes it. */
  lemma UpperCaseTempIsInput(dir: string, stem: string)
    requires dir == "" || dir[|dir| - 1] == '/'
    requires '/' !in stem && exists k :: 0 <= k < |stem| && stem[k] != '.'
    requires !Occurs(dir + stem, ".pqr")
    ensures var p := dir + stem + ".PQR";
            Extension(p) == "pqr" && TempPath(p) == p
  {
    var p := dir + stem + ".PQR";
    assert p == dir + stem + "." + "PQR";
    ExtensionOf(dir, stem, "PQR");
    UpperPqr();
    assert ".PQR" != ".pqr" by { assert ".PQR"[1] != ".pqr"[1]; }
    NoPqrAcross(dir + stem, ".PQR");
    TempPathUnchangedIff(p);
  }
}
