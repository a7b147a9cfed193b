/** The POSIX path and string operations the handler relies on, as Python's
    `posixpath` and `str` define them: `rfind`, `basename`, `dirname`, `join`,
    `isabs`, the extension of `splitext`, `lower`, `lstrip('.')` and
    `replace`. Characters are compared as they are; `Lower` folds ASCII only. */
module Paths {

  /** `os.path.isabs`: the path starts with '/'. */
  predicate IsAbs(p: string)
  {
    |p| > 0 && p[0] == '/'
  }

  /** `s.rfind(c)`: the index of the last `c` in `s`, or -1 when there is none. */
  function LastIndex(s: string, c: char): (i: int)
    ensures -1 <= i < |s|
    ensures i >= 0 ==> s[i] == c
    ensures forall k :: i < k < |s| ==> s[k] != c
  {
    if |s| == 0 then -1
    else if s[|s| - 1] == c then |s| - 1
    else LastIndex(s[..|s| - 1], c)
  }

  /** Where the final component of `p` begins: just past its last '/'. */
  function NameStart(p: string): nat
  {
    LastIndex(p, '/') + 1
  }

  /** `os.path.basename`: everything after the last '/'. */
  function Basename(p: string): (name: string)
    ensures '/' !in name
    ensures p == p[..NameStart(p)] + name
  {
    p[NameStart(p)..]
  }

  predicate AllSlashes(s: string)
  {
    forall k :: 0 <= k < |s| ==> s[k] == '/'
  }

  /** `s.rstrip('/')`. */
  function RStripSlashes(s: string): (r: string)
    ensures |r| <= |s| && r == s[..|r|]
    ensures r == "" || r[|r| - 1] != '/'
    ensures AllSlashes(s[|r|..])
  {
    if |s| > 0 && s[|s| - 1] == '/' then
      var r := RStripSlashes(s[..|s| - 1]);
      assert s[|r|..] == s[..|s| - 1][|r|..] + [s[|s| - 1]];
      r
    else s
  }

  /** `os.path.dirname`: everything up to the last '/', without trailing
      slashes unless it consists of slashes only. */
  function Dirname(p: string): string
  {
    var head := p[..NameStart(p)];
    if head != "" && !AllSlashes(head) then RStripSlashes(head) else head
  }

  /** `os.path.join(a, b)`: an absolute `b` replaces `a`; otherwise a '/' is
      inserted unless `a` is empty or already ends with one. */
  function Join(a: string, b: string): string
  {
    if IsAbs(b) then b
    else if a == "" || a[|a| - 1] == '/' then a + b
    else a + "/" + b
  }

  /** The path `p` denotes when the current directory is `cwd`: what
      `os.path.abspath` computes, without its `normpath` step. */
  function Resolve(cwd: string, p: string): string
  {
    Join(cwd, p)
  }

  predicate AllDots(s: string)
  {
    forall k :: 0 <= k < |s| ==> s[k] == '.'
  }

  /** The extension `os.path.splitext` splits off a final path component:
      from its last '.' on, provided a character other than '.' comes before
      that dot (leading dots do not start an extension); otherwise empty. */
  function ExtSuffix(name: string): string
  {
    var d := LastIndex(name, '.');
    if d > 0 && !AllDots(name[..d]) then name[d..] else ""
  }

  /** `os.path.splitext(p)[1]`: the extension is looked for in the final
      component only. */
  function SplitExt(p: string): string
  {
    ExtSuffix(Basename(p))
  }

  predicate IsUpper(c: char)
  {
    'A' <= c <= 'Z'
  }

  function LowerChar(c: char): char
  {
    if IsUpper(c) then (c - 'A' + 'a') as char else c
  }

  /** `s.lower()`, on ASCII letters. */
  function Lower(s: string): (r: string)
    ensures |r| == |s|
    ensures forall k :: 0 <= k < |s| ==> r[k] == LowerChar(s[k])
  {
    seq(|s|, k requires 0 <= k < |s| => LowerChar(s[k]))
  }

  /** `s.lstrip('.')`. */
  function LStripDots(s: string): string
  {
    if |s| > 0 && s[0] == '.' then LStripDots(s[1..]) else s
  }

  /** `os.path.splitext(p)[1].lower().lstrip('.')`: the extension the handler
      dispatches on. It holds no '.', no '/' and no upper-case letter, and a
      final component without a '.' has none. */
  function Extension(p: string): (ext: string)
    ensures '.' !in ext && '/' !in ext
    ensures forall k :: 0 <= k < |ext| ==> !IsUpper(ext[k])
    ensures '.' !in Basename(p) ==> ext == ""
  {
    var s := SplitExt(p);
    LowerWithoutDots(s);
    LStripDotsAfterLastDot(Lower(s));
    LStripDots(Lower(s))
  }

  /** Lower-casing neither creates nor removes dots and slashes. */
  lemma LowerWithoutDots(s: string)
    ensures forall k :: 0 <= k < |s| ==> (Lower(s)[k] == '.' <==> s[k] == '.')
    ensures forall k :: 0 <= k < |s| ==> (Lower(s)[k] == '/' <==> s[k] == '/')
  {
  }

  /** Stripping the leading dots of a string whose only dot is its first
      character leaves what follows that dot. */
  lemma LStripDotsAfterLastDot(s: string)
    ensures s == "" ==> LStripDots(s) == ""
    ensures |s| > 0 && s[0] == '.' && '.' !in s[1..] ==> LStripDots(s) == s[1..]
  {
    if |s| > 0 && s[0] == '.' && '.' !in s[1..] {
      assert LStripDots(s) == LStripDots(s[1..]);
      if |s| > 1 {
        assert s[1..][0] == s[1];
      }
    }
  }

  /** `s[i..i + |pat|] == pat`: `pat` occurs in `s` at `i`. */
  predicate OccursAt(s: string, pat: string, i: int)
  {
    0 <= i && i + |pat| <= |s| && s[i..i + |pat|] == pat
  }

  /** `pat in s`. */
  predicate Occurs(s: string, pat: string)
  {
    exists i | 0 <= i <= |s| :: OccursAt(s, pat, i)
  }

  /** `s.replace(pat, rep)`: every occurrence of `pat`, scanning left to right
      without overlaps, is replaced by `rep`. */
  function ReplaceAll(s: string, pat: string, rep: string): string
    requires |pat| > 0
    decreases |s|
  {
    if |s| < |pat| then s
    else if s[..|pat|] == pat then rep + ReplaceAll(s[|pat|..], pat, rep)
    else [s[0]] + ReplaceAll(s[1..], pat, rep)
  }

  /** The postcondition of `LastIndex` pins its value down. */
  lemma LastIndexIs(s: string, c: char, i: int)
    requires -1 <= i < |s| && (i >= 0 ==> s[i] == c)
    requires forall k :: i < k < |s| ==> s[k] != c
    ensures LastIndex(s, c) == i
  {
  }

  /** Appending a slash-free name to a directory prefix makes it the final
      component. */
  lemma BasenameOfAppend(dir: string, name: string)
    requires dir == "" || dir[|dir| - 1] == '/'
    requires '/' !in name
    ensures NameStart(dir + name) == |dir|
    ensures Basename(dir + name) == name
  {
    var p := dir + name;
    forall k | |dir| - 1 < k < |p|
      ensures p[k] != '/'
    {
      assert p[k] == name[k - |dir|];
    }
    LastIndexIs(p, '/', |dir| - 1);
  }

  /** `splitext` of a component whose last dot comes before `ext` and after
      some character other than '.'. */
  lemma ExtSuffixOf(stem: string, ext: string)
    requires '.' !in ext
    requires exists k :: 0 <= k < |stem| && stem[k] != '.'
    ensures ExtSuffix(stem + "." + ext) == "." + ext
  {
    var name := stem + "." + ext;
    forall k | |stem| < k < |name|
      ensures name[k] != '.'
    {
      assert name[k] == ext[k - |stem| - 1];
    }
    LastIndexIs(name, '.', |stem|);
    assert name[..|stem|] == stem;
    assert name[|stem|..] == "." + ext;
  }

  /** The extension of `dir + stem + "." + ext`, where `dir` is empty or ends
      with '/', and the final component `stem + "." + ext` has its last dot
      before `ext` and not only dots before that: `ext`, lower-cased. */
  lemma ExtensionOf(dir: string, stem: string, ext: string)
    requires dir == "" || dir[|dir| - 1] == '/'
    requires '/' !in stem && '/' !in ext && '.' !in ext
    requires exists k :: 0 <= k < |stem| && stem[k] != '.'
    ensures Extension(dir + stem + "." + ext) == Lower(ext)
  {
    var p, name := dir + stem + "." + ext, stem + "." + ext;
    assert p == dir + name;
    assert '/' !in name;
    BasenameOfAppend(dir, name);
    ExtSuffixOf(stem, ext);
    assert SplitExt(p) == "." + ext;
    LowerDotPrefix(ext);
  }

  /** Lower-casing then stripping the dot of `"." + ext`. */
  lemma LowerDotPrefix(ext: string)
    requires '.' !in ext
    ensures LStripDots(Lower("." + ext)) == Lower(ext)
  {
    var lowered := Lower("." + ext);
    assert lowered == "." + Lower(ext);
    LowerWithoutDots(ext);
    assert lowered[1..] == Lower(ext);
    LStripDotsAfterLastDot(lowered);
  }

  /** A final component is its own final component. */
  lemma BasenameOfBasename(p: string)
    ensures Basename(Basename(p)) == Basename(p)
    ensures !IsAbs(Basename(p))
  {
    BasenameOfAppend("", Basename(p));
    assert "" + Basename(p) == Basename(p);
  }

  /** Stripping trailing slashes where only the last character is one. */
  lemma RStripOneSlash(h: string)
    requires |h| >= 2 && h[|h| - 1] == '/' && h[|h| - 2] != '/'
    ensures RStripSlashes(h) == h[..|h| - 1]
  {
    assert h[..|h| - 1][|h| - 2] == h[|h| - 2];
  }

  /** Below a directory other than the root, `Dirname` drops the one '/'
      that ends the head of the path. */
  lemma DirnameDropsSlash(p: string)
    requires var head := p[..NameStart(p)];
             head != "" && !AllSlashes(head) && p[NameStart(p) - 2] != '/'
    ensures Dirname(p) + "/" == p[..NameStart(p)]
  {
    var head := p[..NameStart(p)];
    assert head[|head| - 1] == '/';
    RStripOneSlash(head);
  }

  /** The directory part of an absolute path is absolute. */
  lemma DirnameOfAbsolute(p: string)
    requires IsAbs(p)
    ensures IsAbs(Dirname(p))
  {
    var head := p[..NameStart(p)];
    assert head != "" && head[0] == '/';
    if !AllSlashes(head) {
      var r := RStripSlashes(head);
      assert r[0] == head[0];
    }
  }

  /** Changing into `Dirname(p)` and naming `Basename(p)` there denotes `p`
      again, unless the last '/' of `p` is doubled. */
  lemma ResolveBasenameInDirname(p: string)
    requires NameStart(p) < 2 || p[NameStart(p) - 2] != '/'
    ensures Resolve(Dirname(p), Basename(p)) == p
  {
    var i := NameStart(p);
    var head, name := p[..i], Basename(p);
    BasenameOfBasename(p);
    assert !IsAbs(name);
    assert p == head + name;
    if head == "" {
      assert Dirname(p) == "";
      assert Join("", name) == name;
    } else if AllSlashes(head) {
      assert Dirname(p) == head && head[|head| - 1] == '/';
      assert Join(head, name) == head + name;
    } else {
      assert head[|head| - 1] == '/' && i >= 2;
      DirnameDropsSlash(p);
      var dir := Dirname(p);
      assert dir + "/" == head;
      assert dir != "" by { assert head != "/"; }
      assert dir == RStripSlashes(head);
      assert dir[|dir| - 1] != '/';
      assert Join(dir, name) == dir + "/" + name;
      assert dir + "/" + name == head + name;
    }
  }

  /** With no occurrence of `pat`, `replace` leaves the string as it was. */
  lemma {:induction false} ReplaceWithoutOccurrence(s: string, pat: string, rep: string)
    requires |pat| > 0 && !Occurs(s, pat)
    ensures ReplaceAll(s, pat, rep) == s
    decreases |s|
  {
    if |s| >= |pat| {
      assert !OccursAt(s, pat, 0);
      forall i | 0 <= i <= |s[1..]|
        ensures !OccursAt(s[1..], pat, i)
      {
        assert !OccursAt(s, pat, i + 1);
        if i + |pat| <= |s[1..]| {
          assert s[1..][i..i + |pat|] == s[i + 1..i + 1 + |pat|];
        }
      }
      ReplaceWithoutOccurrence(s[1..], pat, rep);
    }
  }

  /** A replacement at least as long as the pattern never shortens the string. */
  lemma {:induction false} ReplaceNeverShrinks(s: string, pat: string, rep: string)
    requires |pat| > 0 && |rep| >= |pat|
    ensures |ReplaceAll(s, pat, rep)| >= |s|
    decreases |s|
  {
    if |s| >= |pat| {
      if s[..|pat|] == pat {
        ReplaceNeverShrinks(s[|pat|..], pat, rep);
      } else {
        ReplaceNeverShrinks(s[1..], pat, rep);
      }
    }
  }

  /** A replacement longer than the pattern lengthens any string in which the
      pattern occurs. */
  lemma {:induction false} ReplaceGrowsAtOccurrence(s: string, pat: string, rep: string, i: int)
    requires |pat| > 0 && |rep| > |pat| && OccursAt(s, pat, i)
    ensures |ReplaceAll(s, pat, rep)| > |s|
    decreases |s|
  {
    if s[..|pat|] == pat {
      ReplaceNeverShrinks(s[|pat|..], pat, rep);
    } else {
      assert i != 0;
      assert s[1..][i - 1..i - 1 + |pat|] == s[i..i + |pat|];
      ReplaceGrowsAtOccurrence(s[1..], pat, rep, i - 1);
    }
  }

  /** For a replacement longer than the pattern, `s.replace(pat, rep) == s`
      exactly when `pat` does not occur in `s`. */
  lemma ReplaceUnchangedIff(s: string, pat: string, rep: string)
    requires |pat| > 0 && |rep| > |pat|
    ensures ReplaceAll(s, pat, rep) == s <==> !Occurs(s, pat)
  {
    if Occurs(s, pat) {
      var i :| 0 <= i <= |s| && OccursAt(s, pat, i);
      ReplaceGrowsAtOccurrence(s, pat, rep, i);
    } else {
      ReplaceWithoutOccurrence(s, pat, rep);
    }
  }
}
