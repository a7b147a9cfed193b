/** How a command string falls apart into words. The handler builds each
    command by pasting its arguments together with single spaces and hands the
    string to a shell. `Split` is Python's `s.split(' ')`, the words a split at
    single spaces gives; it gives back exactly the arguments that were pasted
    together when none of them contains a space. What the shell does beyond
    that (blanks other than a single space, expansions, quotes, redirections)
    is not modelled. */
module Shell {

  /** `s.split(' ')`: the pieces of `s` between single spaces. */
  function Split(s: string): (words: seq<string>)
    ensures |words| >= 1
    decreases |s|
  {
    if |s| == 0 then [""]
    else
      var rest := Split(s[1..]);
      if s[0] == ' ' then [""] + rest else [[s[0]] + rest[0]] + rest[1..]
  }

  /** `' '.join(words)`: one space between each two words. */
  function JoinWords(words: seq<string>): (s: string)
    requires |words| >= 1
    ensures |s| >= |words| - 1 + |words[0]|
  {
    if |words| == 1 then words[0] else words[0] + " " + JoinWords(words[1..])
  }

  /** A word followed by a space splits off as the first piece. */
  lemma {:induction false} SplitAfterWord(w: string, t: string)
    requires ' ' !in w
    ensures Split(w + " " + t) == [w] + Split(t)
    decreases |w|
  {
    if w == "" {
      assert (w + " " + t)[1..] == t;
    } else {
      assert (w + " " + t)[1..] == w[1..] + " " + t;
      SplitAfterWord(w[1..], t);
      assert [w[0]] + w[1..] == w;
    }
  }

  /** A string without spaces is a single piece. */
  lemma {:induction false} SplitOfWord(w: string)
    requires ' ' !in w
    ensures Split(w) == [w]
    decreases |w|
  {
    if w != "" {
      SplitOfWord(w[1..]);
      assert [w[0]] + w[1..] == w;
    }
  }

  /** Splitting undoes joining when no argument contains a space. */
  lemma {:induction false} SplitJoinWords(words: seq<string>)
    requires |words| >= 1
    requires forall k :: 0 <= k < |words| ==> ' ' !in words[k]
    ensures Split(JoinWords(words)) == words
    decreases |words|
  {
    if |words| == 1 {
      SplitOfWord(words[0]);
    } else {
      SplitJoinWords(words[1..]);
      SplitAfterWord(words[0], JoinWords(words[1..]));
      assert [words[0]] + words[1..] == words;
    }
  }

  /** Joining one word more adds a space and that word at the end. */
  lemma {:induction false} JoinWordsSnoc(words: seq<string>, w: string)
    requires |words| >= 1
    ensures JoinWords(words + [w]) == JoinWords(words) + " " + w
    decreases |words|
  {
    if |words| > 1 {
      assert (words + [w])[1..] == words[1..] + [w];
      JoinWordsSnoc(words[1..], w);
    }
  }

  /** The last word of several is joined on after a space. */
  lemma JoinWordsLast(words: seq<string>)
    requires |words| >= 2
    ensures JoinWords(words) == JoinWords(words[..|words| - 1]) + " " + words[|words| - 1]
  {
    var init, last := words[..|words| - 1], words[|words| - 1];
    JoinWordsSnoc(init, last);
    assert init + [last] == words;
  }

  /** Joining an argument that holds a space gives the same text as joining
      its two halves as separate words. */
  lemma {:induction false} JoinSpacedWord(pre: seq<string>, a: string, b: string, post: seq<string>)
    ensures JoinWords(pre + [a + " " + b] + post) == JoinWords(pre + [a, b] + post)
    decreases |pre|
  {
    if pre == [] {
      assert [a + " " + b] + post == [a + " " + b] + post;
      assert ([a, b] + post)[1..] == [b] + post;
      if post != [] {
        assert ([a + " " + b] + post)[1..] == post;
        assert ([b] + post)[1..] == post;
      }
      assert pre + [a + " " + b] + post == [a + " " + b] + post;
      assert pre + [a, b] + post == [a, b] + post;
    } else {
      JoinSpacedWord(pre[1..], a, b, post);
      assert (pre + [a + " " + b] + post)[1..] == pre[1..] + [a + " " + b] + post;
      assert (pre + [a, b] + post)[1..] == pre[1..] + [a, b] + post;
    }
  }

  /** A space inside an argument splits it: wherever it stands in the
      command, the argument reaches the tool as two words. */
  lemma SpaceSplitsArgument(pre: seq<string>, a: string, b: string, post: seq<string>)
    requires ' ' !in a && ' ' !in b
    requires forall k :: 0 <= k < |pre| ==> ' ' !in pre[k]
    requires forall k :: 0 <= k < |post| ==> ' ' !in post[k]
    ensures Split(JoinWords(pre + [a + " " + b] + post)) == pre + [a, b] + post
  {
    var words := pre + [a, b] + post;
    WordsAroundWithoutSpace(pre, [a, b], post);
    SplitJoinWords(words);
    JoinSpacedWord(pre, a, b, post);
  }

  /** Words without spaces on either side of others without spaces. */
  lemma WordsAroundWithoutSpace(pre: seq<string>, mid: seq<string>, post: seq<string>)
    requires forall k :: 0 <= k < |pre| ==> ' ' !in pre[k]
    requires forall k :: 0 <= k < |mid| ==> ' ' !in mid[k]
    requires forall k :: 0 <= k < |post| ==> ' ' !in post[k]
    ensures var words := pre + mid + post;
            forall k :: 0 <= k < |words| ==> ' ' !in words[k]
  {
    var words := pre + mid + post;
    forall k | 0 <= k < |words|
      ensures ' ' !in words[k]
    {
      if k < |pre| {
        assert words[k] == pre[k];
      } else if k < |pre| + |mid| {
        assert words[k] == mid[k - |pre|];
      } else {
        assert words[k] == post[k - |pre| - |mid|];
      }
    }
  }
}
