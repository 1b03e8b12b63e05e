/**
 * The cleanup of the model's reply (server.js:106):
 * `text.replace(/```/g, '').replace(/javascript/g, '')`. Both patterns are
 * plain text, so each pass deletes every left-to-right, non-overlapping
 * occurrence of its pattern, case-sensitively.
 */
module Cleanup {
  import opened Wrappers
  import opened Strings

  /**
   * Where a search of `s` for the pattern finds its match, if anywhere: the
   * text is tried at each position from the left.
   */
  function FirstMatch(s: string, pat: string): (r: Option<nat>)
    requires pat != []
    ensures r.Some? ==> r.value + |pat| <= |s|
    decreases |s|
  {
    if |s| < |pat| then None
    else if s[..|pat|] == pat then Some(0)
    else
      match FirstMatch(s[1..], pat)
      case None => None
      case Some(i) => Some(i + 1)
  }

  /**
   * The search finds the leftmost occurrence: what it finds is an occurrence
   * and none starts earlier; when it finds nothing, the pattern does not occur.
   */
  lemma {:induction false} FirstMatchFindsLeftmost(s: string, pat: string)
    requires pat != []
    ensures FirstMatch(s, pat).Some? ==> Occurs(pat, s, FirstMatch(s, pat).value)
    ensures FirstMatch(s, pat).Some? ==> forall j :: 0 <= j < FirstMatch(s, pat).value ==> !Occurs(pat, s, j)
    ensures FirstMatch(s, pat).None? <==> !Contains(s, pat)
    decreases |s|
  {
    if |s| < |pat| {
    } else if s[..|pat|] == pat {
      assert Occurs(pat, s, 0);
    } else {
      FirstMatchFindsLeftmost(s[1..], pat);
      match FirstMatch(s[1..], pat)
      case None =>
        forall i | 0 <= i <= |s| ensures !Occurs(pat, s, i) {
          if i > 0 { OccursInTail(pat, s, i - 1); }
        }
      case Some(i) =>
        OccursInTail(pat, s, i);
        forall j | 0 <= j < i + 1 ensures !Occurs(pat, s, j) {
          if j > 0 { OccursInTail(pat, s, j - 1); }
        }
    }
  }

  /** An occurrence with none before it is the one the search finds. */
  lemma FirstMatchIsLeftmost(s: string, pat: string, i: nat)
    requires pat != [] && Occurs(pat, s, i)
    requires forall j :: 0 <= j < i ==> !Occurs(pat, s, j)
    ensures FirstMatch(s, pat) == Some(i)
  {
    FirstMatchFindsLeftmost(s, pat);
    var m := FirstMatch(s, pat);
    assert m.Some?;
    assert !(m.value < i);
    assert !(m.value > i);
  }

  /**
   * `s.replace(/pat/g, '')` for a pattern with no special characters, as the
   * regex semantics run it: search from the current position; with no match
   * the rest of the text is kept; otherwise the text before the match is
   * kept, the match dropped, and the search goes on right after it. An empty
   * pattern deletes nothing.
   */
  function DeleteAll(s: string, pat: string): (r: string)
    ensures |r| <= |s|
    decreases |s|
  {
    if pat == [] then s
    else
      match FirstMatch(s, pat)
      case None => s
      case Some(i) => s[..i] + DeleteAll(s[i + |pat|..], pat)
  }

  /** Text in which the pattern does not occur comes back unchanged. */
  lemma DeleteAllWithoutMatch(s: string, pat: string)
    requires pat != [] && !Contains(s, pat)
    ensures DeleteAll(s, pat) == s
  {
    FirstMatchFindsLeftmost(s, pat);
  }

  /**
   * Reference definition of cutting the text at the occurrences the search
   * finds, left to right and without overlap: the pieces between them.
   */
  function Split(s: string, pat: string): (pieces: seq<string>)
    requires pat != []
    ensures |pieces| >= 1
    decreases |s|
  {
    match FirstMatch(s, pat)
    case None => [s]
    case Some(i) => [s[..i]] + Split(s[i + |pat|..], pat)
  }

  /** Reference definition: the pieces with `sep` between each two of them. */
  function Join(pieces: seq<string>, sep: string): string
    requires |pieces| >= 1
  {
    if |pieces| == 1 then pieces[0] else pieces[0] + sep + Join(pieces[1..], sep)
  }

  /** Reference definition: the pieces one after another. */
  function Concat(pieces: seq<string>): string {
    if pieces == [] then [] else pieces[0] + Concat(pieces[1..])
  }

  /**
   * Splitting at the occurrences and joining back with the pattern gives the
   * text back: what lies between the pieces is exactly the pattern.
   */
  lemma {:induction false} JoinSplit(s: string, pat: string)
    requires pat != []
    ensures Join(Split(s, pat), pat) == s
    decreases |s|
  {
    FirstMatchFindsLeftmost(s, pat);
    match FirstMatch(s, pat)
    case None =>
    case Some(i) =>
      var rest := s[i + |pat|..];
      JoinSplit(rest, pat);
      JoinCons(s[..i], Split(rest, pat), pat);
      CutAround(s, pat, i);
  }

  lemma JoinCons(a: string, pieces: seq<string>, sep: string)
    requires |pieces| >= 1
    ensures Join([a] + pieces, sep) == a + sep + Join(pieces, sep)
  {
  }

  /** The text around an occurrence, with the occurrence put back. */
  lemma CutAround(s: string, pat: string, i: nat)
    requires Occurs(pat, s, i)
    ensures s == s[..i] + pat + s[i + |pat|..]
  {
  }

  /** Text before the leftmost occurrence holds no occurrence of its own. */
  lemma PrefixBeforeLeftmost(s: string, pat: string, i: nat)
    requires pat != [] && i <= |s|
    requires forall j :: 0 <= j < i ==> !Occurs(pat, s, j)
    ensures !Contains(s[..i], pat)
  {
    forall j | 0 <= j <= i ensures !Occurs(pat, s[..i], j) {
      if j + |pat| <= i {
        assert s[..i][j..j + |pat|] == s[j..j + |pat|];
        assert !Occurs(pat, s, j);
      }
    }
  }

  /**
   * No piece of the split holds the pattern: together with `JoinSplit`, the
   * pieces are the text cut at occurrences, none left uncut.
   */
  lemma {:induction false} SplitPiecesHoldNoMatch(s: string, pat: string)
    requires pat != []
    ensures forall k :: 0 <= k < |Split(s, pat)| ==> !Contains(Split(s, pat)[k], pat)
    decreases |s|
  {
    FirstMatchFindsLeftmost(s, pat);
    match FirstMatch(s, pat)
    case None =>
    case Some(i) =>
      var rest := s[i + |pat|..];
      SplitPiecesHoldNoMatch(rest, pat);
      PrefixBeforeLeftmost(s, pat, i);
      var pieces := Split(s, pat);
      assert pieces == [s[..i]] + Split(rest, pat);
      forall k | 0 <= k < |pieces| ensures !Contains(pieces[k], pat) {
        if k > 0 {
          assert pieces[k] == Split(rest, pat)[k - 1];
        }
      }
  }

  /** Deleting every occurrence leaves exactly the pieces between them, in order. */
  lemma {:induction false} DeleteAllKeepsPieces(s: string, pat: string)
    requires pat != []
    ensures DeleteAll(s, pat) == Concat(Split(s, pat))
    decreases |s|
  {
    match FirstMatch(s, pat)
    case None =>
      assert Concat([s]) == s + Concat([]);
    case Some(i) =>
      var rest := s[i + |pat|..];
      DeleteAllKeepsPieces(rest, pat);
      ConcatCons(s[..i], Split(rest, pat));
  }

  lemma ConcatCons(a: string, pieces: seq<string>)
    ensures Concat([a] + pieces) == a + Concat(pieces)
  {
  }

  lemma {:induction false} JoinLength(pieces: seq<string>, sep: string)
    requires |pieces| >= 1
    ensures |Join(pieces, sep)| == |Concat(pieces)| + (|pieces| - 1) * |sep|
  {
    if |pieces| > 1 {
      JoinLength(pieces[1..], sep);
    } else {
      assert Concat(pieces) == pieces[0] + Concat([]);
    }
  }

  /**
   * What one pass removes is exactly some number of copies of the pattern: the
   * text is the kept pieces with the pattern between each two of them, and
   * the result is those pieces alone.
   */
  lemma DeleteAllRemovesWholeCopies(s: string, pat: string)
    requires pat != []
    ensures var pieces := Split(s, pat);
            && Join(pieces, pat) == s
            && DeleteAll(s, pat) == Concat(pieces)
            && |s| == |DeleteAll(s, pat)| + (|pieces| - 1) * |pat|
  {
    JoinSplit(s, pat);
    DeleteAllKeepsPieces(s, pat);
    JoinLength(Split(s, pat), pat);
  }

  const Fence := "```"
  const LanguageTag := "javascript"

  /** The whole cleanup: code fences first, then the language tag. */
  function CleanReply(text: string): (r: string)
    ensures |r| <= |text|
  {
    DeleteAll(DeleteAll(text, Fence), LanguageTag)
  }

  /** A reply with neither a code fence nor the language tag comes back unchanged. */
  lemma CleanReplyKeepsPlainText(text: string)
    requires !Contains(text, Fence) && !Contains(text, LanguageTag)
    ensures CleanReply(text) == text
  {
    DeleteAllWithoutMatch(text, Fence);
    DeleteAllWithoutMatch(text, LanguageTag);
  }

  /** A pattern whose first character is absent from the text does not occur in it. */
  lemma AbsentFirstCharMeansNoMatch(s: string, pat: string)
    requires pat != [] && pat[0] !in s
    ensures !Contains(s, pat)
  {
  }

  /** The deletion is case-sensitive: a capitalised tag survives. */
  lemma CapitalisedTagSurvives()
    ensures CleanReply("JavaScript") == "JavaScript"
  {
    AbsentFirstCharMeansNoMatch("JavaScript", Fence);
    AbsentFirstCharMeansNoMatch("JavaScript", LanguageTag);
    CleanReplyKeepsPlainText("JavaScript");
  }

  /** In `javajavascriptscript` the search finds the tag after the first four characters. */
  lemma SplitTagFoundAfterPrefix()
    ensures FirstMatch("java" + LanguageTag + "script", LanguageTag) == Some(4)
  {
    var s := "java" + LanguageTag + "script";
    assert s[4..14] == LanguageTag;
    forall j | 0 <= j < 4 ensures !Occurs(LanguageTag, s, j) {
      assert s[j..j + 10][4] == s[j + 4] == LanguageTag[j];
    }
    FirstMatchIsLeftmost(s, LanguageTag, 4);
  }

  /**
   * Deleting the tag can join its two halves into a new tag, which the single
   * pass keeps: `javajavascriptscript` cleans to `javascript`.
   */
  lemma TagCanSurviveCleanup()
    ensures CleanReply("java" + LanguageTag + "script") == LanguageTag
    ensures Contains(CleanReply("java" + LanguageTag + "script"), LanguageTag)
  {
    var s := "java" + LanguageTag + "script";
    NoBacktickNoFence(s);
    SplitTagFoundAfterPrefix();
    DeleteAtMatch(s, LanguageTag, 4);
    assert s[..4] + s[14..] == LanguageTag;
    assert Occurs(LanguageTag, LanguageTag, 0);
  }

  /** The fence pass leaves text without a backtick as it is. */
  lemma NoBacktickNoFence(s: string)
    requires '`' !in s
    ensures DeleteAll(s, Fence) == s
  {
    AbsentFirstCharMeansNoMatch(s, Fence);
    DeleteAllWithoutMatch(s, Fence);
  }

  /** One step of the pass: cut the match the search finds and go on after it. */
  lemma DeleteAtMatch(s: string, pat: string, i: nat)
    requires pat != [] && FirstMatch(s, pat) == Some(i)
    requires |s| - i - |pat| < |pat|
    ensures DeleteAll(s, pat) == s[..i] + s[i + |pat|..]
  {
  }

  /** In `` `javascript`` `` the search finds the tag after the first backtick. */
  lemma FencedTagFoundAfterBacktick()
    ensures FirstMatch("`" + LanguageTag + "``", LanguageTag) == Some(1)
  {
    var s := "`" + LanguageTag + "``";
    assert s[1..11] == LanguageTag;
    assert !Occurs(LanguageTag, s, 0) by {
      assert s[0..10][0] == '`';
    }
    FirstMatchIsLeftmost(s, LanguageTag, 1);
  }

  /** Deleting the tag can bring backticks together into a new code fence. */
  lemma FenceCanSurviveCleanup()
    ensures CleanReply("`" + LanguageTag + "``") == Fence
    ensures Contains(CleanReply("`" + LanguageTag + "``"), Fence)
  {
    var s := "`" + LanguageTag + "``";
    assert DeleteAll(s, Fence) == s by {
      forall i | 0 <= i <= |s| ensures !Occurs(Fence, s, i) {
        if i + 3 <= |s| {
          var k := if i == 0 then 1 else i;
          assert s[i..i + 3][k - i] == s[k] == LanguageTag[k - 1];
        }
      }
      DeleteAllWithoutMatch(s, Fence);
    }
    FencedTagFoundAfterBacktick();
    DeleteAtMatch(s, LanguageTag, 1);
    assert s[..1] + s[11..] == Fence;
    assert Occurs(Fence, Fence, 0);
  }
}
