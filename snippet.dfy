/**
 * `get_description_snippet`: the first `max_lines` pieces of the description
 * split on '\n', joined again with '\n'.
 */
module Snippet {
  import opened Strings

  const DESCRIPTION_MAX_LINES := 30

  /** How many items Python's slice `xs[:n]` keeps of a list of length `len`. */
  function SliceStop(len: nat, n: int): (k: nat)
    ensures k <= len
  {
    if n >= 0 then (if n < len then n else len)
    else if len + n > 0 then len + n else 0
  }

  function DescriptionSnippet(description: string, maxLines: int): string {
    var lines := Split(description, '\n');
    Join(lines[..SliceStop(|lines|, maxLines)], '\n')
  }

  /** Number of lines kept: the pieces of the split that survive the slice. */
  function KeptLines(description: string, maxLines: int): nat {
    SliceStop(|Split(description, '\n')|, maxLines)
  }

  function NewlineCount(s: string): nat {
    multiset(s)['\n']
  }

  /** The snippet is always a prefix of the description. */
  lemma SnippetIsPrefix(description: string, maxLines: int)
    ensures DescriptionSnippet(description, maxLines) <= description
  {
    var lines := Split(description, '\n');
    JoinPrefix(lines, SliceStop(|lines|, maxLines), '\n');
    JoinSplit(description, '\n');
  }

  /** The snippet's lines are exactly the first lines of the description. */
  lemma SnippetLines(description: string, maxLines: int)
    ensures var kept := KeptLines(description, maxLines);
      && (kept == 0 ==> DescriptionSnippet(description, maxLines) == "")
      && (kept >= 1 ==>
            Split(DescriptionSnippet(description, maxLines), '\n')
              == Split(description, '\n')[..kept])
  {
    var lines := Split(description, '\n');
    var kept := KeptLines(description, maxLines);
    if kept >= 1 {
      assert NoSeparator(lines[..kept], '\n');
      SplitJoin(lines[..kept], '\n');
    }
  }

  /** Exactly `kept - 1` newlines survive (none when nothing is kept). */
  lemma SnippetNewlines(description: string, maxLines: int)
    ensures var kept := KeptLines(description, maxLines);
      NewlineCount(DescriptionSnippet(description, maxLines)) == if kept == 0 then 0 else kept - 1
    ensures maxLines >= 1 ==> NewlineCount(DescriptionSnippet(description, maxLines)) <= maxLines - 1
    ensures maxLines == 0 ==> DescriptionSnippet(description, maxLines) == ""
  {
    var lines := Split(description, '\n');
    var kept := KeptLines(description, maxLines);
    if kept >= 1 {
      assert NoSeparator(lines[..kept], '\n');
      JoinCount(lines[..kept], '\n');
    }
  }

  /** A description with at most `maxLines` lines is returned unchanged. */
  lemma SnippetOfShortText(description: string, maxLines: int)
    requires |Split(description, '\n')| <= maxLines
    ensures DescriptionSnippet(description, maxLines) == description
  {
    var lines := Split(description, '\n');
    assert lines[..|lines|] == lines;
    JoinSplit(description, '\n');
  }

  /** Taking the snippet twice gives the same text, for a non-negative line limit. */
  lemma SnippetIdempotent(description: string, maxLines: int)
    requires maxLines >= 0
    ensures DescriptionSnippet(DescriptionSnippet(description, maxLines), maxLines)
      == DescriptionSnippet(description, maxLines)
  {
    var once := DescriptionSnippet(description, maxLines);
    var kept := KeptLines(description, maxLines);
    SnippetLines(description, maxLines);
    if kept == 0 {
      assert Split(once, '\n') == [""];
    } else {
      assert |Split(once, '\n')| == kept <= maxLines;
      SnippetOfShortText(once, maxLines);
    }
  }
}
