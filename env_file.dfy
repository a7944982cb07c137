/**
 * Saving the search API key into the `.env` text (app/ui.py): every line
 * that sets the key is replaced when the key is already mentioned, and a new
 * line is appended otherwise. Only the text transformation is modelled; the
 * file is read and written by the caller.
 */
module EnvFile {
  import opened Text

  const KeyPrefix := "TAVILY_API_KEY="

  /** The line that sets the key. */
  function KeyLine(key: string): string {
    KeyPrefix + key
  }

  predicate SetsKey(line: string) {
    KeyPrefix <= line
  }

  /** One line of the update branch: a line that sets the key is replaced, any other is kept. */
  function RewriteLine(line: string, key: string): string {
    if SetsKey(line) then KeyLine(key) else line
  }

  function RewriteLines(lines: seq<string>, key: string): (r: seq<string>)
    ensures |r| == |lines| && forall i :: 0 <= i < |lines| ==> r[i] == RewriteLine(lines[i], key)
  {
    seq(|lines|, i requires 0 <= i < |lines| => RewriteLine(lines[i], key))
  }

  /** The text separating existing content from an appended line: a newline unless the content is empty or already ends in one. */
  function Separator(content: string): string {
    if content != [] && content[|content| - 1] != '\n' then "\n" else ""
  }

  /**
   * The new `.env` text: when the key prefix occurs anywhere in the content,
   * the content's lines with every key-setting line replaced; otherwise the
   * content, a separating newline if needed, and the key line with its own
   * newline.
   */
  function UpdatedContent(content: string, key: string): string {
    if Contains(content, KeyPrefix) then Join(RewriteLines(Split(content, '\n'), key), '\n')
    else content + Separator(content) + KeyLine(key) + "\n"
  }

  /** The update as the code performs it: split, rebuild the lines one by one, join; or append. */
  method UpdateEnvContent(content: string, key: string) returns (updated: string)
    ensures updated == UpdatedContent(content, key)
  {
    if Contains(content, KeyPrefix) {
      var lines := Split(content, '\n');
      var newLines: seq<string> := [];
      for i := 0 to |lines|
        invariant |newLines| == i
        invariant forall j :: 0 <= j < i ==> newLines[j] == RewriteLine(lines[j], key)
      {
        if SetsKey(lines[i]) {
          newLines := newLines + [KeyLine(key)];
        } else {
          newLines := newLines + [lines[i]];
        }
      }
      assert newLines == RewriteLines(lines, key);
      updated := Join(newLines, '\n');
    } else {
      var envContent := content;
      if envContent != [] && envContent[|envContent| - 1] != '\n' {
        envContent := envContent + "\n";
      }
      updated := envContent + KeyLine(key) + "\n";
    }
  }

  /** The rewritten lines never contain a newline when the key does not. */
  lemma RewrittenLinesFree(content: string, key: string)
    requires '\n' !in key
    ensures forall i :: 0 <= i < |Split(content, '\n')| ==> '\n' !in RewriteLines(Split(content, '\n'), key)[i]
  {
    var lines := Split(content, '\n');
    SplitPiecesFree(content, '\n');
    forall i | 0 <= i < |lines| ensures '\n' !in RewriteLines(lines, key)[i] {
      if SetsKey(lines[i]) {
        assert '\n' !in KeyPrefix;
      }
    }
  }

  /**
   * When the key is already mentioned, the new text has exactly the old
   * text's lines, in order, each key-setting line now exactly the new key
   * line and every other line unchanged (so the line count is kept).
   */
  lemma {:induction false} ReplacedLines(content: string, key: string)
    requires Contains(content, KeyPrefix) && '\n' !in key
    ensures var old_lines := Split(content, '\n');
      var new_lines := Split(UpdatedContent(content, key), '\n');
      |new_lines| == |old_lines| &&
      forall i :: 0 <= i < |old_lines| ==>
        (SetsKey(old_lines[i]) ==> new_lines[i] == KeyLine(key)) &&
        (!SetsKey(old_lines[i]) ==> new_lines[i] == old_lines[i])
  {
    var lines := Split(content, '\n');
    RewrittenLinesFree(content, key);
    SplitJoin(RewriteLines(lines, key), '\n');
  }

  /**
   * When the key is not mentioned, the old text is kept as a prefix and is
   * followed by a newline only if it was non-empty and did not end in one,
   * then by the key line and a final newline.
   */
  lemma AppendedLine(content: string, key: string)
    requires !Contains(content, KeyPrefix)
    ensures var r := UpdatedContent(content, key);
      content <= r && r[|r| - 1] == '\n' &&
      r[|r| - 1 - |KeyLine(key)|..|r| - 1] == KeyLine(key) &&
      (content == [] ==> r == KeyLine(key) + "\n") &&
      (content != [] && content[|content| - 1] == '\n' ==> |r| == |content| + |KeyLine(key)| + 1) &&
      (content != [] && content[|content| - 1] != '\n' ==> |r| == |content| + |KeyLine(key)| + 2 && r[|content|] == '\n')
  {
    var r := UpdatedContent(content, key);
    assert r == content + Separator(content) + KeyLine(key) + "\n";
    assert r[|r| - 1 - |KeyLine(key)|..|r| - 1] == KeyLine(key);
  }

  /** If the key prefix only ever occurs in the middle of lines, the text comes back unchanged. */
  lemma MidLineOnlyUnchanged(content: string, key: string)
    requires Contains(content, KeyPrefix)
    requires forall i :: 0 <= i < |Split(content, '\n')| ==> !SetsKey(Split(content, '\n')[i])
    ensures UpdatedContent(content, key) == content
  {
    var lines := Split(content, '\n');
    assert RewriteLines(lines, key) == lines;
    JoinSplit(content, '\n');
  }

  /** Saving the same key twice leaves the same text as saving it once. */
  lemma Idempotent(content: string, key: string)
    requires '\n' !in key
    ensures UpdatedContent(UpdatedContent(content, key), key) == UpdatedContent(content, key)
  {
    if Contains(content, KeyPrefix) {
      IdempotentReplace(content, key);
    } else {
      IdempotentAppend(content, key);
    }
  }

  lemma IdempotentReplace(content: string, key: string)
    requires '\n' !in key && Contains(content, KeyPrefix)
    ensures UpdatedContent(UpdatedContent(content, key), key) == UpdatedContent(content, key)
  {
    var r := UpdatedContent(content, key);
    var lines := Split(content, '\n');
    var newLines := RewriteLines(lines, key);
    assert r == Join(newLines, '\n');
    RewrittenLinesFree(content, key);
    SplitJoin(newLines, '\n');
    assert Contains(r, KeyPrefix) by {
      if exists i :: 0 <= i < |lines| && SetsKey(lines[i]) {
        var i :| 0 <= i < |lines| && SetsKey(lines[i]);
        PieceAt(r, '\n', i);
        assert KeyPrefix <= newLines[i][0..];
        ContainsTrans(r, newLines[i], KeyPrefix);
      } else {
        MidLineOnlyUnchanged(content, key);
      }
    }
    assert RewriteLines(newLines, key) == newLines;
  }

  lemma IdempotentAppend(content: string, key: string)
    requires '\n' !in key && !Contains(content, KeyPrefix)
    ensures UpdatedContent(UpdatedContent(content, key), key) == UpdatedContent(content, key)
  {
    var r := UpdatedContent(content, key);
    KeyLinePresent(content, key);
    FixedLines(content, key, r);
    var rl := Split(r, '\n');
    forall i | 0 <= i < |rl| ensures RewriteLine(rl[i], key) == rl[i] {
      if SetsKey(rl[i]) {
        assert rl[i] == KeyLine(key);
      }
    }
    assert RewriteLines(rl, key) == rl;
    JoinSplit(r, '\n');
  }

  lemma KeyLinePresent(content: string, key: string)
    requires !Contains(content, KeyPrefix)
    ensures Contains(UpdatedContent(content, key), KeyPrefix)
  {
    var r := UpdatedContent(content, key);
    var at := |content + Separator(content)|;
    assert r[at..] == KeyLine(key) + "\n";
    assert KeyPrefix <= r[at..];
  }

  /** After an append, the only line of the new text that sets the key is the appended one. */
  lemma FixedLines(content: string, key: string, r: string)
    requires !Contains(content, KeyPrefix) && '\n' !in key && r == UpdatedContent(content, key)
    ensures forall i :: 0 <= i < |Split(r, '\n')| && SetsKey(Split(r, '\n')[i]) ==> Split(r, '\n')[i] == KeyLine(key)
  {
    var tail := KeyLine(key) + "\n";
    KeyTailPieces(key);
    if content != [] {
      var d := if content[|content| - 1] == '\n' then content[..|content| - 1] else content;
      assert r == d + ['\n'] + tail;
      SplitConcat(d, tail, '\n');
      assert d <= content[0..];
      if Contains(d, KeyPrefix) {
        ContainsTrans(content, d, KeyPrefix);
      }
      NoKeyPieces(d);
    }
  }

  lemma KeyTailPieces(key: string)
    requires '\n' !in key
    ensures Split(KeyLine(key) + "\n", '\n') == [KeyLine(key), ""]
  {
    assert '\n' !in KeyPrefix;
    SplitConcat(KeyLine(key), "", '\n');
    SplitFree(KeyLine(key), '\n');
    assert KeyLine(key) + "\n" == KeyLine(key) + ['\n'] + "";
  }

  /** A text that never mentions the key prefix has no line that sets the key. */
  lemma NoKeyPieces(d: string)
    requires !Contains(d, KeyPrefix)
    ensures forall i :: 0 <= i < |Split(d, '\n')| ==> !SetsKey(Split(d, '\n')[i])
  {
    forall i | 0 <= i < |Split(d, '\n')| ensures !SetsKey(Split(d, '\n')[i]) {
      PieceAt(d, '\n', i);
    }
  }
}
