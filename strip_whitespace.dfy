/** The trailing-whitespace stripper: which files it processes, how it decides that a
    file needs rewriting, and what each line becomes. Reading, writing and walking
    the directory tree are left to the caller: a file is its list of lines as
    `readlines` returns them, and the walk is its list of directories with their
    file names. */
module StripWhitespace {

  /** Python's `str.isspace` for one character: the ASCII whitespace and separator
      controls, and the Unicode spaces and line and paragraph separators. */
  predicate IsSpace(c: char)
  {
    c == ' ' || ('\t' <= c <= '\r') || ('\U{1C}' <= c <= '\U{1F}') || c == '\U{85}' || c == '\U{A0}' ||
    c == '\U{1680}' || ('\U{2000}' <= c <= '\U{200A}') || c == '\U{2028}' || c == '\U{2029}' ||
    c == '\U{202F}' || c == '\U{205F}' || c == '\U{3000}'
  }

  /** `s.rstrip()`: `s` without its trailing whitespace. */
  function RStrip(s: string): (r: string)
    ensures r <= s
    ensures forall i :: |r| <= i < |s| ==> IsSpace(s[i])
    ensures r == [] || !IsSpace(r[|r| - 1])
  {
    if |s| > 0 && IsSpace(s[|s| - 1]) then RStrip(s[..|s| - 1]) else s
  }

  /** `s.rstrip('\n')`: `s` without its trailing newlines. */
  function RStripNewlines(s: string): (r: string)
    ensures r <= s
    ensures forall i :: |r| <= i < |s| ==> s[i] == '\n'
    ensures r == [] || r[|r| - 1] != '\n'
  {
    if |s| > 0 && s[|s| - 1] == '\n' then RStripNewlines(s[..|s| - 1]) else s
  }

  /** Stripping twice strips nothing more. */
  lemma RStripIdempotent(s: string)
    ensures RStrip(RStrip(s)) == RStrip(s)
  {
  }

  /** Whitespace appended to a string is stripped with the rest. */
  lemma {:induction false} RStripAppendSpace(s: string, c: char)
    requires IsSpace(c)
    ensures RStrip(s + [c]) == RStrip(s)
  {
    assert (s + [c])[..|s|] == s;
  }

  /** The line that results from `line`: stripped, its final newline kept. */
  function StripLine(line: string): string
  {
    if |line| > 0 && line[|line| - 1] == '\n' then RStrip(line) + "\n" else RStrip(line)
  }

  /** No whitespace before the line's final newline (if any) is left. */
  predicate NoTrailingWhitespace(line: string)
  {
    var body := if |line| > 0 && line[|line| - 1] == '\n' then line[..|line| - 1] else line;
    body == [] || !IsSpace(body[|body| - 1])
  }

  /** A stripped line keeps its final newline exactly when it had one, and has no
      trailing whitespace before it. */
  lemma StripLineProps(line: string)
    ensures var out := StripLine(line);
      && (|out| > 0 && out[|out| - 1] == '\n' <==> |line| > 0 && line[|line| - 1] == '\n')
      && NoTrailingWhitespace(out)
  {
    var out := StripLine(line);
    if |line| > 0 && line[|line| - 1] == '\n' {
      assert out[..|out| - 1] == RStrip(line);
    }
  }

  /** Stripping a stripped line changes nothing. */
  lemma StripLineIdempotent(line: string)
    ensures StripLine(StripLine(line)) == StripLine(line)
  {
    var out := StripLine(line);
    if |line| > 0 && line[|line| - 1] == '\n' {
      var r := RStrip(line);
      assert out == r + ['\n'];
      RStripAppendSpace(r, '\n');
      RStripIdempotent(line);
    } else {
      RStripIdempotent(line);
    }
  }

  /** The list comprehension of `strip_trailing_whitespace`: every line stripped. */
  function StripLines(lines: seq<string>): (out: seq<string>)
    ensures |out| == |lines|
    ensures forall i :: 0 <= i < |lines| ==> out[i] == StripLine(lines[i])
  {
    seq(|lines|, i requires 0 <= i < |lines| => StripLine(lines[i]))
  }

  /** The transform keeps the number of lines, leaves no trailing whitespace, and
      is idempotent. */
  lemma StripLinesProps(lines: seq<string>)
    ensures |StripLines(lines)| == |lines|
    ensures forall i :: 0 <= i < |lines| ==> NoTrailingWhitespace(StripLines(lines)[i])
    ensures StripLines(StripLines(lines)) == StripLines(lines)
  {
    forall i | 0 <= i < |lines|
      ensures NoTrailingWhitespace(StripLines(lines)[i])
      ensures StripLine(StripLine(lines[i])) == StripLine(lines[i])
    {
      StripLineProps(lines[i]);
      StripLineIdempotent(lines[i]);
    }
  }

  /** The detection: some line differs between `rstrip()` and `rstrip('\n')`. */
  predicate HasTrailingWhitespace(lines: seq<string>)
  {
    exists i :: 0 <= i < |lines| && RStrip(lines[i]) != RStripNewlines(lines[i])
  }

  /** A line as `readlines` returns it: its only newline, if any, is its last
      character. */
  predicate IsReadLine(line: string)
  {
    forall i :: 0 <= i < |line| - 1 ==> line[i] != '\n'
  }

  /** For one line as `readlines` gives it, the detection fires exactly when the
      transform would change the line. */
  lemma DetectLine(line: string)
    requires IsReadLine(line)
    ensures RStrip(line) != RStripNewlines(line) <==> StripLine(line) != line
  {
    if |line| > 0 && line[|line| - 1] == '\n' {
      var body := line[..|line| - 1];
      assert line == body + ['\n'];
      RStripAppendSpace(body, '\n');
      assert RStripNewlines(body) == body;
      assert RStripNewlines(line) == body;
      if RStrip(body) == body {
        assert StripLine(line) == line;
      }
    } else {
      assert RStripNewlines(line) == line;
    }
  }

  /** The file is rewritten exactly when the transform changes some line, so an
      unchanged file is never rewritten. */
  lemma DetectionExact(lines: seq<string>)
    requires forall i :: 0 <= i < |lines| ==> IsReadLine(lines[i])
    ensures HasTrailingWhitespace(lines) <==> StripLines(lines) != lines
  {
    forall i | 0 <= i < |lines|
      ensures RStrip(lines[i]) != RStripNewlines(lines[i]) <==> StripLine(lines[i]) != lines[i]
    {
      DetectLine(lines[i]);
    }
    if StripLines(lines) != lines {
      var i :| 0 <= i < |lines| && StripLines(lines)[i] != lines[i];
    }
  }

  /** `strip_trailing_whitespace` without its I/O: the lines written back, when the
      file has trailing whitespace; nothing when it does not. */
  function StripFile(lines: seq<string>): (written: Option<seq<string>>)
    ensures written.Some? <==> HasTrailingWhitespace(lines)
    ensures written.Some? ==> written.value == StripLines(lines)
  {
    if HasTrailingWhitespace(lines) then Some(StripLines(lines)) else None
  }

  datatype Option<T> = None | Some(value: T)

  // ---------------------------------------------------------------------------
  // File selection

  /** The extensions of the files processed. */
  const TARGET_EXTENSIONS: seq<string> :=
    [".js", ".css", ".html", ".example", ".md", ".mmd", ".py", ".yaml", ".yml", ".sh", ".txt", ".h", ".cpp"]

  predicate EndsWith(s: string, suffix: string)
  {
    |suffix| <= |s| && s[|s| - |suffix|..] == suffix
  }

  /** `t` occurs in `s` as a substring. */
  predicate Contains(s: string, t: string)
  {
    exists i :: 0 <= i <= |s| - |t| && OccursAt(s, t, i)
  }

  predicate OccursAt(s: string, t: string, i: int)
  {
    0 <= i <= |s| - |t| && s[i..i + |t|] == t
  }

  /** `filename.endswith(TARGET_EXTENSIONS)`. */
  predicate HasTargetExtension(filename: string)
  {
    exists k :: 0 <= k < |TARGET_EXTENSIONS| && EndsWith(filename, TARGET_EXTENSIONS[k])
  }

  /** A file is processed when its directory path does not contain `node_modules`
      and its name ends with a target extension. */
  predicate ShouldProcess(dirpath: string, filename: string)
  {
    !Contains(dirpath, "node_modules") && HasTargetExtension(filename)
  }

  /** One directory of the walk: its path and the names of its files. */
  datatype WalkEntry = WalkEntry(dirpath: string, filenames: seq<string>)

  /** The files of one directory that are processed, in order. */
  function SelectedIn(entry: WalkEntry): (sel: seq<(string, string)>)
  {
    if Contains(entry.dirpath, "node_modules") then []
    else SelectedNames(entry.dirpath, entry.filenames)
  }

  function SelectedNames(dirpath: string, filenames: seq<string>): seq<(string, string)>
  {
    if |filenames| == 0 then []
    else
      SelectedNames(dirpath, filenames[..|filenames| - 1]) +
      (if HasTargetExtension(filenames[|filenames| - 1]) then [(dirpath, filenames[|filenames| - 1])] else [])
  }

  /** The files of the whole walk that are processed, in walk order. */
  function Selected(walk: seq<WalkEntry>): seq<(string, string)>
  {
    if |walk| == 0 then [] else Selected(walk[..|walk| - 1]) + SelectedIn(walk[|walk| - 1])
  }

  /** A file of one directory is selected exactly when it should be processed. */
  lemma {:induction false} SelectedNamesIff(dirpath: string, filenames: seq<string>, f: (string, string))
    requires !Contains(dirpath, "node_modules")
    ensures f in SelectedNames(dirpath, filenames) <==>
              f.0 == dirpath && f.1 in filenames && ShouldProcess(f.0, f.1)
  {
    if |filenames| > 0 {
      var front := filenames[..|filenames| - 1];
      SelectedNamesIff(dirpath, front, f);
      assert filenames == front + [filenames[|filenames| - 1]];
    }
  }

  /** The directory `entry` holds the file `f`. */
  predicate Holds(entry: WalkEntry, f: (string, string))
  {
    entry.dirpath == f.0 && f.1 in entry.filenames
  }

  /** A file of one directory is selected exactly when the directory holds it and it
      should be processed. */
  lemma SelectedInIff(entry: WalkEntry, f: (string, string))
    ensures f in SelectedIn(entry) <==> Holds(entry, f) && ShouldProcess(f.0, f.1)
  {
    if !Contains(entry.dirpath, "node_modules") {
      SelectedNamesIff(entry.dirpath, entry.filenames, f);
    }
  }

  /** A file is selected exactly when some directory of the walk holds it and it
      should be processed. */
  lemma {:induction false} SelectedIff(walk: seq<WalkEntry>, f: (string, string))
    ensures f in Selected(walk) <==>
              (exists i :: 0 <= i < |walk| && Holds(walk[i], f)) && ShouldProcess(f.0, f.1)
  {
    if |walk| > 0 {
      var front := walk[..|walk| - 1];
      SelectedIff(front, f);
      SelectedInIff(walk[|walk| - 1], f);
      assert forall i :: 0 <= i < |front| ==> front[i] == walk[i];
      if exists i :: 0 <= i < |walk| && Holds(walk[i], f) {
        var i :| 0 <= i < |walk| && Holds(walk[i], f);
        assert i < |walk| - 1 ==> Holds(front[i], f);
      }
    }
  }

  /** `main` without its I/O: the walk's directories in order, `node_modules`
      directories skipped, and each file with a target extension counted and
      processed. */
  method ProcessTree(walk: seq<WalkEntry>) returns (processed: seq<(string, string)>, fileCount: nat, processedCount: nat)
    ensures processed == Selected(walk)
    ensures fileCount == |processed| && processedCount == |processed|
  {
    processed := [];
    fileCount := 0;
    processedCount := 0;
    for w := 0 to |walk|
      invariant processed == Selected(walk[..w])
      invariant fileCount == |processed| && processedCount == |processed|
    {
      assert walk[..w + 1][..w] == walk[..w];
      var dirpath := walk[w].dirpath;
      var filenames := walk[w].filenames;
      if Contains(dirpath, "node_modules") {
        continue;
      }
      ghost var before := processed;
      for j := 0 to |filenames|
        invariant processed == before + SelectedNames(dirpath, filenames[..j])
        invariant fileCount == |processed| && processedCount == |processed|
      {
        assert filenames[..j + 1][..j] == filenames[..j];
        if HasTargetExtension(filenames[j]) {
          fileCount := fileCount + 1;
          processed := processed + [(dirpath, filenames[j])];
          processedCount := processedCount + 1;
        }
      }
      assert filenames[..|filenames|] == filenames;
    }
    assert walk[..|walk|] == walk;
  }
}
