/** The command line of the `src/gitsoviet/` Python package
    (src/gitsoviet/cli.py): the changed-file list parsed from a
    newline-delimited flag, and the pull request fields taken from the event
    payload when it holds a pull request, from the flags otherwise. Reading a
    file and parsing the event file are parameters. */
module RequestCli {
  import opened Wrappers
  import opened Text
  import opened GitHubEvent

  /** The lines of `lines` that are not blank, in order. */
  function NonBlank(lines: seq<string>): (kept: seq<string>)
    ensures forall i :: 0 <= i < |kept| ==> !IsBlank(kept[i])
  {
    if lines == [] then []
    else if IsBlank(lines[0]) then NonBlank(lines[1..])
    else [lines[0]] + NonBlank(lines[1..])
  }

  /** The kept lines are exactly the lines that are not blank, untrimmed. */
  lemma {:induction false} NonBlankMembers(lines: seq<string>)
    ensures forall line :: line in NonBlank(lines) <==> line in lines && !IsBlank(line)
    decreases |lines|
  {
    if lines != [] {
      NonBlankMembers(lines[1..]);
      assert lines == [lines[0]] + lines[1..];
    }
  }

  /** Filtering keeps the order: it works piece by piece. */
  lemma {:induction false} NonBlankAppend(a: seq<string>, b: seq<string>)
    ensures NonBlank(a + b) == NonBlank(a) + NonBlank(b)
    decreases |a|
  {
    if a != [] {
      assert (a + b)[0] == a[0];
      assert (a + b)[1..] == a[1..] + b;
      NonBlankAppend(a[1..], b);
      if !IsBlank(a[0]) {
        assert [a[0]] + (NonBlank(a[1..]) + NonBlank(b)) == ([a[0]] + NonBlank(a[1..])) + NonBlank(b);
      }
    } else {
      assert a + b == b;
    }
  }

  /** `parse_changed_files`: carriage returns become newlines, the text is
      split on newlines and blank lines are dropped. */
  function ParseChangedFiles(raw: string): (files: seq<string>)
    ensures forall i :: 0 <= i < |files| ==> !IsBlank(files[i])
    ensures forall i :: 0 <= i < |files| ==> '\n' !in files[i] && '\r' !in files[i]
  {
    var lines := Split(ReplaceChar(raw, '\r', '\n'), '\n');
    var files := NonBlank(lines);
    NonBlankMembers(lines);
    assert forall i :: 0 <= i < |files| ==> '\r' !in files[i] by {
      forall i | 0 <= i < |files| ensures '\r' !in files[i] {
        var k :| 0 <= k < |lines| && lines[k] == files[i];
        CarriageReturnsGone(raw, lines, k);
      }
    }
    files
  }

  lemma CarriageReturnsGone(raw: string, lines: seq<string>, k: nat)
    requires lines == Split(ReplaceChar(raw, '\r', '\n'), '\n') && k < |lines|
    ensures '\r' !in lines[k]
  {
    var s := ReplaceChar(raw, '\r', '\n');
    assert '\r' !in s;
    if '\r' in lines[k] {
      var j :| 0 <= j < |lines[k]| && lines[k][j] == '\r';
      SplitPartIn(s, '\n', k, j);
    }
  }

  /** Every character of a piece of `Split(s, sep)` is a character of `s`. */
  lemma {:induction false} SplitPartIn(s: string, sep: char, k: nat, j: nat)
    requires k < |Split(s, sep)| && j < |Split(s, sep)[k]|
    ensures Split(s, sep)[k][j] in s
    decreases |s|
  {
    var i := IndexOf(s, sep);
    if i < |s| {
      var rest := Split(s[i + 1..], sep);
      assert Split(s, sep) == [s[..i]] + rest;
      if k == 0 {
        assert s[..i][j] == s[j];
      } else {
        assert Split(s, sep)[k] == rest[k - 1];
        SplitPartIn(s[i + 1..], sep, k - 1, j);
      }
    }
  }

  /** With no blank line and no line break inside a file name, the list
      joined with `\n` parses back to itself. */
  lemma ParseOfNewlineJoin(files: seq<string>)
    requires forall i :: 0 <= i < |files| ==> !IsBlank(files[i]) && '\n' !in files[i] && '\r' !in files[i]
    ensures ParseChangedFiles(Join(files, "\n")) == files
  {
    if files == [] {
      ParseOfEmpty();
    } else {
      NoCarriageReturnInJoin(files, "\n");
      ReplaceCharAbsent(Join(files, "\n"), '\r', '\n');
      SplitOfJoin(files, '\n');
      NonBlankKeepsAll(files);
    }
  }

  /** An empty flag lists no file. */
  lemma ParseOfEmpty()
    ensures ParseChangedFiles("") == []
  {
    assert ReplaceChar("", '\r', '\n') == "";
    assert Split("", '\n') == [""];
    assert IsBlank("");
  }

  /** With Windows line endings each `\r\n` becomes an empty line, which is
      dropped: the list joined with `\r\n` also parses back to itself. */
  lemma ParseOfCrLfJoin(files: seq<string>)
    requires forall i :: 0 <= i < |files| ==> !IsBlank(files[i]) && '\n' !in files[i] && '\r' !in files[i]
    ensures ParseChangedFiles(Join(files, "\r\n")) == files
  {
    if files == [] {
      ParseOfEmpty();
    } else {
      CrLfBecomesEmptyLines(files);
      var spread := Spread(files);
      SplitOfJoin(spread, '\n');
      NonBlankOfSpread(files);
    }
  }

  /** The files with an empty line after each but the last. */
  function Spread(files: seq<string>): (r: seq<string>)
    ensures files != [] ==> r != []
  {
    if |files| <= 1 then files else [files[0], ""] + Spread(files[1..])
  }

  lemma {:induction false} CrLfBecomesEmptyLines(files: seq<string>)
    requires forall i :: 0 <= i < |files| ==> '\n' !in files[i] && '\r' !in files[i]
    ensures ReplaceChar(Join(files, "\r\n"), '\r', '\n') == Join(Spread(files), "\n")
    ensures forall i :: 0 <= i < |Spread(files)| ==> '\n' !in Spread(files)[i]
    decreases |files|
  {
    if |files| == 1 {
      ReplaceCharAbsent(files[0], '\r', '\n');
    } else if |files| > 1 {
      var rest := files[1..];
      var x := Join(Spread(rest), "\n");
      CrLfBecomesEmptyLines(rest);
      assert Join(files, "\r\n") == files[0] + "\r\n" + Join(rest, "\r\n");
      CrLfStep(files[0], Join(rest, "\r\n"));
      SpreadJoinStep(files);
      SpreadHasNoLineBreak(files);
    }
  }

  lemma CrLfStep(first: string, rest: string)
    requires '\r' !in first
    ensures ReplaceChar(first + "\r\n" + rest, '\r', '\n') == first + "\n" + ("" + "\n" + ReplaceChar(rest, '\r', '\n'))
  {
    var s := first + "\r\n" + rest;
    var l := ReplaceChar(s, '\r', '\n');
    var r := first + "\n" + ("" + "\n" + ReplaceChar(rest, '\r', '\n'));
    assert |l| == |r|;
    forall i | 0 <= i < |l| ensures l[i] == r[i] {
      if i < |first| {
        assert s[i] == first[i] && r[i] == first[i];
      } else if i == |first| {
        assert s[i] == '\r' && r[i] == '\n';
      } else if i == |first| + 1 {
        assert s[i] == '\n' && r[i] == '\n';
      } else {
        assert s[i] == rest[i - |first| - 2];
        assert r[i] == ReplaceChar(rest, '\r', '\n')[i - |first| - 2];
      }
    }
  }

  lemma SpreadJoinStep(files: seq<string>)
    requires |files| > 1
    ensures Join(Spread(files), "\n") == files[0] + "\n" + ("" + "\n" + Join(Spread(files[1..]), "\n"))
  {
    var tail := Spread(files[1..]);
    var mid := [""] + tail;
    SpreadCons(files);
    JoinCons("", tail, "\n");
    JoinCons(files[0], mid, "\n");
  }

  lemma SpreadCons(files: seq<string>)
    requires |files| > 1
    ensures Spread(files) == [files[0]] + ([""] + Spread(files[1..]))
  {
    var tail := Spread(files[1..]);
    assert [files[0], ""] + tail == [files[0]] + ([""] + tail);
  }

  lemma {:induction false} SpreadHasNoLineBreak(files: seq<string>)
    requires forall i :: 0 <= i < |files| ==> '\n' !in files[i]
    ensures forall i :: 0 <= i < |Spread(files)| ==> '\n' !in Spread(files)[i]
    decreases |files|
  {
    if |files| > 1 {
      var spread := [files[0], ""] + Spread(files[1..]);
      SpreadHasNoLineBreak(files[1..]);
      forall i | 0 <= i < |spread| ensures '\n' !in spread[i] {
        if i >= 2 {
          assert spread[i] == Spread(files[1..])[i - 2];
        }
      }
    }
  }

  lemma {:induction false} NonBlankOfSpread(files: seq<string>)
    requires forall i :: 0 <= i < |files| ==> !IsBlank(files[i])
    ensures NonBlank(Spread(files)) == files
    decreases |files|
  {
    if |files| == 1 {
      assert NonBlank(files[1..]) == [];
    } else if |files| > 1 {
      var spread := [files[0], ""] + Spread(files[1..]);
      assert spread[1..] == [""] + Spread(files[1..]);
      assert spread[1..][1..] == Spread(files[1..]);
      assert IsBlank("");
      NonBlankOfSpread(files[1..]);
    }
  }

  lemma {:induction false} NonBlankKeepsAll(files: seq<string>)
    requires forall i :: 0 <= i < |files| ==> !IsBlank(files[i])
    ensures NonBlank(files) == files
    decreases |files|
  {
    if files != [] {
      NonBlankKeepsAll(files[1..]);
    }
  }

  lemma {:induction false} NoCarriageReturnInJoin(parts: seq<string>, sep: string)
    requires '\r' !in sep
    requires forall i :: 0 <= i < |parts| ==> '\r' !in parts[i]
    ensures '\r' !in Join(parts, sep)
    decreases |parts|
  {
    if |parts| > 1 {
      NoCarriageReturnInJoin(parts[1..], sep);
    }
  }

  lemma ReplaceCharAbsent(s: string, from: char, to: char)
    requires from !in s
    ensures ReplaceChar(s, from, to) == s
  {
    var r := ReplaceChar(s, from, to);
    assert forall i :: 0 <= i < |s| ==> r[i] == s[i];
  }

  lemma ReplaceCharConcat(a: string, b: string, from: char, to: char)
    ensures ReplaceChar(a + b, from, to) == ReplaceChar(a, from, to) + ReplaceChar(b, from, to)
  {
    var l := ReplaceChar(a + b, from, to);
    var r := ReplaceChar(a, from, to) + ReplaceChar(b, from, to);
    assert forall i :: 0 <= i < |l| ==> l[i] == r[i];
  }

  /** `read_optional`: the contents of the file, or `""` when no path is
      given. */
  function ReadOptional(path: Option<string>, readText: string -> string): string {
    if path.None? || path.value == "" then "" else readText(path.value)
  }

  /** The flags `resolve_pr_fields` reads. */
  datatype Args = Args(
    prTitle: string,
    prBody: string,
    prBodyFile: Option<string>,
    diff: string,
    diffFile: Option<string>,
    changedFiles: string,
    eventPath: Option<string>)

  /** The four fields, and the files read to get them, in order. */
  datatype Resolved = Resolved(
    title: Option<string>,
    body: Option<string>,
    changedFiles: seq<string>,
    diff: Option<string>,
    readPaths: seq<string>)

  /** `args.pr_body or read_optional(args.pr_body_file)`, with the file read
      if any. */
  function FlagOrFile(flag: string, path: Option<string>, readText: string -> string): (r: (string, seq<string>))
    ensures flag != "" ==> r == (flag, [])
    ensures flag == "" && (path.None? || path.value == "") ==> r == ("", [])
    ensures flag == "" && path.Some? && path.value != "" ==> r == (readText(path.value), [path.value])
  {
    if flag != "" then (flag, [])
    else if path.None? || path.value == "" then ("", [])
    else (ReadOptional(path, readText), [path.value])
  }

  /** `resolve_pr_fields`. `loadEvent` is reading and parsing the event file. */
  function ResolvePrFields(args: Args, loadEvent: string -> Event, readText: string -> string): (r: Resolved)
    ensures var fromEvent := args.eventPath.Some? && args.eventPath.value != ""
                             && LoadPrFromEvent(loadEvent(args.eventPath.value)).Some?;
            && (fromEvent ==>
                  var pr := LoadPrFromEvent(loadEvent(args.eventPath.value)).value;
                  r == Resolved(pr.title, pr.body, pr.changedFiles, pr.diff, [args.eventPath.value]))
            && (!fromEvent ==>
                  && r.title == Some(args.prTitle)
                  && r.body == Some(FlagOrFile(args.prBody, args.prBodyFile, readText).0)
                  && r.diff == Some(FlagOrFile(args.diff, args.diffFile, readText).0)
                  && r.changedFiles == ParseChangedFiles(args.changedFiles))
  {
    var eventReads := if args.eventPath.Some? && args.eventPath.value != "" then [args.eventPath.value] else [];
    var pr := if eventReads != [] then LoadPrFromEvent(loadEvent(args.eventPath.value)) else None;
    if pr.Some? then Resolved(pr.value.title, pr.value.body, pr.value.changedFiles, pr.value.diff, eventReads)
    else
      var (body, bodyReads) := FlagOrFile(args.prBody, args.prBodyFile, readText);
      var (diff, diffReads) := FlagOrFile(args.diff, args.diffFile, readText);
      Resolved(Some(args.prTitle), Some(body), ParseChangedFiles(args.changedFiles), Some(diff),
               eventReads + bodyReads + diffReads)
  }

  /** A body flag wins over the body file, which is then not read; the same
      holds for the diff. */
  lemma FlagBeatsFile(args: Args, loadEvent: string -> Event, readText: string -> string)
    requires args.eventPath.None?
    requires args.prBody != "" && args.diff != ""
    ensures ResolvePrFields(args, loadEvent, readText)
            == Resolved(Some(args.prTitle), Some(args.prBody), ParseChangedFiles(args.changedFiles), Some(args.diff), [])
  {
  }

  /** A file is read only when its flag is empty: with both flags empty and
      both files named, the body file and then the diff file are read. */
  lemma FilesReadWhenFlagsEmpty(args: Args, loadEvent: string -> Event, readText: string -> string)
    requires args.eventPath.None?
    requires args.prBody == "" && args.diff == ""
    requires args.prBodyFile.Some? && args.prBodyFile.value != ""
    requires args.diffFile.Some? && args.diffFile.value != ""
    ensures var r := ResolvePrFields(args, loadEvent, readText);
            && r.body == Some(readText(args.prBodyFile.value))
            && r.diff == Some(readText(args.diffFile.value))
            && r.readPaths == [args.prBodyFile.value, args.diffFile.value]
  {
  }

  /** A pull request in the event overrides every flag: two argument sets
      with the same event path resolve alike. */
  lemma EventOverridesFlags(args: Args, other: Args, loadEvent: string -> Event, readText: string -> string)
    requires args.eventPath == other.eventPath
    requires args.eventPath.Some? && args.eventPath.value != ""
    requires LoadPrFromEvent(loadEvent(args.eventPath.value)).Some?
    ensures ResolvePrFields(args, loadEvent, readText) == ResolvePrFields(other, loadEvent, readText)
    ensures ResolvePrFields(args, loadEvent, readText).readPaths == [args.eventPath.value]
  {
  }
}
