/** The line classifiers of the log parser: the regular expressions `ERROR_START`,
    `ERROR_MORE` and `BLANK_LINE`, written out as predicates, and `isContinuePattern`. */
module Patterns {
  import opened Text

  /** `ERROR_START.search(line)` with `ERROR_START = .*?ERROR`: the lazy prefix may be empty and
      `search` may begin anywhere, so the pattern finds a match exactly when `ERROR` occurs at
      some position. */
  predicate IsErrorStart(line: string): (b: bool)
    ensures b ==> |line| >= 5
  {
    exists i :: 0 <= i <= |line| - 5 && OccursAt(line, "ERROR", i)
  }

  /** A start line is one for which Python's `"ERROR" in line` holds. */
  lemma ErrorStartIff(line: string)
    ensures IsErrorStart(line) <==> Contains(line, "ERROR")
  {
    ContainsIff(line, "ERROR");
  }

  /** A start line holds a capital `E`, so a line without one is never a start line. */
  lemma ErrorStartHasE(line: string)
    ensures IsErrorStart(line) ==> 'E' in line
  {
    if IsErrorStart(line) {
      var i :| 0 <= i <= |line| - 5 && OccursAt(line, "ERROR", i);
      assert line[i] == line[i..i + 5][0];
    }
  }

  predicate IsDigit(c: char) { '0' <= c <= '9' }

  /** What `[0-9]*` takes: a run of decimal digits, possibly empty. */
  predicate AllDigits(s: string)
  {
    forall k :: 0 <= k < |s| ==> IsDigit(s[k])
  }

  /** `\s` in a `re` pattern over `str`: the characters for which `str.isspace()` holds. */
  predicate IsSpace(c: char)
  {
    '\U{9}' <= c <= '\U{D}' || '\U{1C}' <= c <= '\U{1F}' || c == ' ' || c == '\U{85}' ||
    c == '\U{A0}' || c == '\U{1680}' || '\U{2000}' <= c <= '\U{200A}' || c == '\U{2028}' ||
    c == '\U{2029}' || c == '\U{202F}' || c == '\U{205F}' || c == '\U{3000}'
  }

  /** `BLANK_LINE.match(line)` with `BLANK_LINE = ^\s*$`: `\s*` takes the whole line exactly
      when every character is whitespace (the final newline included). */
  predicate IsBlank(line: string): (b: bool)
    ensures |line| == 0 ==> b
  {
    forall k :: 0 <= k < |line| ==> IsSpace(line[k])
  }

  /** The text that `$` may close on: `$` matches at the end of the line or just before a
      newline that ends it. */
  function Chomp(line: string): string
  {
    if |line| > 0 && line[|line| - 1] == '\n' then line[..|line| - 1] else line
  }

  /** The body `... [0-9]*? more` matched up to its end: three characters other than a newline
      (`.`), a space, digits (the lazy `*?` still tries every count), then ` more`. */
  predicate IsMoreBody(b: string)
  {
    |b| >= 9 && b[0] != '\n' && b[1] != '\n' && b[2] != '\n' && b[3] == ' ' &&
    AllDigits(b[4..|b| - 5]) && b[|b| - 5..] == " more"
  }

  /** `ERROR_MORE.match(line)` with `ERROR_MORE = ^... [0-9]*? more$`. */
  predicate IsErrorMore(line: string): (b: bool)
    ensures b ==> |line| >= 9
  {
    IsMoreBody(Chomp(line))
  }

  /** The lines of the `... N more` shape, put together from their parts. */
  function MoreLine(lead: string, count: string, newline: bool): string
  {
    lead + " " + count + " more" + (if newline then "\n" else "")
  }

  /** Every line of the `... N more` shape, with or without its newline, matches. */
  lemma MoreLineMatches(lead: string, count: string, newline: bool)
    requires |lead| == 3 && '\n' !in lead
    requires AllDigits(count)
    ensures IsErrorMore(MoreLine(lead, count, newline))
  {
    var body := lead + " " + count + " more";
    var line := MoreLine(lead, count, newline);
    assert Chomp(line) == body by {
      if newline {
        assert line == body + "\n";
        assert line[..|line| - 1] == body;
      } else {
        assert line == body;
      }
    }
    assert lead[0] == body[0] && lead[1] == body[1] && lead[2] == body[2];
    assert body[4..|body| - 5] == count;
    assert body[|body| - 5..] == " more";
  }

  /** Every matching line has the `... N more` shape: nothing else gets through. */
  lemma ErrorMoreShape(line: string)
    requires IsErrorMore(line)
    ensures var b := Chomp(line);
      |b| >= 9 && line == MoreLine(b[..3], b[4..|b| - 5], |line| > |b|) &&
      '\n' !in b[..3] && AllDigits(b[4..|b| - 5])
  {
    var b := Chomp(line);
    assert b == b[..3] + " " + b[4..|b| - 5] + " more";
    if |line| > |b| {
      assert line == b + "\n";
    }
  }

  /** `isContinuePattern`: a stack frame, a chained cause, an elision count or a blank line. */
  predicate IsContinuePattern(line: string): (b: bool)
    ensures |line| == 0 ==> b
  {
    StartsWith(line, "at ") || StartsWith(line, "Caused by: ") || IsErrorMore(line) || IsBlank(line)
  }

  /** A stack frame is a continuation line, and never one that opens with `<`. */
  lemma FrameContinues(line: string)
    requires StartsWith(line, "at ")
    ensures IsContinuePattern(line) && !StartsWith(line, "<")
  {
    assert line[0] == line[..3][0] == 'a';
  }

  /** Lines the four alternatives let through. */
  lemma ContinuationAccepts()
    ensures IsContinuePattern("at a.B.run(B.java:10)\n")
    ensures IsContinuePattern("Caused by: java.io.EOFException\n")
    ensures IsContinuePattern("... 12 more\n")
    ensures IsContinuePattern(" \t\n") && IsContinuePattern("")
  {
    MoreLineMatches("...", "12", true);
    assert MoreLine("...", "12", true) == "... 12 more\n";
  }

  /** A frame indented by a tab, as Java prints it. */
  const TabbedFrame := "\tat a.b(B.java:1)\n"

  /** The prefixes are literal: a frame indented by a tab is not a continuation line. */
  lemma IndentedFrameRefused()
    ensures !IsContinuePattern(TabbedFrame)
  {
    var t := TabbedFrame;
    assert t[0] == '\t' && t[1..][0] == 'a';
    assert t[..3][0] == '\t' && t[..11][0] == '\t';
    assert |t| == 18 && t[17] == '\n' && t[16] == ')';
    assert Chomp(t) == t[..17];
  }

  /** Nor is it a frame, or a line opening with `<`, and it carries no `ERROR`. */
  lemma IndentedFrameIsNoFrame()
    ensures !StartsWith(TabbedFrame, "at ") && !StartsWith(TabbedFrame, "<")
    ensures !IsErrorStart(TabbedFrame)
  {
    var t := TabbedFrame;
    assert t[..1][0] == '\t' && t[..3][0] == '\t';
    assert 'E' !in t;
    ErrorStartHasE(t);
  }

  /** `...` stands for exactly three characters, so the tab-indented `... N more` is refused. */
  lemma IndentedMoreRefused()
    ensures !IsContinuePattern("\t... 12 more\n")
  {
    var t := "\t... 12 more\n";
    assert t[0] == '\t' && t[1] == '.';
    assert t[..3][0] == '\t' && t[..11][0] == '\t';
    assert Chomp(t)[3] == '.';
  }

  /** An ordinary log line is no continuation line. */
  lemma LogLineRefused()
    ensures !IsContinuePattern("INFO ok\n")
  {
    var t := "INFO ok\n";
    assert t[0] == 'I' && t[..3][0] == 'I';
    assert |Chomp(t)| < 9;
  }
}
