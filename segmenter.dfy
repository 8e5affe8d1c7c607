/** The log-stream error segmenter (`StdinParser`): it reads log lines one at a time, echoes
    each one, in red while an error block is open, and hands every finished block to the store
    as a (short text, full text) pair.

    The pure functions below give the meaning of one step of each of the parser's methods on
    a `Seg` value holding the parser's fields, the store and the echoed output; the class
    `StdinParser` runs the same steps on its own fields and is proved to agree with them. */
module Segmenter {
  import opened Text
  import opened Patterns

  /** One row handed to the store by `db.addError(shortErrorText, fullErrorText)`. */
  datatype Record = Record(short: string, full: string)

  /** The parser's fields (`inError`, `hasReadAt`, `errorBuffer`), the records stored so far
      and the text echoed so far, one entry per `print`. */
  datatype Seg = Seg(inError: bool, hasReadAt: bool, buffer: seq<string>, store: seq<Record>,
                     output: seq<string>)

  /** The state `__init__` sets up before its first line. */
  const Start := Seg(false, false, [], [], [])

  /** The colour codes `printErrorLine` wraps a line in. */
  const RedOn := "\U{1B}[0;31m"
  const RedOff := "\U{1B}[0;0m"

  /** How a line is echoed: as it is, or wrapped in the red colour codes. */
  function Echo(line: string, red: bool): string
  {
    if red then RedOn + line + RedOff else line
  }

  /** The records a flush of `buffer` stores: none for an empty buffer, otherwise one whose
      short text is the first line and whose full text is all lines joined in order. */
  function Flushed(buffer: seq<string>): (rs: seq<Record>)
    ensures |rs| == if buffer == [] then 0 else 1
    ensures buffer != [] ==> rs[0].short == buffer[0] && StartsWith(rs[0].full, rs[0].short)
    ensures buffer != [] ==> rs[0].full == buffer[0] + Concat(buffer[1..])
  {
    if buffer == [] then [] else [Record(buffer[0], Concat(buffer))]
  }

  /** `flushError`: store the buffered block, if any, and empty the buffer. */
  function FlushStep(s: Seg): (r: Seg)
    ensures r.buffer == [] && r.store == s.store + Flushed(s.buffer)
    ensures r.inError == s.inError && r.hasReadAt == s.hasReadAt && r.output == s.output
  {
    if s.buffer != [] then s.(buffer := [], store := s.store + Flushed(s.buffer)) else s
  }

  /** The block in progress ends on this line: it opens with `<`, or it is not a continuation
      line and the line before it was a stack frame. */
  predicate Closes(s: Seg, line: string): (b: bool)
    ensures b ==> s.inError
    ensures StartsWith(line, "at ") ==> !b
  {
    assert StartsWith(line, "at ") ==> line[0] == line[..3][0] == 'a';
    s.inError && (StartsWith(line, "<") || (s.hasReadAt && !IsContinuePattern(line)))
  }

  /** `parseError`: close the block in progress when the line ends it, remember whether the
      line is a stack frame, and open a new block on a line carrying `ERROR`. */
  function ParseStep(s: Seg, line: string): (r: Seg)
    ensures r.output == s.output
    ensures IsErrorStart(line) ==>
      r.inError && !r.hasReadAt && r.buffer == [] && r.store == s.store + Flushed(s.buffer)
    ensures !IsErrorStart(line) && Closes(s, line) ==>
      !r.inError && r.buffer == [] && r.store == s.store + Flushed(s.buffer)
    ensures !IsErrorStart(line) && !Closes(s, line) ==>
      r.inError == s.inError && r.buffer == s.buffer && r.store == s.store
    ensures s.inError && !IsErrorStart(line) ==> r.hasReadAt == StartsWith(line, "at ")
    ensures !s.inError && !IsErrorStart(line) ==> r == s
  {
    var checked :=
      if s.inError then
        (if Closes(s, line) then FlushStep(s).(inError := false) else s)
          .(hasReadAt := StartsWith(line, "at "))
      else s;
    if IsErrorStart(line) then FlushStep(checked).(inError := true, hasReadAt := false)
    else checked
  }

  /** `printLogLine`: echo the line unchanged. */
  function LogLineStep(s: Seg, line: string): (r: Seg)
    ensures r.output == s.output + [Echo(line, false)]
    ensures r.inError == s.inError && r.hasReadAt == s.hasReadAt
    ensures r.buffer == s.buffer && r.store == s.store
  {
    s.(output := s.output + [line])
  }

  /** `printErrorLine`: add the line to the block and echo it in red. */
  function ErrorLineStep(s: Seg, line: string): (r: Seg)
    ensures r.buffer == s.buffer + [line] && r.output == s.output + [Echo(line, true)]
    ensures r.inError == s.inError && r.hasReadAt == s.hasReadAt && r.store == s.store
  {
    s.(buffer := s.buffer + [line], output := s.output + [RedOn + line + RedOff])
  }

  /** What holds between two lines: a block is open exactly when the buffer holds lines; the
      buffer starts with its `ERROR` line and no later line of it carries `ERROR`; every
      stored record's short text carries `ERROR` and begins its full text. */
  ghost predicate Inv(s: Seg)
  {
    (s.inError <==> s.buffer != []) &&
    (s.buffer != [] ==> IsErrorStart(s.buffer[0])) &&
    (forall k :: 1 <= k < |s.buffer| ==> !IsErrorStart(s.buffer[k])) &&
    (forall r :: r in s.store ==> IsErrorStart(r.short) && StartsWith(r.full, r.short))
  }

  /** One pass of the loop in `__init__`: parse the line, then echo it in red and buffer it
      if a block is open, or echo it plainly otherwise. */
  function Feed(s: Seg, line: string): (r: Seg)
    requires Inv(s)
    ensures Inv(r)
    ensures r.output == s.output + [Echo(line, r.inError)]
    ensures r.inError == ParseStep(s, line).inError
  {
    var p := ParseStep(s, line);
    if p.inError then ErrorLineStep(p, line) else LogLineStep(p, line)
  }

  /** The parser's state after the loop in `__init__` has consumed `lines`. */
  function Run(lines: seq<string>): (st: Seg)
    ensures Inv(st)
    ensures |st.output| == |lines|
  {
    if lines == [] then Start else Feed(Run(lines[..|lines| - 1]), lines[|lines| - 1])
  }

  /** The parser as the source writes it: fields updated in place by its methods. */
  class StdinParser {
    var inError: bool
    var hasReadAt: bool
    var errorBuffer: seq<string>
    ghost var store: seq<Record>
    var output: seq<string>

    ghost function State(): Seg
      reads this
    {
      Seg(inError, hasReadAt, errorBuffer, store, output)
    }

    /** `__init__`: start idle with nothing buffered, then feed every line in order. */
    constructor (lines: seq<string>)
      ensures State() == Run(lines)
    {
      inError, hasReadAt, errorBuffer, store, output := false, false, [], [], [];
      new;
      for i := 0 to |lines|
        invariant State() == Run(lines[..i])
      {
        assert lines[..i + 1][..i] == lines[..i];
        ParseError(lines[i]);
        if inError {
          PrintErrorLine(lines[i]);
        } else {
          PrintLogLine(lines[i]);
        }
      }
      assert lines[..|lines|] == lines;
    }

    method ParseError(line: string)
      modifies this
      ensures State() == ParseStep(old(State()), line)
    {
      if inError {
        if StartsWith(line, "<") || (hasReadAt && !IsContinuePattern(line)) {
          FlushError();
          inError := false;
        }
        hasReadAt := StartsWith(line, "at ");
      }
      if IsErrorStart(line) {
        FlushError();
        inError := true;
        hasReadAt := false;
      }
    }

    method FlushError()
      modifies this
      ensures State() == FlushStep(old(State()))
    {
      if errorBuffer != [] {
        var shortErrorText := errorBuffer[0];
        var fullErrorText := Concat(errorBuffer);
        store := store + [Record(shortErrorText, fullErrorText)];
        errorBuffer := [];
      }
    }

    method PrintLogLine(line: string)
      modifies this
      ensures State() == LogLineStep(old(State()), line)
    {
      output := output + [line];
    }

    method PrintErrorLine(line: string)
      modifies this
      ensures State() == ErrorLineStep(old(State()), line)
    {
      errorBuffer := errorBuffer + [line];
      output := output + [RedOn + line + RedOff];
    }
  }

  /** The colour of each line read: entry `i` holds when a block was open once `parseError` had
      seen line `i`, so that line was echoed in red. */
  function Flags(lines: seq<string>): (f: seq<bool>)
    ensures |f| == |lines|
  {
    if lines == [] then [] else Flags(lines[..|lines| - 1]) + [Run(lines).inError]
  }

  /** Reading `line` after `lines` is one more pass of the loop, and adds the colour of `line`
      to the earlier ones. */
  lemma RunSnoc(lines: seq<string>, line: string)
    ensures Run(lines + [line]) == Feed(Run(lines), line)
    ensures Flags(lines + [line]) == Flags(lines) + [Run(lines + [line]).inError]
  {
    assert (lines + [line])[..|lines|] == lines;
  }

  /** The colour of line `i` is settled once that line is read: it is the state of the block
      after the first `i + 1` lines, whatever follows. */
  lemma {:induction false} FlagsMeaning(lines: seq<string>, i: int)
    requires 0 <= i < |lines|
    ensures Flags(lines)[i] == Run(lines[..i + 1]).inError
  {
    var n := |lines|;
    if i == n - 1 {
      assert lines[..i + 1] == lines;
    } else {
      FlagsMeaning(lines[..n - 1], i);
      assert lines[..n - 1][..i + 1] == lines[..i + 1];
    }
  }

  /** Every line is echoed exactly once, in input order, and in red exactly when a block was
      open after `parseError` on it. */
  lemma {:induction false} RunEchoesEachLineOnce(lines: seq<string>)
    ensures |Run(lines).output| == |lines|
    ensures forall i :: 0 <= i < |lines| ==> Run(lines).output[i] == Echo(lines[i], Flags(lines)[i])
  {
    if lines != [] {
      var n := |lines|;
      var prefix := lines[..n - 1];
      RunEchoesEachLineOnce(prefix);
      assert lines == prefix + [lines[n - 1]];
      RunSnoc(prefix, lines[n - 1]);
    }
  }

  /** The lines echoed in red, in input order. */
  function RedLines(lines: seq<string>): seq<string>
  {
    if lines == [] then []
    else RedLines(lines[..|lines| - 1]) + (if Run(lines).inError then [lines[|lines| - 1]] else [])
  }

  /** The full texts of the stored records, in store order. */
  function Fulls(store: seq<Record>): seq<string>
  {
    seq(|store|, k requires 0 <= k < |store| => store[k].full)
  }

  /** One line's effect on the text stored and buffered: it grows by the line exactly when the
      line is echoed in red. */
  lemma FeedKeepsRedText(s: Seg, line: string)
    requires Inv(s)
    ensures var r := Feed(s, line);
      Concat(Fulls(r.store)) + Concat(r.buffer) ==
      Concat(Fulls(s.store)) + Concat(s.buffer) + (if r.inError then line else "")
  {
    FeedShape(s, line);
    RedTextStep(s, Feed(s, line), line);
  }

  /** `FeedKeepsRedText` for either outcome `FeedShape` allows. */
  lemma RedTextStep(s: Seg, r: Seg, line: string)
    requires (r.store == s.store && r.buffer == s.buffer + (if r.inError then [line] else [])) ||
      (s.buffer != [] && r.store == s.store + [Record(s.buffer[0], Concat(s.buffer))] &&
       r.buffer == (if r.inError then [line] else []))
    ensures Concat(Fulls(r.store)) + Concat(r.buffer) ==
      Concat(Fulls(s.store)) + Concat(s.buffer) + (if r.inError then line else "")
  {
    assert Concat([line]) == line;
    if r.store == s.store && r.buffer == s.buffer + (if r.inError then [line] else []) {
      if r.inError {
        ConcatAppend(s.buffer, [line]);
      } else {
        assert r.buffer == s.buffer;
      }
    } else {
      assert Fulls(r.store) == Fulls(s.store) + [Concat(s.buffer)];
      ConcatAppend(Fulls(s.store), [Concat(s.buffer)]);
    }
  }

  /** The stored full texts, in order, followed by the block in progress, are exactly the lines
      echoed in red, joined. */
  lemma {:induction false} RunStoresRedText(lines: seq<string>)
    ensures Concat(Fulls(Run(lines).store)) + Concat(Run(lines).buffer) == Concat(RedLines(lines))
  {
    if lines != [] {
      var prefix := lines[..|lines| - 1];
      RunStoresRedText(prefix);
      FeedKeepsRedText(Run(prefix), lines[|lines| - 1]);
      if Run(lines).inError {
        ConcatAppend(RedLines(prefix), [lines[|lines| - 1]]);
      } else {
        assert RedLines(lines) == RedLines(prefix);
      }
    }
  }

  /** Positions `lo` (included) to `hi` (excluded) of the input. */
  datatype Span = Span(lo: nat, hi: nat)

  /** `sp` is a block of `lines` whose colours are `flags`: a run of lines echoed in red, opened
      by a line carrying `ERROR`, with no other such line inside, and ended by the next one or
      by the first line no longer echoed in red. */
  ghost predicate BlockAt(lines: seq<string>, flags: seq<bool>, sp: Span)
    requires |flags| == |lines|
  {
    sp.lo < sp.hi <= |lines| &&
    IsErrorStart(lines[sp.lo]) &&
    (forall i {:trigger IsErrorStart(lines[i])} :: sp.lo < i < sp.hi ==> !IsErrorStart(lines[i])) &&
    (forall i {:trigger flags[i]} :: sp.lo <= i < sp.hi ==> flags[i]) &&
    (sp.hi < |lines| ==> IsErrorStart(lines[sp.hi]) || !flags[sp.hi])
  }

  /** A block stays a block when a line is read after it, provided that line does not continue
      it. */
  lemma BlockAtExtends(lines: seq<string>, flags: seq<bool>, line: string, flag: bool, sp: Span)
    requires |flags| == |lines| && BlockAt(lines, flags, sp)
    requires sp.hi < |lines| || IsErrorStart(line) || !flag
    ensures BlockAt(lines + [line], flags + [flag], sp)
  {
    var more, mflags := lines + [line], flags + [flag];
    forall i | sp.lo <= i < sp.hi
      ensures mflags[i]
    {
      assert mflags[i] == flags[i];
    }
    forall i | sp.lo < i < sp.hi
      ensures !IsErrorStart(more[i])
    {
      assert more[i] == lines[i];
    }
    if sp.hi < |lines| {
      assert more[sp.hi] == lines[sp.hi] && mflags[sp.hi] == flags[sp.hi];
    }
  }

  /** What one pass of the loop does to the store and the buffer: either nothing is stored and
      the line is buffered when it is echoed in red, or the whole previous buffer is stored as
      one record and the buffer holds at most this line, which then opens a new block. */
  lemma FeedShape(s: Seg, line: string)
    requires Inv(s)
    ensures var r := Feed(s, line);
      (r.store == s.store && r.buffer == s.buffer + (if r.inError then [line] else [])) ||
      (s.buffer != [] && r.store == s.store + [Record(s.buffer[0], Concat(s.buffer))] &&
       r.buffer == (if r.inError then [line] else []) && (IsErrorStart(line) || !r.inError))
  {
    var p := ParseStep(s, line);
    if IsErrorStart(line) {
    } else if Closes(s, line) {
    } else {
      assert p.store == s.store && p.buffer == s.buffer;
    }
  }

  /** The stored records are blocks of `lines`, located by `spans`, as `RunBlocks` states. */
  ghost predicate Located(lines: seq<string>, flags: seq<bool>, store: seq<Record>, spans: seq<Span>, bound: int)
    requires |flags| == |lines|
  {
    |spans| == |store| &&
    (forall k :: 0 <= k < |spans| ==>
      BlockAt(lines, flags, spans[k]) && spans[k].hi <= bound &&
      store[k] == Record(lines[spans[k].lo], Concat(lines[spans[k].lo..spans[k].hi]))) &&
    (forall k :: 0 < k < |spans| ==> spans[k - 1].hi <= spans[k].lo)
  }

  /** The buffer holds the newest lines, all echoed in red. */
  ghost predicate Tail(lines: seq<string>, flags: seq<bool>, buffer: seq<string>)
    requires |flags| == |lines|
  {
    |buffer| <= |lines| && buffer == lines[|lines| - |buffer|..] &&
    (forall i {:trigger flags[i]} :: |lines| - |buffer| <= i < |lines| ==> flags[i])
  }

  /** Records located before a line is read stay located after it, under any later bound. */
  lemma LocatedExtends(lines: seq<string>, flags: seq<bool>, line: string, flag: bool,
                       store: seq<Record>, spans: seq<Span>, bound: int, bound2: int)
    requires |flags| == |lines| && Located(lines, flags, store, spans, bound)
    requires bound <= bound2 && bound <= |lines|
    requires bound < |lines| || IsErrorStart(line) || !flag
    ensures Located(lines + [line], flags + [flag], store, spans, bound2)
  {
    var more := lines + [line];
    forall k | 0 <= k < |spans|
      ensures BlockAt(more, flags + [flag], spans[k])
      ensures store[k] == Record(more[spans[k].lo], Concat(more[spans[k].lo..spans[k].hi]))
    {
      BlockAtExtends(lines, flags, line, flag, spans[k]);
      assert lines[spans[k].lo..spans[k].hi] == more[spans[k].lo..spans[k].hi];
    }
  }

  /** A block found after the located ones is located with them once its record is stored. */
  lemma LocatedAdd(lines: seq<string>, flags: seq<bool>, store: seq<Record>, spans: seq<Span>,
                   bound: int, sp: Span, bound2: int)
    requires |flags| == |lines| && Located(lines, flags, store, spans, bound)
    requires BlockAt(lines, flags, sp) && bound <= sp.lo && sp.hi <= bound2
    ensures Located(lines, flags, store + [Record(lines[sp.lo], Concat(lines[sp.lo..sp.hi]))],
                    spans + [sp], bound2)
  {
    var store2 := store + [Record(lines[sp.lo], Concat(lines[sp.lo..sp.hi]))];
    var spans2 := spans + [sp];
    forall k | 0 <= k < |spans2|
      ensures BlockAt(lines, flags, spans2[k]) && spans2[k].hi <= bound2
      ensures store2[k] == Record(lines[spans2[k].lo], Concat(lines[spans2[k].lo..spans2[k].hi]))
    {
      if k < |spans| {
        assert spans2[k] == spans[k] && store2[k] == store[k];
      }
    }
    forall k | 0 < k < |spans2|
      ensures spans2[k - 1].hi <= spans2[k].lo
    {
      if k < |spans| {
        assert spans2[k - 1] == spans[k - 1] && spans2[k] == spans[k];
      } else {
        assert spans2[k - 1] == spans[k - 1];
      }
    }
  }

  /** A line that stores nothing keeps the records located and the buffer at the tail. */
  lemma KeepStep(prefix: seq<string>, flags: seq<bool>, line: string, s: Seg, r: Seg, spans: seq<Span>)
    requires |flags| == |prefix| && (r.inError || r.buffer == [])
    requires r.buffer != [] ==> IsErrorStart(r.buffer[0])
    requires Located(prefix, flags, s.store, spans, |prefix| - |s.buffer|) && Tail(prefix, flags, s.buffer)
    requires r.store == s.store && r.buffer == s.buffer + (if r.inError then [line] else [])
    ensures Located(prefix + [line], flags + [r.inError], r.store, spans, |prefix| + 1 - |r.buffer|)
    ensures Tail(prefix + [line], flags + [r.inError], r.buffer)
  {
    var lines := prefix + [line];
    var bound := |prefix| - |s.buffer|;
    LocatedExtends(prefix, flags, line, r.inError, s.store, spans, bound, |lines| - |r.buffer|);
    if r.inError {
      assert lines[|lines| - |r.buffer|..] == prefix[bound..] + [line];
    } else {
      assert lines[|lines| - |r.buffer|..] == prefix[bound..];
    }
  }

  /** A line that stores the buffered block keeps the records located, the new one included. */
  lemma FlushStepLocated(prefix: seq<string>, flags: seq<bool>, line: string, s: Seg, r: Seg, spans: seq<Span>)
    requires |flags| == |prefix| && Inv(s)
    requires Located(prefix, flags, s.store, spans, |prefix| - |s.buffer|) && Tail(prefix, flags, s.buffer)
    requires s.buffer != [] && r.store == s.store + [Record(s.buffer[0], Concat(s.buffer))]
    requires r.buffer == (if r.inError then [line] else []) && (IsErrorStart(line) || !r.inError)
    ensures Located(prefix + [line], flags + [r.inError], r.store, spans + [Span(|prefix| - |s.buffer|, |prefix|)],
                    |prefix| + 1 - |r.buffer|)
    ensures Tail(prefix + [line], flags + [r.inError], r.buffer)
  {
    var lines := prefix + [line];
    var bound := |prefix| - |s.buffer|;
    var sp := Span(bound, |prefix|);
    assert s.buffer == prefix[sp.lo..sp.hi];
    assert BlockAt(prefix, flags, sp) by {
      forall i | sp.lo < i < sp.hi
        ensures !IsErrorStart(prefix[i])
      {
        assert prefix[i] == s.buffer[i - sp.lo];
      }
    }
    LocatedExtends(prefix, flags, line, r.inError, s.store, spans, bound, bound);
    BlockAtExtends(prefix, flags, line, r.inError, sp);
    assert lines[sp.lo..sp.hi] == s.buffer && lines[sp.lo] == s.buffer[0];
    LocatedAdd(lines, flags + [r.inError], s.store, spans, bound, sp, |lines| - |r.buffer|);
    assert lines[|lines| - |r.buffer|..] == r.buffer;
  }

  /** One more line keeps the records located: a flush adds the span of the old buffer. */
  lemma SegmentedStep(prefix: seq<string>, line: string, before: seq<Span>) returns (spans: seq<Span>)
    requires Located(prefix, Flags(prefix), Run(prefix).store, before, |prefix| - |Run(prefix).buffer|)
    requires Tail(prefix, Flags(prefix), Run(prefix).buffer)
    ensures Located(prefix + [line], Flags(prefix + [line]), Run(prefix + [line]).store, spans,
                    |prefix| + 1 - |Run(prefix + [line]).buffer|)
    ensures Tail(prefix + [line], Flags(prefix + [line]), Run(prefix + [line]).buffer)
  {
    var s := Run(prefix);
    RunSnoc(prefix, line);
    var r := Run(prefix + [line]);
    FeedShape(s, line);
    if r.store == s.store {
      KeepStep(prefix, Flags(prefix), line, s, r, before);
      spans := before;
    } else {
      FlushStepLocated(prefix, Flags(prefix), line, s, r, before);
      spans := before + [Span(|prefix| - |s.buffer|, |prefix|)];
    }
  }

  /** Every stored record is a block of the input: its short text is the block's first line and
      its full text the block's lines joined; the blocks follow one another in input order
      without overlapping, and the buffer holds the newest lines, all echoed in red. */
  lemma {:induction false} RunBlocks(lines: seq<string>) returns (spans: seq<Span>)
    ensures var st := Run(lines);
      |spans| == |st.store| && |st.buffer| <= |lines| &&
      st.buffer == lines[|lines| - |st.buffer|..]
    ensures var st := Run(lines); forall k :: 0 <= k < |spans| ==>
      BlockAt(lines, Flags(lines), spans[k]) && spans[k].hi <= |lines| - |st.buffer| &&
      st.store[k] == Record(lines[spans[k].lo], Concat(lines[spans[k].lo..spans[k].hi]))
    ensures forall k :: 0 < k < |spans| ==> spans[k - 1].hi <= spans[k].lo
    ensures forall i :: |lines| - |Run(lines).buffer| <= i < |lines| ==> Flags(lines)[i]
  {
    if lines == [] {
      return [];
    }
    spans := RunLocated(lines);
  }

  /** The induction behind `RunBlocks`, on the predicates it unfolds to. */
  lemma {:induction false} RunLocated(lines: seq<string>) returns (spans: seq<Span>)
    ensures Located(lines, Flags(lines), Run(lines).store, spans, |lines| - |Run(lines).buffer|)
    ensures Tail(lines, Flags(lines), Run(lines).buffer)
  {
    if lines == [] {
      return [];
    }
    var prefix := lines[..|lines| - 1];
    var before := RunLocated(prefix);
    assert lines == prefix + [lines[|lines| - 1]];
    spans := SegmentedStep(prefix, lines[|lines| - 1], before);
  }

  /** A stack frame without `ERROR`: it starts with `at `. */
  predicate IsFrame(line: string)
  {
    !IsErrorStart(line) && StartsWith(line, "at ")
  }

  /** A line that neither opens a block, nor starts with `<`, nor is a stack frame. */
  predicate IsQuiet(line: string)
  {
    !IsErrorStart(line) && !StartsWith(line, "<") && !StartsWith(line, "at ")
  }

  /** A line carrying `ERROR` stores the block in progress, if any, and opens a new one. */
  lemma FeedOpens(s: Seg, line: string)
    requires Inv(s) && IsErrorStart(line)
    ensures Feed(s, line) ==
      Seg(true, false, [line], s.store + Flushed(s.buffer), s.output + [Echo(line, true)])
  {
  }

  /** A line that ends the block in progress stores it and is echoed plainly. */
  lemma FeedCloses(s: Seg, line: string)
    requires Inv(s) && !IsErrorStart(line) && Closes(s, line)
    ensures Feed(s, line) ==
      Seg(false, StartsWith(line, "at "), [], s.store + Flushed(s.buffer), s.output + [line])
  {
  }

  /** A line that neither opens nor ends the block in progress joins it. */
  lemma FeedContinues(s: Seg, line: string)
    requires Inv(s) && s.inError && !IsErrorStart(line) && !Closes(s, line)
    ensures Feed(s, line) ==
      Seg(true, StartsWith(line, "at "), s.buffer + [line], s.store, s.output + [Echo(line, true)])
  {
  }

  /** While a block is open, a stack frame joins it and sets `hasReadAt`. */
  lemma FrameJoins(s: Seg, line: string)
    requires Inv(s) && s.inError && IsFrame(line)
    ensures var r := Feed(s, line);
      r.inError && r.hasReadAt && r.buffer == s.buffer + [line] && r.store == s.store
  {
    FrameContinues(line);
    FeedContinues(s, line);
  }

  /** Outside a block, a line without `ERROR` is only echoed. */
  lemma FeedIdle(s: Seg, line: string)
    requires Inv(s) && !s.inError && !IsErrorStart(line)
    ensures Feed(s, line) == s.(output := s.output + [line])
  {
  }

  /** Two start lines in a row make two one-line blocks; the second is stored once a `<` line
      closes it. */
  lemma ConsecutiveStartsMakeTwoBlocks(a: string, b: string, c: string)
    requires IsErrorStart(a) && IsErrorStart(b) && !IsErrorStart(c) && StartsWith(c, "<")
    ensures Run([a, b, c]).store == [Record(a, a), Record(b, b)] && !Run([a, b, c]).inError
  {
    RunSnoc([], a);
    RunSnoc([a], b);
    RunSnoc([a, b], c);
    assert [] + [a] == [a] && [a] + [b] == [a, b] && [a, b] + [c] == [a, b, c];
    assert Concat([a]) == a && Concat([b]) == b;
    FeedOpens(Start, a);
    FeedOpens(Run([a]), b);
    FeedCloses(Run([a, b]), c);
  }

  /** The state reached from `s` by feeding `lines` in order: the loop in `__init__` resumed
      from `s`. */
  function FeedAll(s: Seg, lines: seq<string>): (r: Seg)
    requires Inv(s)
    ensures Inv(r)
  {
    if lines == [] then s else Feed(FeedAll(s, lines[..|lines| - 1]), lines[|lines| - 1])
  }

  /** Reading `lines` then `more` is reading `more` from the state `lines` leave. */
  lemma {:induction false} RunAppend(lines: seq<string>, more: seq<string>)
    ensures Run(lines + more) == FeedAll(Run(lines), more)
  {
    if more == [] {
      assert lines + more == lines;
    } else {
      var m, x := more[..|more| - 1], more[|more| - 1];
      RunAppend(lines, m);
      assert lines + more == (lines + m) + [x];
      RunSnoc(lines + m, x);
    }
  }

  /** While a block is open and the last line was no frame, lines that carry no `ERROR`, do not
      open with `<` and do not start with `at ` never end it: each one joins the block. */
  lemma {:induction false} BlockGrows(s: Seg, more: seq<string>)
    requires Inv(s) && s.inError && !s.hasReadAt
    requires forall k {:trigger IsQuiet(more[k])} :: 0 <= k < |more| ==> IsQuiet(more[k])
    ensures var r := FeedAll(s, more);
      r.inError && !r.hasReadAt && r.buffer == s.buffer + more && r.store == s.store
  {
    if more != [] {
      var m, x := more[..|more| - 1], more[|more| - 1];
      BlockGrows(s, m);
      assert IsQuiet(more[|more| - 1]);
      FeedContinues(FeedAll(s, m), x);
      assert m + [x] == more;
    }
  }

  /** While a block is open, stack frames never end it: each one joins the block, and after the
      first one `hasReadAt` is set. */
  lemma {:induction false} FramesExtendBlock(s: Seg, frames: seq<string>)
    requires Inv(s) && s.inError
    requires forall k {:trigger IsFrame(frames[k])} :: 0 <= k < |frames| ==> IsFrame(frames[k])
    ensures var r := FeedAll(s, frames);
      r.inError && r.buffer == s.buffer + frames && r.store == s.store &&
      r.hasReadAt == (s.hasReadAt || frames != [])
  {
    if frames != [] {
      var m, x := frames[..|frames| - 1], frames[|frames| - 1];
      FramesExtendBlock(s, m);
      assert IsFrame(frames[|frames| - 1]);
      FrameJoins(FeedAll(s, m), x);
      assert m + [x] == frames;
    }
  }

  /** A start line, stack frames, then a line that is no continuation: the last line ends the
      block, is echoed plainly, and the block (start line and frames) is stored. */
  lemma FramesThenTextCloseTheBlock(b: string, frames: seq<string>, e: string)
    requires IsErrorStart(b) && frames != []
    requires forall k {:trigger IsFrame(frames[k])} :: 0 <= k < |frames| ==> IsFrame(frames[k])
    requires !IsErrorStart(e) && !IsContinuePattern(e)
    ensures var st := Run([b] + frames + [e]);
      st.store == [Record(b, b + Concat(frames))] && st.buffer == [] && !st.inError
  {
    RunSnoc([], b);
    assert [] + [b] == [b];
    FeedOpens(Start, b);
    RunAppend([b], frames);
    FramesExtendBlock(Run([b]), frames);
    RunSnoc([b] + frames, e);
    FeedCloses(Run([b] + frames), e);
    assert ([b] + frames)[1..] == frames;
  }

  /** Frames indented with spaces or a tab do not start with `at `, so no line after them ends
      the block: it stays open and takes in every line. */
  lemma IndentedFramesKeepTheBlockOpen(b: string, more: seq<string>)
    requires IsErrorStart(b)
    requires forall k {:trigger IsQuiet(more[k])} :: 0 <= k < |more| ==> IsQuiet(more[k])
    ensures var st := Run([b] + more);
      st.store == [] && st.inError && st.buffer == [b] + more
  {
    RunSnoc([], b);
    assert [] + [b] == [b];
    FeedOpens(Start, b);
    RunAppend([b], more);
    BlockGrows(Run([b]), more);
  }

  /** `hasReadAt` looks back one line only: after a stack frame, a continuation line that is
      not a frame itself (a blank line, a `Caused by: ` line, a `... N more` line) clears it,
      so the plain line after that does not end the block but joins it. */
  lemma FrameThenContinuationKeepsTheBlockOpen(s: Seg, f: string, c: string, t: string)
    requires Inv(s) && s.inError && IsFrame(f)
    requires IsQuiet(c) && IsContinuePattern(c)
    requires IsQuiet(t)
    ensures var r := Feed(Feed(Feed(s, f), c), t);
      r.inError && !r.hasReadAt && r.store == s.store && r.buffer == s.buffer + [f, c, t]
  {
    FrameJoins(s, f);
    var s1 := Feed(s, f);
    FeedContinues(s1, c);
    var s2 := Feed(s1, c);
    FeedContinues(s2, t);
    assert s.buffer + [f] + [c] + [t] == s.buffer + [f, c, t];
  }

  /** A frame, a blank line and a log line, as the three kinds of line they stand for. */
  lemma FrameBlankLogLines()
    ensures IsFrame("at a\n") && IsQuiet("\n") && IsContinuePattern("\n") && IsQuiet("INFO ok\n")
  {
    var f, c, t := "at a\n", "\n", "INFO ok\n";
    assert 'E' !in f && 'E' !in c && 'E' !in t;
    ErrorStartHasE(f);
    ErrorStartHasE(c);
    ErrorStartHasE(t);
    assert f[..3] == "at " && c[..1][0] == '\n' && t[..1][0] == 'I' && t[..3][0] == 'I';
    assert IsBlank(c);
  }

  /** A start line, a frame, a blank line, then a log line: the blank line clears `hasReadAt`,
      so the log line joins the block and nothing is stored. */
  lemma BlankAfterFrameKeepsTheBlockOpen(b: string)
    requires IsErrorStart(b)
    ensures var st := Run([b, "at a\n", "\n", "INFO ok\n"]);
      st.store == [] && st.inError && st.buffer == [b, "at a\n", "\n", "INFO ok\n"]
  {
    var f, c, t := "at a\n", "\n", "INFO ok\n";
    FrameBlankLogLines();
    RunSnoc([], b);
    assert [] + [b] == [b];
    FeedOpens(Start, b);
    var s0 := Run([b]);
    FrameThenContinuationKeepsTheBlockOpen(s0, f, c, t);
    RunSnoc([b], f);
    assert [b] + [f] == [b, f];
    RunSnoc([b, f], c);
    assert [b, f] + [c] == [b, f, c];
    RunSnoc([b, f, c], t);
    assert [b, f, c] + [t] == [b, f, c, t];
  }

  /** A Java trace whose frames are indented by a tab, as Java prints them, is never closed by
      its own frames: the block stays open with every frame in it. */
  lemma TabIndentedTraceStaysOpen(b: string)
    requires IsErrorStart(b)
    ensures var st := Run([b, TabbedFrame, TabbedFrame]);
      st.store == [] && st.inError && st.buffer == [b, TabbedFrame, TabbedFrame]
  {
    var more := [TabbedFrame, TabbedFrame];
    IndentedFrameIsNoFrame();
    assert IsQuiet(more[0]) && IsQuiet(more[1]);
    IndentedFramesKeepTheBlockOpen(b, more);
    assert [b] + more == [b, TabbedFrame, TabbedFrame];
  }
}
