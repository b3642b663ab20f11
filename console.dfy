/** StartInteractiveConsole (cli/shared/logger.go): a pipe whose reader end a
    background loop drains once per tick, printing each line it reads, and the
    fakeConsoleFile handed to the producer. The ticker, the goroutine and the
    blocking of the pipe are abstracted: each step of the loop is one method call,
    and the scheduler's choices are the calls made. */
module Console {
  import opened Errors

  /** The strings of a sequence joined end to end. */
  function Concat(pieces: seq<string>): string
  {
    if pieces == [] then "" else pieces[0] + Concat(pieces[1..])
  }

  lemma {:induction false} ConcatAppend(pieces: seq<string>, p: string)
    ensures Concat(pieces + [p]) == Concat(pieces) + p
  {
    if pieces == [] {
      assert pieces + [p] == [p];
      assert [p][1..] == [];
    } else {
      assert (pieces + [p])[1..] == pieces[1..] + [p];
      ConcatAppend(pieces[1..], p);
    }
  }

  /** The index of the first newline of `s`. */
  function LineEnd(s: string): (i: nat)
    requires '\n' in s
    ensures i < |s| && s[i] == '\n' && '\n' !in s[..i]
  {
    if s[0] == '\n' then 0
    else
      assert s == [s[0]] + s[1..];
      var j := LineEnd(s[1..]);
      assert s[..j + 1] == [s[0]] + s[1..][..j];
      j + 1
  }

  /** What one ReadString('\n') can return: text with no newline, or text whose only
      newline is its last character. */
  predicate IsLine(s: string)
  {
    '\n' !in s || (s[|s| - 1] == '\n' && '\n' !in s[..|s| - 1])
  }

  /** A completed read: the string returned and what stays buffered after it. */
  datatype Read = Read(str: string, rest: string)

  /** bufio.Reader.ReadString('\n') over the bytes waiting in the pipe: everything up
      to and including the first newline; once the writer is closed and no newline is
      left, whatever remains (possibly nothing) together with io.EOF, which the loop
      ignores. None: no newline has arrived and the writer is open, so the read blocks. */
  function ReadString(buffered: string, eof: bool): (r: Option<Read>)
    ensures r.Some? <==> '\n' in buffered || eof
    ensures r.Some? ==> r.value.str + r.value.rest == buffered && IsLine(r.value.str)
    ensures r.Some? && '\n' in buffered ==>
      r.value.str != [] && r.value.str[|r.value.str| - 1] == '\n'
    ensures r.Some? && '\n' !in buffered ==> r.value.rest == []
  {
    if '\n' in buffered then
      var i := LineEnd(buffered);
      assert buffered[..i + 1][..i] == buffered[..i];
      assert buffered[..i + 1] + buffered[i + 1..] == buffered;
      Some(Read(buffered[..i + 1], buffered[i + 1..]))
    else if eof then
      Some(Read(buffered, []))
    else
      None
  }

  /** strings.TrimLeft(s, "\n") */
  function TrimLeft(s: string): (r: string)
    ensures |r| <= |s| && r == s[|s| - |r|..]
    ensures r == [] || r[0] != '\n'
    ensures forall k :: 0 <= k < |s| - |r| ==> s[k] == '\n'
  {
    if s != [] && s[0] == '\n' then TrimLeft(s[1..]) else s
  }

  /** strings.TrimRight(s, "\n") */
  function TrimRight(s: string): (r: string)
    ensures |r| <= |s| && r == s[..|r|]
    ensures r == [] || r[|r| - 1] != '\n'
    ensures forall k :: |r| <= k < |s| ==> s[k] == '\n'
  {
    if s != [] && s[|s| - 1] == '\n' then TrimRight(s[..|s| - 1]) else s
  }

  /** The number of newlines `s` starts with. */
  function LeadingNewlines(s: string): (n: nat)
    ensures n <= |s| && (forall k :: 0 <= k < n ==> s[k] == '\n') && (n == |s| || s[n] != '\n')
  {
    if s != [] && s[0] == '\n' then 1 + LeadingNewlines(s[1..]) else 0
  }

  /** `r` is what lies in `s` between its leading newlines and its trailing newlines. */
  ghost predicate SliceBetweenNewlines(s: string, r: string)
  {
    var i := LeadingNewlines(s);
    && i + |r| <= |s| && r == s[i..i + |r|]
    && forall k :: i + |r| <= k < |s| ==> s[k] == '\n'
  }

  /** strings.Trim(s, "\n"), which trims the left end and then the right end: what is
      left is the slice of `s` between its leading and its trailing newlines. */
  function Trim(s: string): (r: string)
    ensures '\n' !in s ==> r == s
    ensures r == [] || (r[0] != '\n' && r[|r| - 1] != '\n')
    ensures SliceBetweenNewlines(s, r)
  {
    var l := TrimLeft(s);
    assert |s| - |l| > 0 ==> s[0] == '\n' && s[0] in s;
    var i := |s| - |l|;
    assert i == LeadingNewlines(s);
    var r := TrimRight(l);
    assert r == s[i..i + |r|];
    assert forall k :: i + |r| <= k < |s| ==> s[k] == l[k - i];
    r
  }

  /** What one tick prints for the string it read: nothing for an empty read or a
      lone newline, otherwise the read with its surrounding newlines trimmed. */
  function PrintedLine(str: string): (r: Option<string>)
    ensures r.None? <==> |str| == 0 || (|str| == 1 && str[0] == '\n')
  {
    if |str| == 0 then None
    else if str != "\n" then Some(Trim(str))
    else None
  }

  /** A line that ReadString returned prints as itself without its newline: it is
      printed unless it is empty or a lone newline, and what is printed is never blank
      and holds no newline. */
  lemma {:induction false} ReadLinePrintsItself(str: string)
    requires IsLine(str)
    ensures PrintedLine(str).Some? <==> str != "" && str != "\n"
    ensures PrintedLine(str).Some? ==>
      var l := PrintedLine(str).value;
      l != "" && '\n' !in l && (l == str || l + "\n" == str)
  {
    if str != "" && str != "\n" && '\n' in str {
      var x := str[..|str| - 1];
      assert str == x + ['\n'];
      assert str[0] == x[0] && x[0] in x;
      assert x[|x| - 1] in x;
      assert TrimLeft(str) == str;
      assert TrimRight(str) == TrimRight(x) == x;
    }
  }

  /** The lines one tick prints for the string it read: none or one. */
  function Printed(str: string): (r: seq<string>)
    ensures |r| <= 1 && (r == [] <==> PrintedLine(str).None?)
    ensures PrintedLine(str).Some? ==> r == [PrintedLine(str).value]
  {
    match PrintedLine(str)
    case Some(l) => [l]
    case None => []
  }

  /** For anything `ReadString` returns, the tick prints nothing for an empty read or a
      lone newline, and otherwise exactly the read without its final newline. */
  lemma PrintedOfLine(str: string)
    requires IsLine(str)
    ensures str == "" || str == "\n" ==> Printed(str) == []
    ensures str != "" && str != "\n" ==>
      Printed(str) == [if str[|str| - 1] == '\n' then str[..|str| - 1] else str]
  {
    // ReadLinePrintsItself's contract is all this proof needs of the trimming.
    hide Trim, TrimLeft, TrimRight;
    ReadLinePrintsItself(str);
    if str != "" && str != "\n" {
      var l := PrintedLine(str).value;
      if str[|str| - 1] == '\n' {
        assert (l + "\n")[..|l|] == l;
      }
    }
  }

  lemma PrintedOfLineNonBlank(str: string)
    requires IsLine(str)
    ensures NonBlank(Printed(str))
  {
    if PrintedLine(str).Some? {
      var l := PrintedLine(str).value;
      assert l != "" && '\n' !in l by {
        ReadLinePrintsItself(str);
      }
      NonBlankSingleton(l);
      assert Printed(str) == [l];
    }
  }

  lemma NonBlankSingleton(l: string)
    requires l != "" && '\n' !in l
    ensures NonBlank([l])
  {
  }

  /** The lines the ticks print for the strings they read, in order. */
  function PrintedLines(results: seq<string>): seq<string>
  {
    if results == [] then [] else Printed(results[0]) + PrintedLines(results[1..])
  }

  /** Every string in `results` is something ReadString can return. */
  ghost predicate AllLines(results: seq<string>)
  {
    forall i :: 0 <= i < |results| ==> IsLine(results[i])
  }

  lemma AllLinesAppend(results: seq<string>, str: string)
    requires AllLines(results) && IsLine(str)
    ensures AllLines(results + [str])
  {
    forall i | 0 <= i < |results + [str]| ensures IsLine((results + [str])[i]) {
      if i < |results| {
        assert (results + [str])[i] == results[i];
      } else {
        assert (results + [str])[i] == str;
      }
    }
  }

  /** No line of `lines` is empty or holds a newline. */
  ghost predicate NonBlank(lines: seq<string>)
  {
    forall j :: 0 <= j < |lines| ==> lines[j] != "" && '\n' !in lines[j]
  }

  lemma NonBlankConcat(a: seq<string>, b: seq<string>)
    requires NonBlank(a) && NonBlank(b)
    ensures NonBlank(a + b)
  {
    assert forall j :: 0 <= j < |a + b| ==> (a + b)[j] == if j < |a| then a[j] else b[j - |a|];
  }

  lemma {:induction false} PrintedLinesAppend(results: seq<string>, str: string)
    ensures PrintedLines(results + [str]) == PrintedLines(results) + Printed(str)
  {
    if results == [] {
      assert results + [str] == [str];
      assert [str][1..] == [];
    } else {
      assert (results + [str])[1..] == results[1..] + [str];
      PrintedLinesAppend(results[1..], str);
    }
  }

  /** No blank line is ever printed: every line printed for a sequence of results is
      non-empty and holds no newline. */
  lemma {:induction false} NoBlankLinePrinted(results: seq<string>)
    requires AllLines(results)
    ensures NonBlank(PrintedLines(results))
  {
    if results != [] {
      assert IsLine(results[0]);
      PrintedOfLineNonBlank(results[0]);
      var tail := results[1..];
      assert AllLines(tail) by {
        forall i | 0 <= i < |tail| ensures IsLine(tail[i]) {
          assert tail[i] == results[i + 1];
        }
      }
      NoBlankLinePrinted(tail);
      NonBlankConcat(Printed(results[0]), PrintedLines(tail));
    }
  }

  /** The strings successive ticks read once the writer is closed and nothing more
      arrives, until the pipe is empty: every byte is read exactly once, in order, and
      each read is a non-empty line. */
  function DrainClosed(buffered: string): (results: seq<string>)
    ensures Concat(results) == buffered
    ensures forall i :: 0 <= i < |results| ==> IsLine(results[i]) && results[i] != ""
    decreases |buffered|
  {
    if buffered == [] then []
    else
      var r := ReadString(buffered, true).value;
      assert r.str != [] by {
        if '\n' !in buffered { assert r.str == buffered; }
      }
      [r.str] + DrainClosed(r.rest)
  }

  /** Consuming one read keeps the bytes accounted for and the printed lines in step
      with the reads. */
  lemma ReadKeepsInvariant(results: seq<string>, buffered: string, written: string, printed: seq<string>, r: Read)
    requires Concat(results) + buffered == written && AllLines(results)
    requires printed == PrintedLines(results)
    requires r.str + r.rest == buffered && IsLine(r.str)
    ensures Concat(results + [r.str]) + r.rest == written
    ensures AllLines(results + [r.str])
    ensures printed + Printed(r.str) == PrintedLines(results + [r.str])
    ensures NonBlank(printed + Printed(r.str))
  {
    assert Concat(results + [r.str]) + r.rest == written by {
      ConcatAppend(results, r.str);
      assert Concat(results + [r.str]) + r.rest == Concat(results) + (r.str + r.rest);
    }
    AllLinesAppend(results, r.str);
    assert printed + Printed(r.str) == PrintedLines(results + [r.str]) by {
      PrintedLinesAppend(results, r.str);
    }
    NoBlankLinePrinted(results + [r.str]);
  }

  /** One event of the loop's world: a write by the producer, the writer being closed,
      the context being cancelled, or one of the two select cases firing. */
  datatype Step = Produce(data: string) | CloseWrite | CancelContext | TickerFires | DoneFires

  /** The pipe created by StartInteractiveConsole, with the goroutine draining it. */
  class InteractiveConsole {
    /** bytes written to the pipe and not yet returned by ReadString */
    var buffered: string
    /** the pipe's writer end has been closed */
    var writerClosed: bool
    /** ctx.Done() is closed */
    var cancelled: bool
    /** the goroutine has not returned */
    var running: bool
    /** the lines fmt.Println printed */
    var printed: seq<string>
    /** every byte ever written to the pipe */
    ghost var written: string
    /** every string ReadString returned, in order */
    ghost var results: seq<string>

    ghost predicate Valid()
      reads this
    {
      && Concat(results) + buffered == written
      && AllLines(results)
      && printed == PrintedLines(results)
      && NonBlank(printed)
    }

    /** The pipe and the goroutine as StartInteractiveConsole leaves them. */
    constructor ()
      ensures Valid()
      ensures buffered == [] && written == [] && results == [] && printed == []
      ensures running && !cancelled && !writerClosed
    {
      buffered, writerClosed, cancelled, running, printed := [], false, false, true, [];
      written, results := [], [];
    }

    /** A write to the pipe's writer end: io.Pipe refuses writes once it is closed. */
    method Write(data: string) returns (err: Option<Error>)
      requires Valid()
      modifies this
      ensures Valid()
      ensures err.Some? <==> writerClosed
      ensures written == if writerClosed then old(written) else old(written) + data
      ensures buffered == if writerClosed then old(buffered) else old(buffered) + data
      ensures results == old(results) && printed == old(printed)
      ensures writerClosed == old(writerClosed) && cancelled == old(cancelled) && running == old(running)
    {
      if writerClosed {
        return Some(External("io: read/write on closed pipe"));
      }
      assert Concat(results) + (buffered + data) == (Concat(results) + buffered) + data;
      buffered := buffered + data;
      written := written + data;
      return None;
    }

    /** The writer end is closed (nothing in the source closes it). */
    method CloseWriter()
      requires Valid()
      modifies this
      ensures Valid() && writerClosed
      ensures buffered == old(buffered) && written == old(written) && results == old(results)
      ensures printed == old(printed) && cancelled == old(cancelled) && running == old(running)
    {
      writerClosed := true;
    }

    /** The context governing the goroutine is cancelled. */
    method Cancel()
      requires Valid()
      modifies this
      ensures Valid() && cancelled
      ensures buffered == old(buffered) && written == old(written) && results == old(results)
      ensures printed == old(printed) && writerClosed == old(writerClosed) && running == old(running)
    {
      cancelled := true;
    }

    /** The `<-ctx.Done()` case: selectable only once the context is cancelled; the
        goroutine then returns. */
    method Done()
      requires Valid()
      modifies this
      ensures Valid()
      ensures running == (old(running) && !cancelled)
      ensures buffered == old(buffered) && written == old(written) && results == old(results)
      ensures printed == old(printed) && writerClosed == old(writerClosed) && cancelled == old(cancelled)
    {
      if running && cancelled {
        running := false;
      }
    }

    /** The `<-t.C` case: one ReadString('\n'), skipping an empty read and a lone
        newline and printing anything else trimmed of newlines. A goroutine that has
        returned reads nothing; a read that would block is modelled as reading nothing. */
    method Tick()
      requires Valid()
      modifies this
      ensures Valid()
      ensures var r := ReadString(old(buffered), writerClosed);
        if old(running) && r.Some? then
          && buffered == r.value.rest
          && results == old(results) + [r.value.str]
          && printed == old(printed) + Printed(r.value.str)
        else
          buffered == old(buffered) && results == old(results) && printed == old(printed)
      ensures NonBlank(printed)
      ensures written == old(written) && running == old(running)
      ensures writerClosed == old(writerClosed) && cancelled == old(cancelled)
    {
      if running {
        var r := ReadString(buffered, writerClosed);
        if r.Some? {
          var str := r.value.str;
          ReadKeepsInvariant(results, buffered, written, printed, r.value);
          buffered := r.value.rest;
          results := results + [str];
          if |str| == 0 {
            assert Printed(str) == [];
          } else if str != "\n" {
            assert Printed(str) == [Trim(str)];
            printed := printed + [Trim(str)];
          } else {
            assert Printed(str) == [];
          }
        }
      }
    }

    /** The goroutine's `for { select { ... } }` interleaved with the producer and the
        context's owner, one step per element of `schedule`. Once the goroutine has
        returned it reads nothing more. */
    method Run(schedule: seq<Step>)
      requires Valid()
      modifies this
      ensures Valid()
      ensures NonBlank(printed)
      ensures !old(running) ==> !running && results == old(results) && printed == old(printed)
      ensures |old(results)| <= |results| && results[..|old(results)|] == old(results)
    {
      var k := 0;
      while k < |schedule|
        invariant 0 <= k <= |schedule|
        invariant Valid()
        invariant !old(running) ==> !running && results == old(results) && printed == old(printed)
        invariant |old(results)| <= |results| && results[..|old(results)|] == old(results)
      {
        match schedule[k] {
          case Produce(data) =>
            var _ := Write(data);
          case CloseWrite =>
            CloseWriter();
          case CancelContext =>
            Cancel();
          case TickerFires =>
            Tick();
          case DoneFires =>
            Done();
        }
        k := k + 1;
      }
      NoBlankLinePrinted(results);
    }
  }

  /** fakeConsoleFile: an io.Reader and an io.Writer. */
  datatype FakeConsoleFile = FakeConsoleFile(reader: Option<InteractiveConsole>, writer: InteractiveConsole)
  {
    /** Close: always succeeds, and closes nothing. */
    function Close(): (err: Option<Error>)
      ensures err == None
    {
      None
    }

    /** Name: always the empty string. */
    function Name(): (name: string)
      ensures name == ""
    {
      ""
    }
  }

  /** StartInteractiveConsole: a fresh pipe with its drain loop running, handed out as
      a file whose Writer is the pipe's writer end and whose Reader is nil. */
  method StartInteractiveConsole() returns (f: FakeConsoleFile)
    ensures fresh(f.writer) && f.reader == None
    ensures f.writer.Valid() && f.writer.buffered == [] && f.writer.printed == []
    ensures f.writer.running && !f.writer.cancelled && !f.writer.writerClosed
  {
    var c := new InteractiveConsole();
    f := FakeConsoleFile(None, c);
  }
}
