/** Package shared's interactive logger (cli/shared/logger.go): the log levels, the
    prefix spinners that stand for them, and the two decorators that wrap a unit of work
    in a spinner. The global spinner `ILogger` and every effect the commands issue are
    recorded, in order, in the trace of one `Session`. */
module Shared {
  import opened Errors
  import opened Kube

  /** ILogLevel: a Go int with five named values numbered by iota. */
  newtype ILogLevel = int

  const ILogSuccess: ILogLevel := 0
  const ILogOk: ILogLevel := 1
  const ILogError: ILogLevel := 2
  const ILogWarning: ILogLevel := 3
  const ILogInfo: ILogLevel := 4

  /** spin.Spinner: the frames a persisted line starts with. */
  datatype Spinner = Spinner(frames: seq<string>)

  /** The emoji strings of the `cli.*_emoji` configuration keys. */
  datatype Emojis = Emojis(success: string, ok: string, error: string, warning: string, info: string)

  /** ILogPrefixes as initLogger fills it: one single-frame spinner per named level. */
  function LogPrefixes(e: Emojis): (m: map<ILogLevel, Spinner>)
    ensures m.Keys == {ILogSuccess, ILogOk, ILogError, ILogWarning, ILogInfo}
    ensures forall level :: level in m ==> |m[level].frames| == 1
  {
    map[ILogSuccess := Spinner([e.success]), ILogOk := Spinner([e.ok]),
        ILogError := Spinner([e.error]), ILogWarning := Spinner([e.warning]),
        ILogInfo := Spinner([e.info])]
  }

  /** `ILogPrefixes[level]`: a Go map lookup, so an unnamed level yields the zero spinner. */
  function PrefixFor(prefixes: map<ILogLevel, Spinner>, level: ILogLevel): (r: Spinner)
    ensures level in prefixes ==> r == prefixes[level]
    ensures level !in prefixes ==> r.frames == []
  {
    if level in prefixes then prefixes[level] else Spinner([])
  }

  /** The five named levels are distinct, and each selects its own emoji. */
  lemma PrefixesSelectTheirEmoji(e: Emojis, level: ILogLevel)
    ensures level in LogPrefixes(e) <==> ILogSuccess <= level <= ILogInfo
    ensures PrefixFor(LogPrefixes(e), level).frames ==
      if level == ILogSuccess then [e.success]
      else if level == ILogOk then [e.ok]
      else if level == ILogError then [e.error]
      else if level == ILogWarning then [e.warning]
      else if level == ILogInfo then [e.info]
      else []
  {
  }

  /** Everything one command execution shows or asks of the cluster, in order. */
  datatype Event =
    // the interactive spinner ILogger
    | SpinnerStart
    | SpinnerText(text: string)
    | SpinnerPersist(prefix: Spinner, text: string)
    | SpinnerStop
    // a line printed by cmd.Println / cmd.Printf
    | Println(line: string)
    // util.WaitForPodReady
    | WaitPodReady(pod: string, selector: string, namespace: string)
    // util.ExecShellInPod
    | ExecShell(pod: string, namespace: string, command: string)
    // ioutil.ReadFile
    | ReadFile(path: string)
    // util.SecretAdapter(...).CreateOrUpdate
    | WriteSecret(secret: Secret)
    // util.ValuesFromFile
    | ReadValuesFile(path: string)
    // shared.Helm.InstallOrUpgradeChart, under a context with the given timeout
    | InstallChart(spec: ChartSpec, timeout: nat)

  predicate IsSpinnerEvent(e: Event)
  {
    e.SpinnerStart? || e.SpinnerText? || e.SpinnerPersist? || e.SpinnerStop?
  }

  /** A wrapped `fn func() error`: the effects it performs and the error it returns. */
  datatype Work = Work(effects: seq<Event>, result: Option<Error>)

  /** A wrapped `fn func() (ILogLevel, string)`: its effects and the level and message it returns. */
  datatype LevelWork = LevelWork(effects: seq<Event>, level: ILogLevel, msg: string)

  /** The outcome of a deployment command: its returned error and the events it caused. */
  datatype Run = Run(err: Option<Error>, events: seq<Event>)

  /** The process-wide state of package shared for one command: the spinner ILogger
      (whether it is animating) and the trace of all events so far. */
  class Session {
    const prefixes: map<ILogLevel, Spinner>
    var spinning: bool
    var trace: seq<Event>

    constructor (prefixes: map<ILogLevel, Spinner>)
      ensures this.prefixes == prefixes && !spinning && trace == []
    {
      this.prefixes := prefixes;
      spinning := false;
      trace := [];
    }

    /** ILogger.Start() */
    method Start()
      modifies this
      ensures spinning && trace == old(trace) + [SpinnerStart]
    {
      spinning := true;
      trace := trace + [SpinnerStart];
    }

    /** ILogger.Text(text) */
    method Text(text: string)
      modifies this
      ensures spinning == old(spinning) && trace == old(trace) + [SpinnerText(text)]
    {
      trace := trace + [SpinnerText(text)];
    }

    /** ILogger.PersistWith(prefix, text) */
    method PersistWith(prefix: Spinner, text: string)
      modifies this
      ensures spinning == old(spinning) && trace == old(trace) + [SpinnerPersist(prefix, text)]
    {
      trace := trace + [SpinnerPersist(prefix, text)];
    }

    /** ILogger.Stop() */
    method Stop()
      modifies this
      ensures !spinning && trace == old(trace) + [SpinnerStop]
    {
      spinning := false;
      trace := trace + [SpinnerStop];
    }

    /** An effect issued or a line printed outside the spinner. */
    method Record(effects: seq<Event>)
      modifies this
      ensures spinning == old(spinning) && trace == old(trace) + effects
    {
      trace := trace + effects;
    }
  }

  /** The events of DecorateWithInteractiveLog around `fn`. */
  function Decorated(prefixes: map<ILogLevel, Spinner>, start: string, complete: string, fn: Work): (r: seq<Event>)
    ensures |r| == |fn.effects| + 4 && r[..2] == [SpinnerStart, SpinnerText(start)]
    ensures r[2..|r| - 2] == fn.effects && r[|r| - 2].SpinnerPersist? && r[|r| - 1] == SpinnerStop
  {
    var persist :=
      if fn.result.Some? then SpinnerPersist(PrefixFor(prefixes, ILogError), " " + fn.result.value.Message())
      else SpinnerPersist(PrefixFor(prefixes, ILogSuccess), " " + complete);
    [SpinnerStart, SpinnerText(start)] + fn.effects + [persist, SpinnerStop]
  }

  /** The events of DecorateWithInteractiveLogWithPersist around `fn`. */
  function DecoratedWithPersist(prefixes: map<ILogLevel, Spinner>, start: string, fn: LevelWork): (r: seq<Event>)
    ensures |r| == |fn.effects| + 4 && r[..2] == [SpinnerStart, SpinnerText(start)]
    ensures r[2..|r| - 2] == fn.effects && r[|r| - 1] == SpinnerStop
    ensures r[|r| - 2] == SpinnerPersist(PrefixFor(prefixes, fn.level), " " + fn.msg)
  {
    [SpinnerStart, SpinnerText(start)] + fn.effects
      + [SpinnerPersist(PrefixFor(prefixes, fn.level), " " + fn.msg), SpinnerStop]
  }

  /** DecorateWithInteractiveLog: start the spinner, show `start`, run `fn`, persist
      either the error or `complete`, and stop the spinner on the way out. */
  method DecorateWithInteractiveLog(s: Session, fn: Work, start: string, complete: string)
    returns (err: Option<Error>)
    modifies s
    ensures err == fn.result
    ensures !s.spinning
    ensures s.trace == old(s.trace) + Decorated(s.prefixes, start, complete, fn)
  {
    s.Start();
    s.Text(start);
    s.Record(fn.effects);
    if fn.result.Some? {
      s.PersistWith(PrefixFor(s.prefixes, ILogError), " " + fn.result.value.Message());
      s.Stop();
      return fn.result;
    }
    s.PersistWith(PrefixFor(s.prefixes, ILogSuccess), " " + complete);
    s.Stop();
    return None;
  }

  /** DecorateWithInteractiveLogWithPersist: as above, but `fn` chooses the level and
      message to persist, and nothing is returned. */
  method DecorateWithInteractiveLogWithPersist(s: Session, fn: LevelWork, start: string)
    modifies s
    ensures !s.spinning
    ensures s.trace == old(s.trace) + DecoratedWithPersist(s.prefixes, start, fn)
  {
    s.Start();
    s.Text(start);
    s.Record(fn.effects);
    s.PersistWith(PrefixFor(s.prefixes, fn.level), " " + fn.msg);
    s.Stop();
  }

  // ---------------------------------------------------------------------------
  // Counting events in a trace

  /** The number of occurrences of `e` in `events`. */
  function Count(events: seq<Event>, e: Event): nat
  {
    if events == [] then 0
    else (if events[0] == e then 1 else 0) + Count(events[1..], e)
  }

  lemma {:induction false} CountConcat(a: seq<Event>, b: seq<Event>, e: Event)
    ensures Count(a + b, e) == Count(a, e) + Count(b, e)
  {
    if a == [] {
      assert a + b == b;
    } else {
      assert (a + b)[1..] == a[1..] + b;
      CountConcat(a[1..], b, e);
    }
  }

  lemma {:induction false} CountAbsent(events: seq<Event>, e: Event)
    ensures Count(events, e) == 0 <==> e !in events
  {
    if events != [] {
      CountAbsent(events[1..], e);
      assert events == [events[0]] + events[1..];
    }
  }

  lemma CountSingleton(x: Event, e: Event)
    ensures Count([x], e) == if x == e then 1 else 0
  {
    assert [x][1..] == [];
  }

  /** A decorated call contains a non-spinner event as often as the wrapped work does. */
  lemma CountInDecorated(prefixes: map<ILogLevel, Spinner>, start: string, complete: string, fn: Work, e: Event)
    requires !IsSpinnerEvent(e)
    ensures Count(Decorated(prefixes, start, complete, fn), e) == Count(fn.effects, e)
  {
    var head := [SpinnerStart, SpinnerText(start)];
    var p := if fn.result.Some? then SpinnerPersist(PrefixFor(prefixes, ILogError), " " + fn.result.value.Message())
             else SpinnerPersist(PrefixFor(prefixes, ILogSuccess), " " + complete);
    CountConcat(head + fn.effects, [p, SpinnerStop], e);
    CountConcat(head, fn.effects, e);
    CountConcat([SpinnerStart], [SpinnerText(start)], e);
    CountConcat([p], [SpinnerStop], e);
    CountSingleton(SpinnerStart, e);
    CountSingleton(SpinnerText(start), e);
    CountSingleton(p, e);
    CountSingleton(SpinnerStop, e);
    assert head == [SpinnerStart] + [SpinnerText(start)];
    assert [p, SpinnerStop] == [p] + [SpinnerStop];
  }

  /** Apart from the spinner's own events, a decorated call holds only the work's effects. */
  lemma DecoratedEffects(prefixes: map<ILogLevel, Spinner>, start: string, complete: string, fn: Work)
    ensures forall e :: e in Decorated(prefixes, start, complete, fn) && !IsSpinnerEvent(e) ==> e in fn.effects
  {
  }

  /** Every occurrence of `x` in `events` comes before every occurrence of `y`. */
  predicate Precedes(events: seq<Event>, x: Event, y: Event)
  {
    forall i, j :: 0 <= i < |events| && 0 <= j < |events| && events[i] == x && events[j] == y ==> i < j
  }

  /** When `x` occurs only in the first part and `y` only in the second, `x` precedes `y`. */
  lemma PrecedesAcross(a: seq<Event>, b: seq<Event>, x: Event, y: Event)
    requires x !in b && y !in a
    ensures Precedes(a + b, x, y)
  {
  }

  /** Events placed before a trace that holds neither `x` nor `y` keep `x` before `y`. */
  lemma PrecedesAfter(a: seq<Event>, b: seq<Event>, x: Event, y: Event)
    requires x !in a && y !in a && Precedes(b, x, y)
    ensures Precedes(a + b, x, y)
  {
    var t := a + b;
    forall i, j | 0 <= i < |t| && 0 <= j < |t| && t[i] == x && t[j] == y
      ensures i < j
    {
      if |a| <= i && |a| <= j {
        assert b[i - |a|] == x && b[j - |a|] == y;
      }
    }
  }

  /** The persisted lines of a trace, in order. */
  function Persists(events: seq<Event>): (r: seq<Event>)
    ensures forall i :: 0 <= i < |r| ==> r[i].SpinnerPersist? && r[i] in events
  {
    if events == [] then []
    else if events[0].SpinnerPersist? then [events[0]] + Persists(events[1..])
    else Persists(events[1..])
  }

  lemma {:induction false} PersistsConcat(a: seq<Event>, b: seq<Event>)
    ensures Persists(a + b) == Persists(a) + Persists(b)
  {
    if a == [] {
      assert a + b == b;
    } else {
      assert (a + b)[1..] == a[1..] + b;
      PersistsConcat(a[1..], b);
    }
  }

  lemma {:induction false} PersistsNone(events: seq<Event>)
    requires forall e :: e in events ==> !IsSpinnerEvent(e)
    ensures Persists(events) == []
  {
    if events != [] {
      assert events[0] in events;
      assert forall e :: e in events[1..] ==> e in events;
      PersistsNone(events[1..]);
    }
  }

  /** The persisted lines and spinner starts and stops of the fixed head and tail of a
      decorated call. */
  lemma HeadAndTailPersists(start: string, p: Event)
    requires p.SpinnerPersist?
    ensures Persists([SpinnerStart, SpinnerText(start)]) == []
    ensures Persists([p, SpinnerStop]) == [p]
    ensures Count([SpinnerStart, SpinnerText(start)], SpinnerStart) == 1
    ensures Count([SpinnerStart, SpinnerText(start)], SpinnerStop) == 0
    ensures Count([p, SpinnerStop], SpinnerStart) == 0
    ensures Count([p, SpinnerStop], SpinnerStop) == 1
  {
    assert [SpinnerStart, SpinnerText(start)][1..] == [SpinnerText(start)];
    assert [p, SpinnerStop][1..] == [SpinnerStop];
    assert [SpinnerText(start)][1..] == [];
    assert [SpinnerStop][1..] == [];
    var head := [SpinnerStart, SpinnerText(start)];
    assert Persists(head[1..]) == Persists([SpinnerText(start)]) == [];
    assert Count(head[1..], SpinnerStart) == Count([SpinnerText(start)], SpinnerStart) == 0;
    assert Count(head[1..], SpinnerStop) == Count([SpinnerText(start)], SpinnerStop) == 0;
  }

  /** A decorated call persists exactly once: the failure prefix and the error's text
      when `fn` failed, the success prefix and `complete` otherwise; it starts the
      spinner and shows `start` before `fn` runs, and stops the spinner last. */
  lemma DecoratedPersistsOnce(prefixes: map<ILogLevel, Spinner>, start: string, complete: string, fn: Work)
    requires forall e :: e in fn.effects ==> !IsSpinnerEvent(e)
    ensures var t := Decorated(prefixes, start, complete, fn);
      && Persists(t) == [if fn.result.Some?
                         then SpinnerPersist(PrefixFor(prefixes, ILogError), " " + fn.result.value.Message())
                         else SpinnerPersist(PrefixFor(prefixes, ILogSuccess), " " + complete)]
      && t[..2] == [SpinnerStart, SpinnerText(start)]
      && t[2..2 + |fn.effects|] == fn.effects
      && t[|t| - 1] == SpinnerStop
      && Count(t, SpinnerStart) == 1 && Count(t, SpinnerStop) == 1
  {
    var p := if fn.result.Some? then SpinnerPersist(PrefixFor(prefixes, ILogError), " " + fn.result.value.Message())
             else SpinnerPersist(PrefixFor(prefixes, ILogSuccess), " " + complete);
    var t := Decorated(prefixes, start, complete, fn);
    assert t == [SpinnerStart, SpinnerText(start)] + fn.effects + [p, SpinnerStop];
    PersistsConcat([SpinnerStart, SpinnerText(start)] + fn.effects, [p, SpinnerStop]);
    PersistsConcat([SpinnerStart, SpinnerText(start)], fn.effects);
    PersistsNone(fn.effects);
    CountConcat([SpinnerStart, SpinnerText(start)] + fn.effects, [p, SpinnerStop], SpinnerStart);
    CountConcat([SpinnerStart, SpinnerText(start)], fn.effects, SpinnerStart);
    CountConcat([SpinnerStart, SpinnerText(start)] + fn.effects, [p, SpinnerStop], SpinnerStop);
    CountConcat([SpinnerStart, SpinnerText(start)], fn.effects, SpinnerStop);
    CountAbsent(fn.effects, SpinnerStart);
    CountAbsent(fn.effects, SpinnerStop);
    HeadAndTailPersists(start, p);
  }

  /** The persisting variant also persists exactly once, with the prefix of the level
      `fn` returned and its message. */
  lemma DecoratedWithPersistPersistsOnce(prefixes: map<ILogLevel, Spinner>, start: string, fn: LevelWork)
    requires forall e :: e in fn.effects ==> !IsSpinnerEvent(e)
    ensures var t := DecoratedWithPersist(prefixes, start, fn);
      && Persists(t) == [SpinnerPersist(PrefixFor(prefixes, fn.level), " " + fn.msg)]
      && t[..2] == [SpinnerStart, SpinnerText(start)]
      && t[2..2 + |fn.effects|] == fn.effects
      && t[|t| - 1] == SpinnerStop
  {
    var p := SpinnerPersist(PrefixFor(prefixes, fn.level), " " + fn.msg);
    PersistsConcat([SpinnerStart, SpinnerText(start)] + fn.effects, [p, SpinnerStop]);
    PersistsConcat([SpinnerStart, SpinnerText(start)], fn.effects);
    PersistsNone(fn.effects);
    HeadAndTailPersists(start, p);
  }
}
