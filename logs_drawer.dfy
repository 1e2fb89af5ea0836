/** The logs drawer of a VM: a list of log entries loaded when the drawer
    opens, shown filtered by level, and exported as plain text, one line per
    entry. Timestamps are milliseconds since the epoch; how an entry's
    timestamp is rendered (`toLocaleString`) is passed in as a function. */
module LogsDrawer {
  import opened Seqs
  import Text

  datatype Level = INFO | WARN | ERROR | DEBUG

  function LevelName(l: Level): string {
    match l
    case INFO => "INFO"
    case WARN => "WARN"
    case ERROR => "ERROR"
    case DEBUG => "DEBUG"
  }

  /** Distinct levels have distinct names, and none is named "all". */
  lemma LevelNames(l: Level, m: Level)
    ensures l != m ==> LevelName(l) != LevelName(m)
    ensures LevelName(l) != "all"
  {
  }

  datatype LogEntry = LogEntry(id: string, timestamp: int, level: Level, message: string, source: string)

  // ---- Filtering ----

  /** The filter is a free string: "all", or the name a level must have. */
  function Matches(filterLevel: string): LogEntry -> bool {
    (e: LogEntry) => filterLevel == "all" || LevelName(e.level) == filterLevel
  }

  /** `filteredLogs`. */
  function FilteredLogs(logs: seq<LogEntry>, filterLevel: string): seq<LogEntry> {
    Filter(logs, Matches(filterLevel))
  }

  /** With "all" every entry is shown. */
  lemma FilterAllKeepsAll(logs: seq<LogEntry>)
    ensures FilteredLogs(logs, "all") == logs
  {
    FilterKeepsAll(logs, Matches("all"));
  }

  /** With a level, exactly the entries of that level are shown; filtering
      what is shown again changes nothing. That they keep their order and
      multiplicity is `FilterByLevelKeepsOrder`. */
  lemma {:induction false} FilterByLevel(logs: seq<LogEntry>, l: Level)
    ensures var shown := FilteredLogs(logs, LevelName(l));
            (forall i :: 0 <= i < |shown| ==> shown[i].level == l) &&
            (forall i :: 0 <= i < |logs| ==> (logs[i] in shown <==> logs[i].level == l)) &&
            FilteredLogs(shown, LevelName(l)) == shown
  {
    var shown := FilteredLogs(logs, LevelName(l));
    forall i | 0 <= i < |shown| ensures shown[i].level == l {
      LevelNames(l, shown[i].level);
    }
    forall i | 0 <= i < |logs| ensures logs[i] in shown <==> logs[i].level == l {
      FilterMember(logs, Matches(LevelName(l)), logs[i]);
      LevelNames(l, logs[i].level);
    }
    FilterIdempotent(logs, Matches(LevelName(l)));
  }

  /** The entries shown for a level keep the input's order and multiplicity:
      filtering a concatenation joins the filtered parts, a single entry shows
      itself exactly when it has the level, no entries show none, and each
      entry of the level is shown as often as the input holds it. */
  lemma {:induction false} FilterByLevelKeepsOrder(logs: seq<LogEntry>, a: seq<LogEntry>, b: seq<LogEntry>,
                                                   e: LogEntry, l: Level)
    ensures FilteredLogs(a + b, LevelName(l)) == FilteredLogs(a, LevelName(l)) + FilteredLogs(b, LevelName(l))
    ensures FilteredLogs([e], LevelName(l)) == if e.level == l then [e] else []
    ensures FilteredLogs([], LevelName(l)) == []
    ensures forall x :: multiset(FilteredLogs(logs, LevelName(l)))[x] == if x.level == l then multiset(logs)[x] else 0
  {
    var p := Matches(LevelName(l));
    FilterConcat(a, b, p);
    FilterMultiset(logs, p);
    forall x ensures p(x) <==> x.level == l {
      LevelNames(l, x.level);
    }
    assert [e][1..] == [];
  }

  /** A filter that is neither "all" nor a level name shows nothing. */
  lemma UnknownFilterShowsNothing(logs: seq<LogEntry>, f: string)
    requires f != "all" && forall l: Level :: LevelName(l) != f
    ensures FilteredLogs(logs, f) == []
  {
    FilterKeepsNone(logs, Matches(f));
  }

  // ---- Export ----

  /** One exported line: "[time] LEVEL (source): message". */
  function Line(e: LogEntry, fmt: int -> string): string {
    "[" + fmt(e.timestamp) + "] " + LevelName(e.level) + " (" + e.source + "): " + e.message
  }

  /** The exported lines, one per entry. When no part of any entry holds a
      newline, no line does, so each entry takes exactly one line of the text. */
  function Lines(logs: seq<LogEntry>, fmt: int -> string): (r: seq<string>)
    ensures |r| == |logs|
    ensures (forall i :: 0 <= i < |logs| ==> SingleLine(logs[i], fmt)) ==>
              forall i :: 0 <= i < |r| ==> '\n' !in r[i]
  {
    LinesHaveNoNewline(logs, fmt);
    seq(|logs|, i requires 0 <= i < |logs| => Line(logs[i], fmt))
  }

  lemma LinesHaveNoNewline(logs: seq<LogEntry>, fmt: int -> string)
    ensures forall i :: 0 <= i < |logs| && SingleLine(logs[i], fmt) ==> '\n' !in Line(logs[i], fmt)
  {
    forall i | 0 <= i < |logs| && SingleLine(logs[i], fmt)
      ensures '\n' !in Line(logs[i], fmt)
    {
      LineHasNoNewline(logs[i], fmt);
    }
  }

  /** The exported text: the lines of all entries, whatever the filter, joined by newlines. */
  function Export(logs: seq<LogEntry>, fmt: int -> string): string {
    Text.Join(Lines(logs, fmt), '\n')
  }

  /** No part of a line breaks it. */
  predicate SingleLine(e: LogEntry, fmt: int -> string) {
    '\n' !in fmt(e.timestamp) && '\n' !in e.source && '\n' !in e.message
  }

  lemma LineHasNoNewline(e: LogEntry, fmt: int -> string)
    requires SingleLine(e, fmt)
    ensures '\n' !in Line(e, fmt)
  {
    var l := LevelName(e.level);
    assert '\n' !in l;
    var line := Line(e, fmt);
    assert line == "[" + fmt(e.timestamp) + "] " + l + " (" + e.source + "): " + e.message;
  }

  /** Splitting the export at newlines gives back one line per entry, in
      order; the text ends with the last entry's line, with no newline after
      it; with no entries it is empty. */
  lemma {:induction false} ExportSplitsIntoLines(logs: seq<LogEntry>, fmt: int -> string)
    requires forall i :: 0 <= i < |logs| ==> SingleLine(logs[i], fmt)
    ensures logs != [] ==> Text.SplitOn(Export(logs, fmt), '\n') == Lines(logs, fmt)
    ensures logs != [] ==>
              var text, last := Export(logs, fmt), Line(logs[|logs| - 1], fmt);
              |last| <= |text| && text[|text| - |last|..] == last
    ensures logs == [] ==> Export(logs, fmt) == ""
  {
    var lines := Lines(logs, fmt);
    if logs != [] {
      assert Export(logs, fmt) == Text.Join(lines, '\n');
      assert lines[|lines| - 1] == Line(logs[|logs| - 1], fmt);
      Text.SplitJoin(lines, '\n');
      Text.JoinEndsWith(lines, '\n');
    }
  }

  // ---- Separators ----

  /** `index < filteredLogs.length - 1`: whether a separator follows the entry at each index. */
  function Separators(n: nat): (s: seq<bool>)
    ensures |s| == n
  {
    seq(n, i => i < n - 1)
  }

  function CountTrue(s: seq<bool>): nat
    decreases |s|
  {
    if s == [] then 0 else CountTrue(s[..|s| - 1]) + (if s[|s| - 1] then 1 else 0)
  }

  lemma {:induction false} CountAllTrue(s: seq<bool>)
    requires forall i :: 0 <= i < |s| ==> s[i]
    ensures CountTrue(s) == |s|
    decreases |s|
  {
    if s != [] {
      CountAllTrue(s[..|s| - 1]);
    }
  }

  /** n entries get n - 1 separators (none for no entry), and none follows the last. */
  lemma SeparatorPlacement(n: nat)
    ensures CountTrue(Separators(n)) == if n == 0 then 0 else n - 1
    ensures n > 0 ==> !Separators(n)[n - 1]
    ensures forall i :: 0 <= i < n - 1 ==> Separators(n)[i]
  {
    if n > 0 {
      CountAllTrue(Separators(n)[..n - 1]);
    }
  }

  // ---- The sample logs ----

  const Minute := 60 * 1000

  /** The six entries the drawer loads, the newest five minutes before `now`. */
  function SampleLogs(now: int): seq<LogEntry> {
    [ LogEntry("1", now - 5 * Minute, INFO, "VM started successfully", "system"),
      LogEntry("2", now - 10 * Minute, INFO, "Network interface eth0 configured", "network"),
      LogEntry("3", now - 15 * Minute, WARN, "High CPU usage detected (85%)", "monitoring"),
      LogEntry("4", now - 20 * Minute, INFO, "SSH service started on port 22", "ssh"),
      LogEntry("5", now - 25 * Minute, ERROR, "Failed to connect to external service", "application"),
      LogEntry("6", now - 30 * Minute, INFO, "Disk space check completed", "system") ]
  }

  /** Six entries with distinct ids, at 5, 10, ..., 30 minutes before now, so
      newest first and strictly decreasing. */
  lemma SampleLogsShape(now: int)
    ensures var s := SampleLogs(now);
            |s| == 6 &&
            (forall i :: 0 <= i < 6 ==> s[i].timestamp == now - 5 * (i + 1) * Minute) &&
            (forall i, j :: 0 <= i < j < 6 ==> s[i].timestamp > s[j].timestamp) &&
            (forall i, j :: 0 <= i < j < 6 ==> s[i].id != s[j].id)
  {
    var s := SampleLogs(now);
    assert forall i :: 0 <= i < 6 ==> |s[i].id| == 1 && s[i].id[0] == "123456"[i];
  }

  // ---- The drawer's state ----

  /** The events the drawer reacts to. `Opened` is the effect running with a VM
      and the drawer open: it starts loading and schedules the one-second
      timer. `TimerFired` is that timer's callback. */
  datatype Event = Opened | TimerFired(now: int) | RefreshClicked | FilterChanged(level: string)

  /** The drawer's state; `pending` counts the timers scheduled and not yet fired. */
  datatype Panel = Panel(logs: seq<LogEntry>, loading: bool, filterLevel: string, pending: nat)

  const Closed := Panel([], false, "all", 0)

  /** What the list area shows: nothing while loading, else the filtered entries. */
  function Shown(p: Panel): seq<LogEntry> {
    if p.loading then [] else FilteredLogs(p.logs, p.filterLevel)
  }

  /** The drawer as written: Refresh only sets the loading flag. The effect
      that loads logs runs only when the VM or the open flag change, so no
      timer is scheduled and nothing ever clears the flag. */
  function StepAsWritten(p: Panel, e: Event): (q: Panel)
    ensures e == RefreshClicked ==> q == p.(loading := true)
  {
    match e
    case Opened => p.(loading := true, pending := p.pending + 1)
    case TimerFired(now) =>
      if p.pending == 0 then p else Panel(SampleLogs(now), false, p.filterLevel, p.pending - 1)
    case RefreshClicked => p.(loading := true)
    case FilterChanged(f) => p.(filterLevel := f)
  }

  function RunAsWritten(p: Panel, es: seq<Event>): Panel
    decreases |es|
  {
    if es == [] then p else RunAsWritten(StepAsWritten(p, es[0]), es[1..])
  }

  /** Once loaded, pressing Refresh leaves the drawer on its spinner for good:
      whatever happens next short of reopening it, nothing is shown again. */
  lemma {:induction false} RefreshNeverFinishes(p: Panel, es: seq<Event>)
    requires p.pending == 0
    requires forall i :: 0 <= i < |es| ==> es[i] != Opened
    ensures RunAsWritten(StepAsWritten(p, RefreshClicked), es).loading
    ensures Shown(RunAsWritten(StepAsWritten(p, RefreshClicked), es)) == []
    decreases |es|
  {
    StillLoading(StepAsWritten(p, RefreshClicked), es);
  }

  lemma {:induction false} StillLoading(p: Panel, es: seq<Event>)
    requires p.pending == 0 && p.loading
    requires forall i :: 0 <= i < |es| ==> es[i] != Opened
    ensures RunAsWritten(p, es).loading
    decreases |es|
  {
    if es != [] {
      StillLoading(StepAsWritten(p, es[0]), es[1..]);
    }
  }

  /** The drawer with Refresh reloading the logs, as the button evidently
      means: it starts loading and schedules the timer, like opening does. */
  function Step(p: Panel, e: Event): (q: Panel)
    ensures e == RefreshClicked ==> q == p.(loading := true, pending := p.pending + 1)
    ensures e.TimerFired? && p.pending > 0 ==> !q.loading && q.logs == SampleLogs(e.now)
    ensures e.FilterChanged? ==> q == p.(filterLevel := e.level)
  {
    match e
    case Opened => p.(loading := true, pending := p.pending + 1)
    case TimerFired(now) =>
      if p.pending == 0 then p else Panel(SampleLogs(now), false, p.filterLevel, p.pending - 1)
    case RefreshClicked => p.(loading := true, pending := p.pending + 1)
    case FilterChanged(f) => p.(filterLevel := f)
  }

  /** With the reloading Refresh, the timer it schedules brings fresh logs back
      under the current filter. */
  lemma RefreshFinishes(p: Panel, now: int)
    ensures var q := Step(Step(p, RefreshClicked), TimerFired(now));
            !q.loading && q.logs == SampleLogs(now) && Shown(q) == FilteredLogs(SampleLogs(now), p.filterLevel)
  {
  }

  /** The drawer's state held by the component. */
  class LogsPanel {
    var logs: seq<LogEntry>
    var loading: bool
    var filterLevel: string
    var pending: nat

    function View(): Panel
      reads this
    {
      Panel(logs, loading, filterLevel, pending)
    }

    constructor ()
      ensures View() == Closed
    {
      logs, loading, filterLevel, pending := [], false, "all", 0;
    }

    method Open()
      modifies this
      ensures View() == Step(old(View()), Opened)
    {
      loading := true;
      pending := pending + 1;
    }

    method FireTimer(now: int)
      modifies this
      ensures View() == Step(old(View()), TimerFired(now))
    {
      if pending == 0 {
        return;
      }
      logs := SampleLogs(now);
      loading := false;
      pending := pending - 1;
    }

    method Refresh()
      modifies this
      ensures View() == Step(old(View()), RefreshClicked)
    {
      loading := true;
      pending := pending + 1;
    }

    method SetFilter(f: string)
      modifies this
      ensures View() == Step(old(View()), FilterChanged(f))
    {
      filterLevel := f;
    }
  }
}
