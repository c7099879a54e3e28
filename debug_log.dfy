/**
 * The rendering side of the debug overlay (packages/shared/js/debug-panel.js):
 * the panel in the document, its list of log entries (newest first, at most
 * MAX_EVENTS), `createPanel` and `logEvent`.
 *
 * The DOM is reduced to three facts: whether the document has a body, whether
 * an element with the panel's id is in the document, and the entries of that
 * panel's list. Markup, styles and the toggle button are not modelled.
 */
module DebugLog {
  import opened Wrappers
  import opened Json

  const MAX_EVENTS: nat := 50
  const PANEL_ID := "mf-debug-panel"

  /** The CSS class of an entry: `direction === 'in' ? 'in' : 'out'`. */
  datatype Direction = In | Out

  /**
   * One rendered entry. `payload` is None when the caller passed `undefined`
   * (the wrapped `emit` called without a payload); `time` stands for the clock
   * reading that `toLocaleTimeString` renders.
   */
  datatype LogEntry = LogEntry(direction: Direction, eventType: string, payload: Option<Json>, source: string, time: int)

  /** What the overlay's DOM looks like, as a value. */
  datatype PanelState = PanelState(bodyPresent: bool, attached: bool, entries: seq<LogEntry>)

  /** The class of the entry's element. */
  function DirectionOf(direction: string): Direction {
    if direction == "in" then In else Out
  }

  /** The source shown in an entry: `source || 'unknown'`. */
  function DisplaySource(source: string): string {
    if source == "" then "unknown" else source
  }

  /** The entry `logEvent(listEl, direction, eventType, payload, source)` renders at clock reading `time`. */
  function Entry(direction: string, eventType: string, payload: Option<Json>, source: string, time: int): LogEntry {
    LogEntry(DirectionOf(direction), eventType, payload, DisplaySource(source), time)
  }

  /** The list left after the trimming loop: the first MAX_EVENTS entries. */
  function Bounded(s: seq<LogEntry>): seq<LogEntry> {
    if |s| <= MAX_EVENTS then s else s[..MAX_EVENTS]
  }

  /** The list after `listEl.prepend(item)` and the trimming loop. */
  function Record(list: seq<LogEntry>, e: LogEntry): seq<LogEntry> {
    Bounded([e] + list)
  }

  /**
   * The overlay after one `logEvent` of `e` (createPanel first when no panel
   * is in the document): `e` heads the list, followed by the newest entries
   * of the old list when the panel was attached, and by nothing when it had to
   * be re-created; the list never exceeds MAX_EVENTS.
   */
  function AfterLog(st: PanelState, e: LogEntry): (st': PanelState)
    ensures st'.bodyPresent == st.bodyPresent
    ensures st'.attached == (st.attached || st.bodyPresent)
    ensures 1 <= |st'.entries| <= MAX_EVENTS && st'.entries[0] == e
    ensures st.attached ==> st'.entries[1..] == st.entries[..if |st.entries| < MAX_EVENTS then |st.entries| else MAX_EVENTS - 1]
    ensures !st.attached ==> st'.entries == [e]
  {
    var base := if st.attached then st.entries else [];
    PanelState(st.bodyPresent, st.attached || st.bodyPresent, Record(base, e))
  }

  /** The overlay after logging `es` in order. */
  function AfterLogs(st: PanelState, es: seq<LogEntry>): PanelState
    decreases |es|
  {
    if es == [] then st else AfterLogs(AfterLog(st, es[0]), es[1..])
  }

  /** Logging one more entry after a batch extends the batch. */
  lemma {:induction false} AfterLogsSnoc(st: PanelState, es: seq<LogEntry>, e: LogEntry)
    ensures AfterLogs(st, es + [e]) == AfterLog(AfterLogs(st, es), e)
    decreases |es|
  {
    if es == [] {
      assert [e][1..] == [];
    } else {
      assert (es + [e])[1..] == es[1..] + [e];
      AfterLogsSnoc(AfterLog(st, es[0]), es[1..], e);
    }
  }

  function Reverse(s: seq<LogEntry>): seq<LogEntry> {
    if s == [] then [] else Reverse(s[1..]) + [s[0]]
  }

  /** The list never holds more than MAX_EVENTS entries after a log. */
  lemma RecordBounded(list: seq<LogEntry>, e: LogEntry)
    ensures |Record(list, e)| <= MAX_EVENTS
    ensures |Record(list, e)| == if |list| < MAX_EVENTS then |list| + 1 else MAX_EVENTS
  {
  }

  /**
   * The new entry is first; every survivor keeps its relative order, and what
   * is dropped is the tail of the old list, i.e. the oldest entries.
   */
  lemma RecordEvictsOldest(list: seq<LogEntry>, e: LogEntry)
    ensures Record(list, e)[0] == e
    ensures Record(list, e)[1..] == list[..if |list| < MAX_EVENTS then |list| else MAX_EVENTS - 1]
  {
  }

  /**
   * Continued traffic into an attached panel: after logging `es` in order the
   * list is the newest MAX_EVENTS of (the new entries, newest first) followed
   * by the old list; the oldest entries are the ones evicted.
   */
  lemma {:induction false} AfterLogsNewestFirst(st: PanelState, es: seq<LogEntry>)
    requires st.attached && |st.entries| <= MAX_EVENTS
    ensures AfterLogs(st, es) == PanelState(st.bodyPresent, true, Bounded(Reverse(es) + st.entries))
    decreases |es|
  {
    if es != [] {
      var st1 := AfterLog(st, es[0]);
      assert st1 == PanelState(st.bodyPresent, true, Bounded([es[0]] + st.entries));
      AfterLogsNewestFirst(st1, es[1..]);
      NewestFirstStep(es, st.entries);
    }
  }

  /** The list part of one step of AfterLogsNewestFirst. */
  lemma NewestFirstStep(es: seq<LogEntry>, was: seq<LogEntry>)
    requires es != []
    ensures Bounded(Reverse(es[1..]) + Bounded([es[0]] + was)) == Bounded(Reverse(es) + was)
  {
    var r, e := Reverse(es[1..]), es[0];
    var tail := [e] + was;
    assert Reverse(es) == r + [e];
    var joined := r + tail;
    assert joined == Reverse(es) + was by {
      assert |joined| == |Reverse(es) + was|;
      forall k | 0 <= k < |joined| ensures joined[k] == (Reverse(es) + was)[k] {
        if k < |r| { } else if k == |r| { } else { assert joined[k] == was[k - |r| - 1]; }
      }
    }
    BoundedAppend(r, tail);
  }

  /** Trimming a list before putting entries in front of it changes nothing: trimming once at the end suffices. */
  lemma {:induction false} BoundedAppend(p: seq<LogEntry>, s: seq<LogEntry>)
    ensures Bounded(p + Bounded(s)) == Bounded(p + s)
  {
    if |s| > MAX_EVENTS {
      var q := p + s[..MAX_EVENTS];
      var r := p + s;
      assert |q| >= MAX_EVENTS;
      assert q[..MAX_EVENTS] == r[..MAX_EVENTS] by {
        forall k | 0 <= k < MAX_EVENTS ensures q[k] == r[k] {
          if k < |p| { } else { assert q[k] == s[k - |p|]; }
        }
      }
    }
  }

  /**
   * The overlay's document. A list element held from an earlier `createPanel`
   * that is no longer connected is never written to in a way anyone can see,
   * so the model keeps only the list of the panel in the document.
   */
  class Overlay {
    var bodyPresent: bool
    var attached: bool
    var entries: seq<LogEntry>

    /** A document with or without a body, and no panel yet. */
    constructor(bodyPresent: bool)
      ensures this.bodyPresent == bodyPresent && !attached && entries == []
    {
      this.bodyPresent := bodyPresent;
      attached := false;
      entries := [];
    }

    function Snapshot(): PanelState
      reads this
    {
      PanelState(bodyPresent, attached, entries)
    }

    /** Some script replaces the document's body; the panel is gone with it. */
    method ReplaceBody()
      modifies this
      ensures bodyPresent && !attached && entries == old(entries)
    {
      bodyPresent := true;
      attached := false;
    }

    /**
     * `createPanel()`: an existing panel is reused as it is; otherwise a new,
     * empty one is made and appended to the body if there is one.
     */
    method CreatePanel()
      modifies this
      ensures old(attached) ==> Snapshot() == old(Snapshot())
      ensures !old(attached) ==> Snapshot() == PanelState(bodyPresent, bodyPresent, [])
      ensures bodyPresent == old(bodyPresent)
    {
      if !attached {
        entries := [];
        attached := bodyPresent;
      }
    }

    /**
     * `logEvent(listEl, direction, eventType, payload, source)` at clock
     * reading `time`: prepend the new entry, then remove the last entry while
     * there are more than MAX_EVENTS.
     */
    method LogEvent(direction: string, eventType: string, payload: Option<Json>, source: string, time: int)
      modifies this
      ensures Snapshot() == AfterLog(old(Snapshot()), Entry(direction, eventType, payload, source, time))
      ensures |entries| <= MAX_EVENTS
    {
      if !attached {
        CreatePanel();
      }
      var item := Entry(direction, eventType, payload, source, time);
      entries := [item] + entries;  // listEl.prepend(item)
      ghost var full := entries;
      assert full == [item] + (if old(attached) then old(entries) else []);
      while |entries| > MAX_EVENTS
        invariant |entries| <= |full|
        invariant entries == full[..|entries|]
        invariant |full| <= MAX_EVENTS ==> entries == full
        invariant |full| > MAX_EVENTS ==> |entries| >= MAX_EVENTS
        invariant bodyPresent == old(bodyPresent) && attached == (old(attached) || old(bodyPresent))
        decreases |entries|
      {
        entries := entries[..|entries| - 1];  // listEl.removeChild(listEl.lastChild)
      }
      assert entries == Bounded(full);
    }
  }
}
