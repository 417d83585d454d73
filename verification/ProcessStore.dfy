/** The process event log: dispatch, exit and closure rows, the replay validator, and the count
    of processes whose exit has not been observed. */
module ProcessStore {
  import opened Common

  datatype Binding = Binding(project: Option<string>, writerKey: string, taskId: string, runId: string, attempt: nat)

  /** What a dispatch fixes and its exit must repeat. */
  datatype Start = Start(binding: Binding, operation: string, session: string, profile: string, handle: string)

  /** Hashes are injective, so a record's hash is modelled by the record itself. */
  datatype ExitFacts = ExitFacts(start: Start, intentSeq: nat, intentHash: Start,
                                 exitCode: int, reason: string, outputBytes: nat, truncated: bool)
  datatype Link = Link(intentSeq: nat, intentHash: Start, exitSeq: nat, exitHash: ExitFacts)
  datatype Payload = Dispatch(start: Start) | Exit(facts: ExitFacts) | Ack(to: Binding, links: seq<Link>) | OtherKind

  /** A row of the event table; its sequence number is its position. */
  datatype Event = Event(taskId: string, runId: string, payload: Payload)
  type Log = seq<Event>

  const MAX_DISPATCHES := 64
  const MAX_RUN_ROWS := 132

  function BindingIn(p: Payload): Option<Binding> {
    match p
    case Dispatch(start) => Some(start.binding)
    case Exit(facts) => Some(facts.start.binding)
    case Ack(to, _) => Some(to)
    case OtherKind => None
  }

  /** The rows the query for one run returns: by column or by the binding inside the payload. */
  predicate Selected(e: Event, run: string) {
    BindingIn(e.payload).Some? && (e.runId == run || BindingIn(e.payload).value.runId == run)
  }

  /** The columns agree with the payload. */
  predicate Recorded(e: Event) {
    var b := BindingIn(e.payload);
    b.Some? && e.runId == b.value.runId && e.taskId == b.value.taskId
  }

  predicate DispatchAt(log: Log, i: nat, run: string) {
    i < |log| && Selected(log[i], run) && log[i].payload.Dispatch?
  }

  predicate ExitAt(log: Log, i: nat, run: string) {
    i < |log| && Selected(log[i], run) && log[i].payload.Exit?
  }

  predicate AckAt(log: Log, i: nat, run: string) {
    i < |log| && Selected(log[i], run) && log[i].payload.Ack?
  }

  function Dispatches(log: Log, n: nat, run: string): set<nat> {
    set i: nat | i < n && DispatchAt(log, i, run)
  }

  function Exits(log: Log, n: nat, run: string): set<nat> {
    set i: nat | i < n && ExitAt(log, i, run)
  }

  function Acks(log: Log, n: nat, run: string): set<nat> {
    set i: nat | i < n && AckAt(log, i, run)
  }

  function Rows(log: Log, n: nat, run: string): set<nat> {
    set i: nat | i < n && i < |log| && Selected(log[i], run)
  }

  /** Row `j` is the exit of the dispatch in row `k`. */
  predicate Ends(log: Log, j: nat, k: nat, run: string) {
    ExitAt(log, j, run) && log[j].payload.facts.intentSeq == k
  }

  predicate Ended(log: Log, n: nat, k: nat, run: string) {
    exists j: nat :: j < n && Ends(log, j, k, run)
  }

  // ---------------------------------------------------------------- what a valid row is

  predicate FreshStart(log: Log, i: nat, run: string, start: Start) {
    forall j: nat :: j < i && DispatchAt(log, j, run) ==>
      log[j].payload.start.operation != start.operation && log[j].payload.start.handle != start.handle
  }

  predicate LinkOk(log: Log, i: nat, run: string, link: Link) {
    && link.intentSeq < i && DispatchAt(log, link.intentSeq, run)
    && link.intentHash == log[link.intentSeq].payload.start
    && link.exitSeq < i && Ends(log, link.exitSeq, link.intentSeq, run)
    && link.exitHash == log[link.exitSeq].payload.facts
  }

  predicate LinksOk(log: Log, i: nat, run: string, links: seq<Link>) {
    && (forall k :: 0 <= k < |links| ==> LinkOk(log, i, run, links[k]))
    && (forall j, k :: 0 <= j < k < |links| ==> links[j].intentSeq != links[k].intentSeq)
  }

  /** Row `i` follows from the rows before it. */
  predicate RowOk(log: Log, i: nat, run: string, b: Binding)
    requires i < |log|
  {
    && Recorded(log[i]) && BindingIn(log[i].payload) == Some(b)
    && match log[i].payload
       case Dispatch(start) =>
         FreshStart(log, i, run, start) && |Dispatches(log, i, run)| < MAX_DISPATCHES
       case Exit(facts) =>
         && facts.intentSeq < i && DispatchAt(log, facts.intentSeq, run)
         && facts.start == log[facts.intentSeq].payload.start && facts.intentHash == facts.start
         && !Ended(log, i, facts.intentSeq, run)
       case Ack(_, links) =>
         1 <= |links| <= MAX_DISPATCHES && LinksOk(log, i, run, links)
  }

  predicate RowsOk(log: Log, n: nat, run: string, b: Binding) {
    n <= |log| && forall i: nat :: i < n && Selected(log[i], run) ==> RowOk(log, i, run, b)
  }

  /** The whole chain of one run against the binding the caller expects and the ledger has. */
  predicate ValidChain(log: Log, run: string, expected: Binding, actual: Option<Binding>) {
    || Rows(log, |log|, run) == {}
    || (|Rows(log, |log|, run)| <= MAX_RUN_ROWS && actual == Some(expected) && RowsOk(log, |log|, run, expected))
  }

  /** What acceptance means for one row that names the run anywhere, read off the row itself: it is filed under the
      run and task of the one binding that the caller and the ledger agree on, and an exit or a link repeats what the
      rows it points to recorded. */
  lemma AcceptedRow(log: Log, run: string, expected: Binding, actual: Option<Binding>, i: nat)
    requires ValidChain(log, run, expected, actual) && i < |log| && BindingIn(log[i].payload).Some?
    requires log[i].runId == run || BindingIn(log[i].payload).value.runId == run
    ensures BindingIn(log[i].payload) == Some(expected) == actual
    ensures log[i].runId == run == expected.runId && log[i].taskId == expected.taskId
    ensures log[i].payload.Exit? ==>
              var facts := log[i].payload.facts;
              && facts.intentSeq < i && log[facts.intentSeq].payload == Dispatch(facts.start)
              && log[facts.intentSeq].runId == run && facts.intentHash == facts.start && facts.start.binding == expected
    ensures log[i].payload.Ack? ==>
              && 1 <= |log[i].payload.links| <= 64
              && forall k :: 0 <= k < |log[i].payload.links| ==>
                   var link := log[i].payload.links[k];
                   && link.intentSeq < i && log[link.intentSeq].payload == Dispatch(link.intentHash)
                   && link.exitSeq < i && log[link.exitSeq].payload == Exit(link.exitHash)
                   && link.exitHash.intentSeq == link.intentSeq
                   && log[link.intentSeq].runId == log[link.exitSeq].runId == run
                   && forall j :: 0 <= j < k ==> log[i].payload.links[j].intentSeq != link.intentSeq
    ensures log[i].payload.Dispatch? ==>
              forall j: nat :: j < i && log[j].runId == run && log[j].payload.Dispatch? ==>
                && log[j].payload.start.operation != log[i].payload.start.operation
                && log[j].payload.start.handle != log[i].payload.start.handle
  {
    assert i in Rows(log, |log|, run);
    assert RowOk(log, i, run, expected);
    forall j: nat | j < i && Selected(log[j], run)
      ensures RowOk(log, j, run, expected)
    {
    }
  }

  // ---------------------------------------------------------------- counting

  lemma DispatchesStep(log: Log, n: nat, run: string)
    requires n < |log|
    ensures Dispatches(log, n + 1, run)
            == if DispatchAt(log, n, run) then Dispatches(log, n, run) + {n} else Dispatches(log, n, run)
    ensures Exits(log, n + 1, run) == if ExitAt(log, n, run) then Exits(log, n, run) + {n} else Exits(log, n, run)
    ensures Acks(log, n + 1, run) == if AckAt(log, n, run) then Acks(log, n, run) + {n} else Acks(log, n, run)
    ensures Rows(log, n + 1, run) == if Selected(log[n], run) then Rows(log, n, run) + {n} else Rows(log, n, run)
  {
  }

  function EndedStarts(log: Log, n: nat, run: string): set<nat> {
    set k: nat | k < n && Ended(log, n, k, run)
  }

  /** Of any valid chain: every exit ends its own dispatch, and rows are dispatches, exits and
      closures. */
  lemma {:induction false} Census(log: Log, n: nat, run: string, b: Binding)
    requires RowsOk(log, n, run, b)
    ensures |Exits(log, n, run)| == |EndedStarts(log, n, run)| <= |Dispatches(log, n, run)| <= MAX_DISPATCHES
    ensures EndedStarts(log, n, run) <= Dispatches(log, n, run)
    ensures |Rows(log, n, run)| == |Dispatches(log, n, run)| + |Exits(log, n, run)| + |Acks(log, n, run)|
  {
    if n == 0 {
      assert EndedStarts(log, 0, run) == {};
    } else {
      Census(log, n - 1, run, b);
      DispatchesStep(log, n - 1, run);
      EndedStep(log, n - 1, run, b);
      hide RowOk, Ended, EndedStarts;
      SubsetSize(EndedStarts(log, n, run), Dispatches(log, n, run));
    }
  }

  lemma EndedStep(log: Log, n: nat, run: string, b: Binding)
    requires RowsOk(log, n + 1, run, b)
    ensures EndedStarts(log, n + 1, run) ==
              if ExitAt(log, n, run) then EndedStarts(log, n, run) + {log[n].payload.facts.intentSeq}
              else EndedStarts(log, n, run)
    ensures ExitAt(log, n, run) ==> log[n].payload.facts.intentSeq !in EndedStarts(log, n, run)
    ensures ExitAt(log, n, run) ==> log[n].payload.facts.intentSeq in Dispatches(log, n, run)
    ensures Selected(log[n], run) ==> DispatchAt(log, n, run) || ExitAt(log, n, run) || AckAt(log, n, run)
    ensures DispatchAt(log, n, run) ==> |Dispatches(log, n, run)| < MAX_DISPATCHES
  {
    assert Selected(log[n], run) ==> RowOk(log, n, run, b);
    forall k: nat | k < n + 1
      ensures Ended(log, n + 1, k, run) <==> Ended(log, n, k, run) || Ends(log, n, k, run)
      ensures Ended(log, n, k, run) ==> k < n
    {
      if Ended(log, n, k, run) {
        var j: nat :| j < n && Ends(log, j, k, run);
        assert RowOk(log, j, run, b);
      }
    }
  }

  // ---------------------------------------------------------------- the replay validator

  /** The validator's local tables. */
  datatype Tables = Tables(intents: seq<nat>, terminals: map<nat, nat>, operations: set<string>, handles: set<string>)

  function Operations(log: Log, n: nat, run: string): set<string> {
    set i: nat | i < n && DispatchAt(log, i, run) :: log[i].payload.start.operation
  }

  function Handles(log: Log, n: nat, run: string): set<string> {
    set i: nat | i < n && DispatchAt(log, i, run) :: log[i].payload.start.handle
  }

  predicate Rising(rows: seq<nat>) {
    forall j, k :: 0 <= j < k < |rows| ==> rows[j] < rows[k]
  }

  ghost predicate IntentsMatch(log: Log, n: nat, run: string, intents: seq<nat>) {
    && (forall k: nat :: k in intents <==> k < n && DispatchAt(log, k, run))
    && |intents| == |Dispatches(log, n, run)| && Rising(intents)
  }

  ghost predicate TerminalsMatch(log: Log, n: nat, run: string, terminals: map<nat, nat>) {
    && (forall k :: k in terminals ==> terminals[k] < n && Ends(log, terminals[k], k, run))
    && (forall k: nat :: Ended(log, n, k, run) ==> k in terminals)
  }

  /** The tables after the first `n` rows. */
  ghost predicate Tracked(log: Log, n: nat, run: string, tables: Tables) {
    && n <= |log|
    && IntentsMatch(log, n, run, tables.intents) && TerminalsMatch(log, n, run, tables.terminals)
    && tables.operations == Operations(log, n, run) && tables.handles == Handles(log, n, run)
  }

  /** In a chain that is valid so far, a dispatch has at most one exit. */
  lemma OneExit(log: Log, n: nat, run: string, b: Binding, i: nat, j: nat, k: nat)
    requires RowsOk(log, n, run, b) && i < n && j < n && Ends(log, i, k, run) && Ends(log, j, k, run)
    ensures i == j
  {
  }

  /** `_link` of a dispatch and its exit. */
  function LinkOf(log: Log, intent: nat, terminal: nat, run: string): Link
    requires DispatchAt(log, intent, run) && ExitAt(log, terminal, run)
  {
    Link(intent, log[intent].payload.start, terminal, log[terminal].payload.facts)
  }

  /** The link a closure row may carry for a dispatch, according to the tables. */
  lemma LinkIsFound(log: Log, i: nat, run: string, b: Binding, link: Link, tables: Tables)
    requires i < |log| && RowsOk(log, i, run, b) && Tracked(log, i, run, tables)
    ensures link.intentSeq in tables.intents ==> DispatchAt(log, link.intentSeq, run)
    ensures link.intentSeq in tables.terminals ==> ExitAt(log, tables.terminals[link.intentSeq], run)
    ensures LinkOk(log, i, run, link) <==>
            link.intentSeq in tables.intents && link.intentSeq in tables.terminals
            && link == LinkOf(log, link.intentSeq, tables.terminals[link.intentSeq], run)
  {
  }

  method CheckLinks(log: Log, i: nat, run: string, b: Binding, links: seq<Link>, tables: Tables) returns (ok: bool)
    requires i < |log| && RowsOk(log, i, run, b) && Tracked(log, i, run, tables)
    ensures ok <==> LinksOk(log, i, run, links)
  {
    hide RowsOk, Tracked, LinkOk, DispatchAt, ExitAt;
    var seen: set<nat> := {};
    for n := 0 to |links|
      invariant forall k :: 0 <= k < n ==> LinkOk(log, i, run, links[k])
      invariant forall j, k :: 0 <= j < k < n ==> links[j].intentSeq != links[k].intentSeq
      invariant forall k :: 0 <= k < n ==> links[k].intentSeq in seen
      invariant forall q :: q in seen ==> exists k :: 0 <= k < n && links[k].intentSeq == q
    {
      var link := links[n];
      LinkIsFound(log, i, run, b, link, tables);
      if link.intentSeq !in tables.intents || link.intentSeq !in tables.terminals || link.intentSeq in seen {
        return false;
      }
      if link != LinkOf(log, link.intentSeq, tables.terminals[link.intentSeq], run) { return false; }
      seen := seen + {link.intentSeq};
    }
    ok := true;
  }

  lemma StartIsFresh(log: Log, i: nat, run: string, start: Start)
    ensures FreshStart(log, i, run, start) <==>
            start.operation !in Operations(log, i, run) && start.handle !in Handles(log, i, run)
  {
  }

  /** One row against the tables. */
  method CheckRow(log: Log, i: nat, run: string, b: Binding, tables: Tables) returns (ok: bool)
    requires i < |log| && Selected(log[i], run)
    requires RowsOk(log, i, run, b) && Tracked(log, i, run, tables)
    ensures ok <==> RowOk(log, i, run, b)
  {
    hide RowsOk, FreshStart, LinkOk, LinksOk, Operations, Handles, Dispatches, Ended;
    if !Recorded(log[i]) || BindingIn(log[i].payload) != Some(b) { return false; }
    match log[i].payload
    case Dispatch(start) =>
      StartIsFresh(log, i, run, start);
      ok := start.operation !in tables.operations && start.handle !in tables.handles
            && |tables.intents| < MAX_DISPATCHES;
    case Exit(facts) =>
      TerminalsAreEnded(log, i, run, facts.intentSeq, tables);
      ok := facts.intentSeq in tables.intents && facts.intentSeq !in tables.terminals
            && facts.intentHash == log[facts.intentSeq].payload.start
            && facts.start == log[facts.intentSeq].payload.start;
    case Ack(_, links) =>
      ok := CheckLinks(log, i, run, b, links, tables);
      ok := ok && 1 <= |links| <= MAX_DISPATCHES;
    case OtherKind =>
      assert false;
  }

  lemma TerminalsAreEnded(log: Log, i: nat, run: string, k: nat, tables: Tables)
    requires i <= |log| && Tracked(log, i, run, tables)
    ensures k in tables.terminals <==> Ended(log, i, k, run)
    ensures k in tables.intents <==> k < i && DispatchAt(log, k, run)
  {
  }

  /** `_chains`: the intents of one run in order and the exit of each ended one, or a refusal. */
  method Chains(log: Log, run: string, expected: Binding, actual: Option<Binding>)
    returns (ok: bool, intents: seq<nat>, terminals: map<nat, nat>)
    ensures ok <==> ValidChain(log, run, expected, actual)
    ensures ok ==>
              |intents| == |Dispatches(log, |log|, run)| && |terminals| == |Exits(log, |log|, run)| && Rising(intents)
    ensures ok ==> forall k: nat :: k in intents <==> k < |log| && DispatchAt(log, k, run)
    ensures ok ==> forall k: nat :: k in terminals <==> Ended(log, |log|, k, run)
    ensures ok ==> forall k :: k in terminals ==> Ends(log, terminals[k], k, run)
    ensures ok ==> forall k: nat, j: nat :: Ends(log, j, k, run) ==> k in terminals && terminals[k] == j
  {
    hide RowOk, RowsOk, Tracked, Rows, Dispatches, Exits, Ended, Ends, DispatchAt, ExitAt;
    intents, terminals := [], map[];
    var rows := CountRows(log, run);
    if rows > MAX_RUN_ROWS { return false, [], map[]; }
    if rows == 0 {
      NoRowsNoChain(log, run);
      return true, [], map[];
    }
    if actual != Some(expected) { return false, [], map[]; }
    var tables := Tables([], map[], {}, {});
    NothingTracked(log, run, expected);
    for i := 0 to |log|
      invariant RowsOk(log, i, run, expected) && Tracked(log, i, run, tables)
    {
      if !Selected(log[i], run) {
        SkipRow(log, i, run, expected, tables);
        continue;
      }
      var good := CheckRow(log, i, run, expected, tables);
      if !good {
        BadRow(log, i, run, expected);
        return false, [], map[];
      }
      TrackRow(log, i, run, expected, tables);
      tables := Entered(log, i, tables);
    }
    ok, intents, terminals := true, tables.intents, tables.terminals;
    TrackEnd(log, run, expected, tables);
  }

  /** The tables after a good row. */
  function Entered(log: Log, i: nat, tables: Tables): Tables
    requires i < |log|
  {
    match log[i].payload
    case Dispatch(start) =>
      tables.(intents := tables.intents + [i], operations := tables.operations + {start.operation},
              handles := tables.handles + {start.handle})
    case Exit(facts) => tables.(terminals := tables.terminals[facts.intentSeq := i])
    case _ => tables
  }

  method CountRows(log: Log, run: string) returns (rows: nat)
    ensures rows == |Rows(log, |log|, run)|
  {
    rows := 0;
    assert Rows(log, 0, run) == {};
    for i := 0 to |log|
      invariant rows == |Rows(log, i, run)|
    {
      DispatchesStep(log, i, run);
      if Selected(log[i], run) { rows := rows + 1; }
    }
  }

  lemma NoRowsNoChain(log: Log, run: string)
    requires |Rows(log, |log|, run)| == 0
    ensures Rows(log, |log|, run) == {} && Dispatches(log, |log|, run) == {} && Exits(log, |log|, run) == {}
    ensures forall k: nat :: !DispatchAt(log, k, run) && !Ended(log, |log|, k, run)
    ensures forall k: nat, j: nat :: !Ends(log, j, k, run)
  {
    forall k: nat | k < |log|
      ensures !Selected(log[k], run)
    {
      assert k !in Rows(log, |log|, run);
    }
  }

  lemma NothingTracked(log: Log, run: string, b: Binding)
    ensures Tracked(log, 0, run, Tables([], map[], {}, {})) && RowsOk(log, 0, run, b)
  {
    assert Dispatches(log, 0, run) == {};
  }

  lemma BadRow(log: Log, i: nat, run: string, b: Binding)
    requires i < |log| && Selected(log[i], run) && !RowOk(log, i, run, b)
    ensures !RowsOk(log, |log|, run, b) && Rows(log, |log|, run) != {}
  {
    assert i in Rows(log, |log|, run);
  }

  lemma NamesStep(log: Log, i: nat, run: string)
    requires i < |log|
    ensures Operations(log, i + 1, run) ==
            if DispatchAt(log, i, run) then Operations(log, i, run) + {log[i].payload.start.operation}
            else Operations(log, i, run)
    ensures Handles(log, i + 1, run) ==
            if DispatchAt(log, i, run) then Handles(log, i, run) + {log[i].payload.start.handle}
            else Handles(log, i, run)
  {
  }

  lemma SkipRow(log: Log, i: nat, run: string, b: Binding, tables: Tables)
    requires i < |log| && !Selected(log[i], run) && RowsOk(log, i, run, b) && Tracked(log, i, run, tables)
    ensures RowsOk(log, i + 1, run, b) && Tracked(log, i + 1, run, tables)
  {
    hide RowOk;
    DispatchesStep(log, i, run);
    NamesStep(log, i, run);
    EndsStep(log, i, run);
    hide Operations, Handles, Dispatches, Ended;
  }

  lemma EndsStep(log: Log, i: nat, run: string)
    ensures forall k: nat :: Ended(log, i + 1, k, run) <==> Ended(log, i, k, run) || Ends(log, i, k, run)
  {
  }

  lemma IntentsStep(log: Log, i: nat, run: string, intents: seq<nat>)
    requires i < |log| && IntentsMatch(log, i, run, intents)
    ensures IntentsMatch(log, i + 1, run, if DispatchAt(log, i, run) then intents + [i] else intents)
  {
    DispatchesStep(log, i, run);
    hide Dispatches, Exits, Acks, Rows, Selected;
    assert forall j :: 0 <= j < |intents| ==> intents[j] in intents;
  }

  lemma TerminalsStep(log: Log, i: nat, run: string, terminals: map<nat, nat>)
    requires i < |log| && TerminalsMatch(log, i, run, terminals)
    requires ExitAt(log, i, run) ==> !Ended(log, i, log[i].payload.facts.intentSeq, run)
    ensures TerminalsMatch(log, i + 1, run,
                           if ExitAt(log, i, run) then terminals[log[i].payload.facts.intentSeq := i] else terminals)
  {
  }

  lemma TrackRow(log: Log, i: nat, run: string, b: Binding, tables: Tables)
    requires i < |log| && Selected(log[i], run) && RowOk(log, i, run, b)
    requires RowsOk(log, i, run, b) && Tracked(log, i, run, tables)
    ensures RowsOk(log, i + 1, run, b) && Tracked(log, i + 1, run, Entered(log, i, tables))
  {
    hide Operations, Handles, IntentsMatch, TerminalsMatch, Ended, LinksOk, FreshStart;
    NamesStep(log, i, run);
    IntentsStep(log, i, run, tables.intents);
    TerminalsStep(log, i, run, tables.terminals);
  }

  lemma TrackEnd(log: Log, run: string, b: Binding, tables: Tables)
    requires RowsOk(log, |log|, run, b) && Tracked(log, |log|, run, tables)
    ensures |tables.terminals| == |Exits(log, |log|, run)| && |tables.intents| == |Dispatches(log, |log|, run)|
    ensures Rising(tables.intents)
    ensures forall k: nat :: k in tables.intents <==> k < |log| && DispatchAt(log, k, run)
    ensures forall k: nat :: k in tables.terminals <==> Ended(log, |log|, k, run)
    ensures forall k :: k in tables.terminals ==> Ends(log, tables.terminals[k], k, run)
    ensures forall k: nat, j: nat :: Ends(log, j, k, run) ==> k in tables.terminals && tables.terminals[k] == j
  {
    Census(log, |log|, run, b);
    hide Operations, Handles, Dispatches, Exits;
    forall k: nat
      ensures k in tables.terminals <==> Ended(log, |log|, k, run)
      ensures Ended(log, |log|, k, run) ==> k < |log|
    {
      TerminalsAreEnded(log, |log|, run, k, tables);
      if Ended(log, |log|, k, run) {
        var j: nat :| j < |log| && Ends(log, j, k, run);
        assert RowOk(log, j, run, b);
      }
    }
    assert tables.terminals.Keys == EndedStarts(log, |log|, run);
    forall k: nat, j: nat | Ends(log, j, k, run)
      ensures k in tables.terminals && tables.terminals[k] == j
    {
      assert Ended(log, |log|, k, run);
      OneExit(log, |log|, run, b, j, tables.terminals[k], k);
    }
  }
}
