/** One owner's children and its cache of replies.  Every child holds two reserved places in the
    cache, one for the first terminate and one for the first reply that reports its exit. */
module ProcessOperations {
  import opened Common
  import opened Base64
  import opened OutputEnvelope

  const MAX_CACHE := 64

  datatype Kind = StartKind | PollKind | TerminateKind
  datatype Request = Request(id: string, kind: Kind, target: string, limit: nat)
  datatype Outcome = Succeeded(shot: Shot, count: nat) | Refused(code: string) | Unknown(code: string)
  datatype Entry = Entry(request: Request, cursor: nat, outcome: Outcome)

  /** `stream` is everything the process wrote so far, `output` what is retained of it. */
  datatype Child = Child(
    stream: seq<Byte>, output: seq<Byte>, limit: nat,
    exitCode: int, reason: Option<string>, stopReason: Option<string>,
    settled: bool, unknown: bool, recorded: bool, attempted: bool,
    terminateReserved: bool, terminalReserved: bool)

  /** Whether the runtime lock was free and the session still has its authority. */
  datatype Gate = Open | BusyLock | NotLive

  type Outcomes = map<string, Entry>
  type Children = map<string, Child>

  function Smaller(a: nat, b: nat): nat {
    if a < b then a else b
  }

  /** Retained output is always the beginning of what the process wrote, up to its limit. */
  predicate ChildOk(c: Child) {
    && c.limit <= MAX_OUTPUT && |c.stream| <= MAX_TOTAL
    && c.output == c.stream[..Smaller(|c.stream|, c.limit)]
    && MIN_EXIT <= c.exitCode < -MIN_EXIT
    && (c.reason.Some? ==> c.reason.value in REASONS) && (c.stopReason.Some? ==> c.stopReason.value in REASONS)
    && (c.recorded ==> c.settled && c.attempted)
  }

  /** What may happen to a child while nobody calls. */
  predicate Grew(before: Child, after: Child) {
    && before.stream <= after.stream && before.output <= after.output && after.limit == before.limit
    && (before.settled ==> after.settled && after.stream == before.stream && after.output == before.output
                           && after.exitCode == before.exitCode && after.reason == before.reason)
    && (before.unknown ==> after.unknown) && (before.recorded ==> after.recorded)
    && (before.attempted ==> after.attempted)
    && (before.stopReason.Some? ==> after.stopReason == before.stopReason)
    && (after.terminateReserved ==> before.terminateReserved) && (after.terminalReserved ==> before.terminalReserved)
  }

  // ---------------------------------------------------------------- places in the cache

  function TerminateSlots(children: Children): set<string> {
    set h | h in children && children[h].terminateReserved
  }

  function TerminalSlots(children: Children): set<string> {
    set h | h in children && children[h].terminalReserved
  }

  /** `_occupied`: cached replies and reserved places share one bound. */
  function Occupied(outcomes: Outcomes, children: Children): nat {
    |outcomes| + |TerminateSlots(children)| + |TerminalSlots(children)|
  }

  predicate TerminateDelivered(outcomes: Outcomes, h: string) {
    exists id :: id in outcomes && outcomes[id].request.kind == TerminateKind && outcomes[id].request.target == h
                 && outcomes[id].outcome.Succeeded?
  }

  predicate ExitDelivered(outcomes: Outcomes, h: string) {
    exists id :: id in outcomes && outcomes[id].request.kind == PollKind && outcomes[id].request.target == h
                 && outcomes[id].outcome.Succeeded? && outcomes[id].outcome.shot.exit.Some?
  }

  /** A place is given up only for a delivered reply of its kind. */
  predicate Spent(outcomes: Outcomes, children: Children) {
    && (forall h :: h in children && !children[h].terminateReserved ==> TerminateDelivered(outcomes, h))
    && (forall h :: h in children && !children[h].terminalReserved ==> ExitDelivered(outcomes, h))
  }

  predicate Justified(outcomes: Outcomes, h: string, child: Child) {
    && (child.terminateReserved || TerminateDelivered(outcomes, h))
    && (child.terminalReserved || ExitDelivered(outcomes, h))
  }

  predicate AllOk(children: Children) {
    forall h :: h in children ==> ChildOk(children[h])
  }

  predicate Sound(outcomes: Outcomes, children: Children) {
    Occupied(outcomes, children) <= MAX_CACHE && Spent(outcomes, children) && AllOk(children)
  }

  /** Cached replies are never changed or evicted, children never forgotten. */
  predicate Retained(outcomes: Outcomes, children: Children, outcomes': Outcomes, children': Children) {
    && (forall id :: id in outcomes ==> id in outcomes' && outcomes'[id] == outcomes[id])
    && (forall h :: h in children ==> h in children' && Grew(children[h], children'[h]))
  }

  lemma RetainedIsTransitive(o1: Outcomes, c1: Children, o2: Outcomes, c2: Children, o3: Outcomes, c3: Children)
    requires Retained(o1, c1, o2, c2) && Retained(o2, c2, o3, c3)
    ensures Retained(o1, c1, o3, c3)
  {
  }

  // ---------------------------------------------------------------- single changes

  lemma CachingAddsOne(outcomes: Outcomes, children: Children, id: string, entry: Entry)
    requires id !in outcomes && Spent(outcomes, children)
    ensures Occupied(outcomes[id := entry], children) == Occupied(outcomes, children) + 1
    ensures Spent(outcomes[id := entry], children)
    ensures forall h :: TerminateDelivered(outcomes, h) ==> TerminateDelivered(outcomes[id := entry], h)
    ensures forall h :: ExitDelivered(outcomes, h) ==> ExitDelivered(outcomes[id := entry], h)
  {
    var more := outcomes[id := entry];
    forall h | TerminateDelivered(outcomes, h)
      ensures TerminateDelivered(more, h)
    {
      var k :| k in outcomes && outcomes[k].request.kind == TerminateKind && outcomes[k].request.target == h
               && outcomes[k].outcome.Succeeded?;
      assert k in more && more[k] == outcomes[k];
    }
    forall h | ExitDelivered(outcomes, h)
      ensures ExitDelivered(more, h)
    {
      var k :| k in outcomes && outcomes[k].request.kind == PollKind && outcomes[k].request.target == h
               && outcomes[k].outcome.Succeeded? && outcomes[k].outcome.shot.exit.Some?;
      assert k in more && more[k] == outcomes[k];
    }
  }

  lemma SlotsAfter(children: Children, h: string, child: Child)
    ensures TerminateSlots(children[h := child])
         == if child.terminateReserved then TerminateSlots(children) + {h} else TerminateSlots(children) - {h}
    ensures TerminalSlots(children[h := child])
         == if child.terminalReserved then TerminalSlots(children) + {h} else TerminalSlots(children) - {h}
    ensures h in TerminateSlots(children) <==> h in children && children[h].terminateReserved
    ensures h in TerminalSlots(children) <==> h in children && children[h].terminalReserved
  {
  }

  lemma ReplacingOne(outcomes: Outcomes, children: Children, h: string, child: Child)
    requires h in children ==> Grew(children[h], child)
    ensures Retained(outcomes, children, outcomes, children[h := child])
    ensures AllOk(children) && ChildOk(child) ==> AllOk(children[h := child])
    ensures Spent(outcomes, children) && Justified(outcomes, h, child) ==> Spent(outcomes, children[h := child])
  {
  }

  /** A child whose reservations stay as they are. */
  lemma SameSlots(outcomes: Outcomes, children: Children, h: string, after: Child)
    requires h in children && Grew(children[h], after)
    requires after.terminateReserved == children[h].terminateReserved
    requires after.terminalReserved == children[h].terminalReserved
    ensures Occupied(outcomes, children[h := after]) == Occupied(outcomes, children)
    ensures Spent(outcomes, children) ==> Spent(outcomes, children[h := after])
    ensures AllOk(children) && ChildOk(after) ==> AllOk(children[h := after])
    ensures Retained(outcomes, children, outcomes, children[h := after])
  {
    hide TerminateSlots, TerminalSlots, TerminateDelivered, ExitDelivered, Grew, AllOk, Retained, ChildOk;
    SlotsAfter(children, h, after);
    ReplacingOne(outcomes, children, h, after);
  }

  /** A new child brings its two reserved places. */
  lemma NewChildTakesTwo(outcomes: Outcomes, children: Children, h: string, child: Child)
    requires h !in children && child.terminateReserved && child.terminalReserved
    ensures Occupied(outcomes, children[h := child]) == Occupied(outcomes, children) + 2
    ensures Spent(outcomes, children) ==> Spent(outcomes, children[h := child])
    ensures AllOk(children) && ChildOk(child) ==> AllOk(children[h := child])
    ensures Retained(outcomes, children, outcomes, children[h := child])
  {
    hide TerminateSlots, TerminalSlots, TerminateDelivered, ExitDelivered, Grew, AllOk, Retained, ChildOk, Spent;
    SlotsAfter(children, h, child);
    ReplacingOne(outcomes, children, h, child);
  }

  /** Giving up a place, if it is still held. */
  lemma GivingUpOne(outcomes: Outcomes, children: Children, h: string, terminate: bool)
    requires h in children && Spent(outcomes, children)
    requires if terminate then TerminateDelivered(outcomes, h) else ExitDelivered(outcomes, h)
    ensures var held := if terminate then children[h].terminateReserved else children[h].terminalReserved;
            Occupied(outcomes, children[h := Freed(children[h], terminate)])
            == Occupied(outcomes, children) - if held then 1 else 0
    ensures Spent(outcomes, children[h := Freed(children[h], terminate)])
    ensures AllOk(children) ==> AllOk(children[h := Freed(children[h], terminate)])
    ensures Retained(outcomes, children, outcomes, children[h := Freed(children[h], terminate)])
  {
    hide TerminateSlots, TerminalSlots, TerminateDelivered, ExitDelivered, Retained, Spent;
    SlotsAfter(children, h, Freed(children[h], terminate));
    assert terminate ==> TerminateDelivered(outcomes, h);
    SpentIsJustified(outcomes, children, h);
    ReplacingOne(outcomes, children, h, Freed(children[h], terminate));
    assert ChildOk(children[h]) ==> ChildOk(Freed(children[h], terminate));
    hide ChildOk;
  }

  lemma SpentIsJustified(outcomes: Outcomes, children: Children, h: string)
    requires h in children && Spent(outcomes, children)
    ensures Justified(outcomes, h, children[h])
  {
  }

  function Freed(c: Child, terminate: bool): Child {
    if terminate then c.(terminateReserved := false) else c.(terminalReserved := false)
  }

  // ---------------------------------------------------------------- the owner

  function NewChild(limit: nat): Child {
    Child([], [], limit, 0, None, None, false, false, false, false, true, true)
  }

  /** What a reply shows of a child. */
  function ShotOf(c: Child, handle: string, cursor: nat): Shot {
    Shot(handle, if c.settled && c.recorded then Some(c.exitCode) else None, c.reason, cursor, c.output, |c.stream|)
  }

  lemma ShotsArePlausible(c: Child, handle: string, cursor: nat)
    requires ChildOk(c) && cursor <= |c.output|
    ensures Plausible(ShotOf(c, handle, cursor))
  {
  }

  /** An exit is taken as recorded, and shown in a reply, only when the store confirmed its row. */
  predicate Confirmed(outcomes: Outcomes, children: Children, confirmed: set<string>) {
    && (forall h :: h in confirmed ==> h in children)
    && (forall h :: h in children ==> (children[h].recorded <==> h in confirmed))
    && (forall id :: id in outcomes ==> ConfirmedReply(outcomes[id].outcome, confirmed))
  }

  predicate ConfirmedReply(o: Outcome, confirmed: set<string>) {
    o.Succeeded? && o.shot.exit.Some? ==> o.shot.handle in confirmed
  }

  lemma ReplacingConfirms(outcomes: Outcomes, children: Children, confirmed: set<string>, h: string, child: Child)
    requires Confirmed(outcomes, children, confirmed) && h in children
    ensures child.recorded == children[h].recorded ==> Confirmed(outcomes, children[h := child], confirmed)
    ensures child.recorded ==> Confirmed(outcomes, children[h := child], confirmed + {h})
  {
  }

  lemma NewChildConfirms(outcomes: Outcomes, children: Children, confirmed: set<string>, h: string, child: Child)
    requires Confirmed(outcomes, children, confirmed) && h !in children && !child.recorded
    ensures Confirmed(outcomes, children[h := child], confirmed)
  {
  }

  lemma CachingConfirms(outcomes: Outcomes, children: Children, confirmed: set<string>, id: string, entry: Entry)
    requires Confirmed(outcomes, children, confirmed) && ConfirmedReply(entry.outcome, confirmed)
    ensures Confirmed(outcomes[id := entry], children, confirmed)
  {
  }

  lemma OnlyExitsNeedConfirming(confirmed: set<string>)
    ensures forall o: Outcome :: !o.Succeeded? ==> ConfirmedReply(o, confirmed)
  {
  }

  /** A reply shows an exit only of a child whose row is confirmed. */
  lemma ShownIsConfirmed(outcomes: Outcomes, children: Children, confirmed: set<string>, request: Request, cursor: nat,
                         o: Outcome)
    requires Confirmed(outcomes, children, confirmed) && request.target in children
    requires IsReply(o, request, cursor, children[request.target])
    ensures ConfirmedReply(o, confirmed)
  {
    hide Fits;
  }

  /** `confirmed` is history: the children whose exit row the store has confirmed. */
  class Owner {
    var outcomes: Outcomes
    var children: Children
    var confirmed: set<string>

    predicate Valid()
      reads this
    {
      Sound(outcomes, children) && Confirmed(outcomes, children, confirmed)
    }

    constructor ()
      ensures Valid() && outcomes == map[] && children == map[] && confirmed == {}
    {
      outcomes, children, confirmed := map[], map[], {};
    }

    // -------------------------------------------------------------- the supervisor of one child

    method Replace(h: string, child: Child)
      requires Valid() && h in children && Grew(children[h], child) && ChildOk(child)
      requires child.recorded == children[h].recorded
      requires child.terminateReserved == children[h].terminateReserved
      requires child.terminalReserved == children[h].terminalReserved
      modifies this`children
      ensures Valid() && children == old(children)[h := child] && Retained(outcomes, old(children), outcomes, children)
      ensures Occupied(outcomes, children) == Occupied(outcomes, old(children))
    {
      hide Sound, Occupied, Retained, Grew, ChildOk, Confirmed;
      SlotsStayBounded(outcomes, children, h, child);
      ReplacingConfirms(outcomes, children, confirmed, h, child);
      children := children[h := child];
    }

    /** A piece of output arrives; what exceeds the limit is counted and dropped. */
    method ReadOutput(h: string, chunk: seq<Byte>)
      requires Valid() && h in children && !children[h].settled && |children[h].stream| + |chunk| <= MAX_TOTAL
      modifies this`children
      ensures Valid() && Retained(outcomes, old(children), outcomes, children)
      ensures children == old(children)[h := Received(old(children)[h], chunk)]
      ensures Occupied(outcomes, children) == Occupied(outcomes, old(children))
      ensures h in children && children[h].stream == old(children)[h].stream + chunk
    {
      hide Occupied, Spent, Retained;
      assert ChildOk(children[h]);
      ReceivedIsOk(children[h], chunk);
      Replace(h, Received(children[h], chunk));
    }

    /** A stop request is signalled once, and its reason is the one reported. */
    method Signal(h: string)
      requires Valid() && h in children && !children[h].settled && children[h].stopReason.Some?
      requires children[h].reason.None?
      modifies this`children
      ensures Valid() && Retained(outcomes, old(children), outcomes, children)
      ensures children == old(children)[h := old(children)[h].(reason := old(children)[h].stopReason)]
      ensures Occupied(outcomes, children) == Occupied(outcomes, old(children))
    {
      hide Occupied, Spent, Retained;
      assert ChildOk(children[h]);
      Replace(h, children[h].(reason := children[h].stopReason));
    }

    /** The process was reaped and its output is complete. */
    method Settle(h: string, code: int)
      requires Valid() && h in children && !children[h].settled && MIN_EXIT <= code < -MIN_EXIT
      modifies this`children
      ensures Valid() && Retained(outcomes, old(children), outcomes, children)
      ensures children == old(children)[h := Reaped(old(children)[h], code)]
      ensures Occupied(outcomes, children) == Occupied(outcomes, old(children))
      ensures h in children && children[h].settled && children[h].exitCode == code
      ensures children[h].reason == if old(children)[h].reason.Some? then old(children)[h].reason else Some("exited")
    {
      hide Occupied, Spent, Retained;
      assert ChildOk(children[h]);
      Replace(h, Reaped(children[h], code));
    }

    /** Proof of the exit is lost for good. */
    method Lose(h: string)
      requires Valid() && h in children
      modifies this`children
      ensures Valid() && Retained(outcomes, old(children), outcomes, children)
      ensures children == old(children)[h := old(children)[h].(unknown := true)]
      ensures Occupied(outcomes, children) == Occupied(outcomes, old(children))
    {
      hide Occupied, Spent, Retained;
      assert ChildOk(children[h]);
      Replace(h, children[h].(unknown := true));
    }

    /** `_record_exit`: one attempt for a settled child, and an ambiguous answer is never tried
        again.  The exit counts as recorded only when the store has confirmed its row. */
    method RecordExit(h: string, stored: bool)
      requires Valid() && h in children
      modifies this`children, this`confirmed
      ensures Valid() && Retained(outcomes, old(children), outcomes, children)
      ensures children == old(children)[h := Attempted(old(children)[h], stored)]
      ensures children.Keys == old(children).Keys
              && forall other :: other in children && other != h ==> children[other] == old(children)[other]
      ensures var before, after := old(children)[h], children[h];
              if before.settled && !before.unknown && !before.attempted then
                && after.attempted && (after.recorded <==> stored) && (after.unknown <==> !stored)
                && after.settled && after.stream == before.stream && after.output == before.output
                && after.exitCode == before.exitCode && after.reason == before.reason
                && confirmed == if stored then old(confirmed) + {h} else old(confirmed)
              else after == before && confirmed == old(confirmed)
      ensures Occupied(outcomes, children) == Occupied(outcomes, old(children))
    {
      hide Occupied, Spent, Retained, Confirmed;
      assert ChildOk(children[h]);
      NothingLost(outcomes, children);
      if !MayAttempt(children[h]) {
        assert children[h := children[h]] == children;
        return;
      }
      AttemptGrows(children[h], stored);
      SlotsStayBounded(outcomes, children, h, Attempted(children[h], stored));
      ReplacingConfirms(outcomes, children, confirmed, h, Attempted(children[h], stored));
      if stored { confirmed := confirmed + {h}; }
      children := children[h := Attempted(children[h], stored)];
    }

    /** Anything the supervisor of a child does between two looks at it. */
    method Background(h: string)
      requires Valid() && h in children
      modifies this`children, this`confirmed
      ensures old(confirmed) <= confirmed
      ensures Valid() && Retained(outcomes, old(children), outcomes, children) && h in children
      ensures children == old(children)[h := children[h]] && Grew(old(children)[h], children[h])
              && SameFlags(old(children)[h], children[h])
      ensures Occupied(outcomes, children) == Occupied(outcomes, old(children))
    {
      hide Occupied, Sound, ChildOk;
      var choice: nat, chunk: seq<Byte>, code: int, stored: bool := *, *, *, *;
      NothingLost(outcomes, children);
      if choice == 0 && !children[h].settled && |children[h].stream| + |chunk| <= MAX_TOTAL {
        ReadOutput(h, chunk);
      } else if choice == 1 && !children[h].settled && MIN_EXIT <= code < -MIN_EXIT {
        Settle(h, code);
      } else if choice == 2 {
        Lose(h);
      } else if choice == 3 && !children[h].settled && children[h].stopReason.Some? && children[h].reason.None? {
        Signal(h);
      } else if choice == 4 {
        RecordExit(h, stored);
      } else if choice == 5 && !children[h].settled && children[h].stopReason.None? {
        AskToStop(h, "deadline");
      }
    }

    // -------------------------------------------------------------- calls

    /** `_envelope`: the largest reply that fits, or why there is none. */
    method Envelope(request: Request, cursor: nat) returns (o: Outcome)
      requires Valid() && request.target in children && cursor <= |children[request.target].output|
      requires Minimum(request.target) <= request.limit
      ensures o.Succeeded? <==> !children[request.target].unknown
      ensures children[request.target].unknown ==> o == Unknown("process_exit_unconfirmed")
      ensures o.Succeeded? ==> IsReply(o, request, cursor, children[request.target])
      ensures o.Succeeded? ==>
                var c := children[request.target];
                && o.shot.handle == request.target && o.shot.cursor == cursor && o.shot.reason == c.reason
                && o.shot.output == c.output && o.shot.total == |c.stream|
                && (o.shot.exit.Some? <==> c.settled && c.recorded)
                && (o.shot.exit.Some? ==> o.shot.exit.value == c.exitCode)
    {
      hide Fits, Occupied, Spent, Minimum;
      if children[request.target].unknown { return Unknown("process_exit_unconfirmed"); }
      var shot := ShotOf(children[request.target], request.target, cursor);
      assert ChildOk(children[request.target]);
      ShotsArePlausible(children[request.target], request.target, cursor);
      EmptyReplyAlwaysFits(shot, request.limit);
      if !Fits(shot, 0, request.limit) { return Refused("process_envelope_too_small"); }
      var count := Largest(shot, request.limit);
      o := Succeeded(shot, count);
    }

    /** `_observe`.  `stored` and `known` are the store's answers; the supervisor may run between
        any two looks at the child. */
    method Observe(request: Request, cursor: nat, reservedOnly: bool, stored: bool, known: bool) returns (o: Outcome)
      requires Valid()
      modifies this`children, this`confirmed
      ensures old(confirmed) <= confirmed
      ensures Valid() && Retained(outcomes, old(children), outcomes, children)
      ensures Occupied(outcomes, children) == Occupied(outcomes, old(children)) && SameSlotsAll(old(children), children)
      ensures request.target !in old(children) ==> children == old(children) && !o.Succeeded?
      ensures ConfirmedReply(o, confirmed)
      ensures o.Succeeded? ==> IsReply(o, request, cursor, children[request.target])
      ensures o.Succeeded? && reservedOnly && request.kind != TerminateKind ==> o.shot.exit.Some?
      ensures o.Succeeded? && request.kind == TerminateKind ==>
                children[request.target].settled || children[request.target].stopReason.Some?
      ensures request.target in old(children) && WellSized(request, cursor, old(children)[request.target])
              && !children[request.target].unknown
              && (request.kind == TerminateKind || !reservedOnly
                  || (old(children)[request.target].settled && old(children)[request.target].recorded))
              ==> o.Succeeded?
      ensures request.target in old(children) && MayAttempt(old(children)[request.target])
              && WellSized(request, cursor, old(children)[request.target]) && !reservedOnly ==>
                if stored then
                  !children[request.target].unknown ==>
                    o.Succeeded? && o.shot.exit == Some(old(children)[request.target].exitCode)
                else o == Unknown("process_exit_unconfirmed") && children[request.target].unknown
      ensures request.target in old(children) && old(children)[request.target].unknown ==>
                !o.Succeeded? && children[request.target].unknown
      // what is refused before anything is touched
      ensures request.target !in old(children) ==>
                && children == old(children)
                && o == if known then Unknown("process_owner_unavailable") else Refused("process_handle_denied")
      ensures request.target in old(children) && Minimum(request.target) > request.limit ==>
                children == old(children) && o == Refused("process_envelope_too_small")
      ensures request.target in old(children) && Minimum(request.target) <= request.limit
              && cursor > |old(children)[request.target].output| ==>
                children == old(children) && o == Refused("process_cursor_denied")
    {
      hide MayAttempt, Attempted, Confirmed, Sound, Occupied, ChildOk, Grew, Retained, Minimum, IsReply, ShotOf;
      var h := request.target;
      NothingLost(outcomes, children);
      if h !in children {
        return if known then Unknown("process_owner_unavailable") else Refused("process_handle_denied");
      }
      if Minimum(h) > request.limit { return Refused("process_envelope_too_small"); }
      if cursor > |children[h].output| { return Refused("process_cursor_denied"); }
      RecordAndYield(h, stored);
      if reservedOnly && (children[h].unknown
                          || (request.kind != TerminateKind && !(children[h].settled && children[h].recorded))) {
        return Refused("process_operation_capacity");
      }
      if request.kind == TerminateKind && !children[h].settled && children[h].stopReason.None? {
        ghost var middle := children;
        AskToStop(h, "terminated");
        RetainedIsTransitive(outcomes, old(children), outcomes, middle, outcomes, children);
      }
      o := Envelope(request, cursor);
      ReplyShowsExit(request, cursor, children[h]);
      if o.Succeeded? { ShownIsConfirmed(outcomes, children, confirmed, request, cursor, o); }
    }

    /** The attempt to record an exit, and whatever the supervisor does afterwards. */
    method RecordAndYield(h: string, stored: bool)
      requires Valid() && h in children
      modifies this`children, this`confirmed
      ensures old(confirmed) <= confirmed
      ensures Valid() && Retained(outcomes, old(children), outcomes, children) && h in children
      ensures children == old(children)[h := children[h]] && SameFlags(old(children)[h], children[h])
      ensures |old(children)[h].output| <= |children[h].output|
      ensures old(children)[h].settled && old(children)[h].recorded ==> children[h].settled && children[h].recorded
      ensures Occupied(outcomes, children) == Occupied(outcomes, old(children))
      ensures MayAttempt(old(children)[h]) ==>
                if stored then ShowsExit(children[h], old(children)[h].exitCode) else children[h].unknown
      ensures old(children)[h].unknown ==> children[h].unknown
    {
      hide Sound, Occupied, ChildOk, Grew, Retained;
      var first := children[h];
      RecordExit(h, stored);
      AttemptGrows(first, stored);
      var second, middle := children[h], children;
      Background(h);
      RetainedIsTransitive(outcomes, old(children), outcomes, middle, outcomes, children);
      GrewTwice(first, second, children[h]);
      if MayAttempt(first) { AttemptDecides(first, stored, children[h]); }
      hide Attempted;
    }

    /** `stop`: the first reason counts. */
    method AskToStop(h: string, reason: string)
      requires Valid() && h in children && !children[h].settled && children[h].stopReason.None? && reason in REASONS
      modifies this`children
      ensures Valid() && Retained(outcomes, old(children), outcomes, children)
      ensures children == old(children)[h := old(children)[h].(stopReason := Some(reason))]
      ensures Occupied(outcomes, children) == Occupied(outcomes, old(children))
    {
      hide Occupied, Spent, Retained;
      assert ChildOk(children[h]);
      Replace(h, children[h].(stopReason := Some(reason)));
    }

    /** `_start`: `way` is what the profile check, the store and the operating system answer.  The
        store refuses a handle it has seen, so a dispatched handle is new. */
    method Start(request: Request, handle: string, limit: nat, way: StartWay) returns (o: Outcome)
      requires Valid() && Occupied(outcomes, children) + 3 <= MAX_CACHE && handle !in children && limit <= MAX_OUTPUT
      requires way != RecheckFailed
      modifies this`children
      ensures Valid() && ConfirmedReply(o, confirmed)
      ensures Retained(outcomes, old(children), outcomes, children)
      ensures Occupied(outcomes, children) + 1 <= MAX_CACHE
              && Occupied(outcomes, old(children)) <= Occupied(outcomes, children)
      ensures children == Started(old(children), handle, limit, way, Minimum(handle) <= request.limit)
      ensures way == Spawned && Minimum(handle) <= request.limit ==>
                IsReply(o, request.(target := handle), 0, NewChild(limit))
      ensures way != Spawned || Minimum(handle) > request.limit ==>
                o == StartRefusal(way, Minimum(handle) <= request.limit)
    {
      hide Grew, ShotOf, Confirmed, ConfirmedReply, Occupied, Spent, ChildOk, AllOk, Retained, Minimum, IsReply, Fits,
           AllStopped;
      NothingLost(outcomes, children);
      OnlyExitsNeedConfirming(confirmed);
      if way == Denied { return Refused("process_profile_denied"); }
      if way == Conflicting { return Refused("process_operation_conflict"); }
      if way == AlreadyRecorded { return Unknown("process_dispatch_already_recorded"); }
      if Minimum(handle) > request.limit { return Refused("process_envelope_too_small"); }
      if way == NoCapacity { return Refused("process_dispatch_capacity"); }
      if way == Unconfirmed { return Unknown("process_dispatch_unconfirmed"); }
      if way == AuthorityLost {
        CleanUp();
        return Unknown("process_spawn_authority_unconfirmed");
      }
      if way == NotSpawned { return Unknown("process_spawn_unconfirmed"); }
      NewChildIsOk(limit);
      var child := NewChild(limit).(unknown := way == Unsupervised);
      NewChildTakesTwo(outcomes, children, handle, child);
      NewChildConfirms(outcomes, children, confirmed, handle, child);
      children := children[handle := child];
      if way == Unsupervised { return Unknown("process_supervisor_unavailable"); }
      o := Envelope(request.(target := handle), 0);
      ShownIsConfirmed(outcomes, children, confirmed, request.(target := handle), 0, o);
    }

    /** `_cleanup_requests` after authority is lost: every live child is asked to stop. */
    method CleanUp()
      requires Valid()
      modifies this`children
      ensures Valid() && Retained(outcomes, old(children), outcomes, children)
      ensures children == AllStopped(old(children)) && Occupied(outcomes, children) == Occupied(outcomes, old(children))
    {
      hide Sound, Confirmed, Retained, Occupied;
      StoppingConfirms(outcomes, children, confirmed);
      children := AllStopped(children);
      StoppingKeepsSlots(outcomes, old(children), children);
    }

    /** `_operate`: start, poll and terminate behind one cache of replies. */
    method Operate(request: Request, cursor: nat, gate: Gate, handle: string, limit: nat, way: StartWay, stored: bool,
                   known: bool)
      returns (o: Outcome)
      requires Valid() && (request.kind == StartKind ==> handle !in children) && limit <= MAX_OUTPUT
      modifies this
      ensures old(confirmed) <= confirmed
      ensures Valid() && Retained(old(outcomes), old(children), outcomes, children)
      ensures Occupied(old(outcomes), old(children)) <= Occupied(outcomes, children)
      ensures outcomes.Keys <= old(outcomes).Keys + {request.id}
      ensures gate == BusyLock ==>
                o == Refused("process_runtime_denied") && outcomes == old(outcomes) && children == old(children)
      ensures gate == NotLive ==>
                && o == Refused("process_authority_denied") && outcomes == old(outcomes)
                && children == AllStopped(old(children))
      // an identical call gets the identical reply and does nothing
      ensures gate == Open && request.id in old(outcomes) ==>
                && outcomes == old(outcomes) && children == old(children)
                && o == (var e := old(outcomes)[request.id];
                         if e.request == request && e.cursor == cursor then e.outcome
                         else Refused("process_operation_conflict"))
      ensures gate == Open && o.Succeeded? ==>
                request.id in outcomes && outcomes[request.id] == Entry(request, cursor, o)
      // room, or reserved places: the first terminate, and the first poll after a recorded exit
      ensures gate == Open && request.id !in old(outcomes) && request.kind != StartKind
              && request.target in old(children)
              && WellSized(request, cursor, old(children)[request.target]) && !children[request.target].unknown
              && (|| Occupied(old(outcomes), old(children)) < MAX_CACHE
                  || HoldsPlace(request, old(children)[request.target]))
              ==> o.Succeeded?
      ensures o.Succeeded? && request.kind != StartKind && request.id !in old(outcomes) ==>
                request.target in children && IsReply(o, request, cursor, children[request.target])
      // the one attempt to record an exit decides what this call and all later ones show
      ensures gate == Open && request.id !in old(outcomes) && request.kind != StartKind
              && request.target in old(children) && MayAttempt(old(children)[request.target])
              && WellSized(request, cursor, old(children)[request.target])
              && Occupied(old(outcomes), old(children)) < MAX_CACHE ==>
                if stored then
                  !children[request.target].unknown ==>
                    o.Succeeded? && o.shot.exit == Some(old(children)[request.target].exitCode)
                else
                  && o == Unknown("process_exit_unconfirmed") && children[request.target].unknown
                  && request.id in outcomes && outcomes[request.id] == Entry(request, cursor, o)
      ensures gate == Open && request.id !in old(outcomes) && request.kind != StartKind
              && request.target in old(children) && old(children)[request.target].unknown ==>
                !o.Succeeded?
    {
      hide Sound, Occupied, Retained, WellSized, IsReply, Minimum, ShotOf, Fits, AllStopped;
      NothingLost(outcomes, children);
      if gate == BusyLock { return Refused("process_runtime_denied"); }
      if gate == NotLive {
        CleanUp();
        return Refused("process_authority_denied");
      }
      if request.id in outcomes {
        var e := outcomes[request.id];
        return if e.request == request && e.cursor == cursor then e.outcome else Refused("process_operation_conflict");
      }
      if request.kind == StartKind {
        o := OperateStart(request, cursor, handle, limit, way);
      } else {
        o := OperateChild(request, cursor, stored, known);
      }
    }

    /** A start is admitted only with room for its own reply and the two later ones. */
    method OperateStart(request: Request, cursor: nat, handle: string, limit: nat, way: StartWay) returns (o: Outcome)
      requires Valid() && request.id !in outcomes && handle !in children && limit <= MAX_OUTPUT
      modifies this
      ensures old(confirmed) <= confirmed
      ensures Valid() && Retained(old(outcomes), old(children), outcomes, children)
      ensures Occupied(old(outcomes), old(children)) <= Occupied(outcomes, children)
      ensures var room := Occupied(old(outcomes), old(children)) + 3 <= MAX_CACHE;
              var sized := Minimum(handle) <= request.limit;
              if !room then
                o == Refused("process_operation_capacity") && outcomes == old(outcomes) && children == old(children)
              else if way == RecheckFailed then
                o == Refused("process_runtime_denied") && outcomes == old(outcomes) && children == old(children)
              else
                && children == Started(old(children), handle, limit, way, sized)
                && outcomes == old(outcomes)[request.id := Entry(request, cursor, o)]
                && (if way == Spawned && sized then IsReply(o, request.(target := handle), 0, NewChild(limit))
                    else o == StartRefusal(way, sized))
    {
      hide Occupied, Spent, AllOk, ChildOk, Minimum, ShotOf, Retained, Started, StartRefusal, IsReply;
      NothingLost(outcomes, children);
      if Occupied(outcomes, children) + 3 > MAX_CACHE { return Refused("process_operation_capacity"); }
      if way == RecheckFailed { return Refused("process_runtime_denied"); }
      o := Start(request, handle, limit, way);
      ghost var middle := children;
      Cache(request, cursor, o);
      RetainedIsTransitive(old(outcomes), old(children), old(outcomes), middle, outcomes, children);
    }

    method OperateChild(request: Request, cursor: nat, stored: bool, known: bool) returns (o: Outcome)
      requires Valid() && request.id !in outcomes && request.kind != StartKind
      modifies this
      ensures old(confirmed) <= confirmed
      ensures Valid() && Retained(old(outcomes), old(children), outcomes, children)
      ensures Occupied(old(outcomes), old(children)) < MAX_CACHE ==>
                outcomes == old(outcomes)[request.id := Entry(request, cursor, o)]
      ensures o.Succeeded? ==> request.id in outcomes && outcomes[request.id] == Entry(request, cursor, o)
      ensures Occupied(old(outcomes), old(children)) <= Occupied(outcomes, children)
      ensures request.target in old(children) && WellSized(request, cursor, old(children)[request.target])
              && request.target in children && !children[request.target].unknown
              && (|| Occupied(old(outcomes), old(children)) < MAX_CACHE
                  || HoldsPlace(request, old(children)[request.target]))
              ==> o.Succeeded?
      ensures request.target in old(children) ==> request.target in children
      ensures outcomes.Keys <= old(outcomes).Keys + {request.id}
      ensures o.Succeeded? ==> request.target in children && IsReply(o, request, cursor, children[request.target])
      ensures request.target in old(children) && request.target in children && MayAttempt(old(children)[request.target])
              && WellSized(request, cursor, old(children)[request.target])
              && Occupied(old(outcomes), old(children)) < MAX_CACHE ==>
                if stored then
                  !children[request.target].unknown ==>
                    o.Succeeded? && o.shot.exit == Some(old(children)[request.target].exitCode)
                else o == Unknown("process_exit_unconfirmed") && children[request.target].unknown
      ensures request.target in old(children) && request.target in children && old(children)[request.target].unknown ==>
                !o.Succeeded? && children[request.target].unknown
    {
      hide Sound, Occupied, Retained, WellSized, Minimum, ShotOf, Fits, Grew, IsReply;
      NothingLost(outcomes, children);
      var ordinary := Occupied(outcomes, children) < MAX_CACHE;
      var reserved := request.target in children
                      && if request.kind == TerminateKind then children[request.target].terminateReserved
                         else children[request.target].terminalReserved;
      if !ordinary && !reserved { return Refused("process_operation_capacity"); }
      o := Observe(request, cursor, !ordinary, stored, known);
      if !o.Succeeded? && !ordinary { return; }
      ghost var middle := children;
      if o.Succeeded? { ReplyShows(o, request, cursor, children[request.target]); }
      Deliver(request, cursor, o, ordinary);
      if request.target in children {
        ViewIgnoresPlaces(o, request, cursor, middle[request.target], children[request.target]);
      }
      RetainedIsTransitive(old(outcomes), old(children), old(outcomes), middle, outcomes, children);
    }

    /** Caches the reply and, when it is the one a place was kept for, gives the place up. */
    method Deliver(request: Request, cursor: nat, o: Outcome, ordinary: bool)
      requires Valid() && request.id !in outcomes && request.kind != StartKind
      requires ordinary ==> Occupied(outcomes, children) < MAX_CACHE
      requires o.Succeeded? ==> request.target in children
      requires ConfirmedReply(o, confirmed)
      requires ordinary || (o.Succeeded? && UsesPlace(request, o, children[request.target]))
      modifies this`outcomes, this`children
      ensures Valid() && Retained(old(outcomes), old(children), outcomes, children)
      ensures outcomes == old(outcomes)[request.id := Entry(request, cursor, o)]
      ensures children.Keys == old(children).Keys
      ensures forall h :: h in children ==> Unreserved(children[h]) == Unreserved(old(children)[h])
      ensures Occupied(old(outcomes), old(children)) <= Occupied(outcomes, children)
    {
      hide Confirmed, Occupied, TerminateDelivered, ExitDelivered, AllOk, ChildOk, Retained;
      CachingAddsOne(outcomes, children, request.id, Entry(request, cursor, o));
      CachingConfirms(outcomes, children, confirmed, request.id, Entry(request, cursor, o));
      CachingRetains(outcomes, children, request.id, Entry(request, cursor, o));
      outcomes := outcomes[request.id := Entry(request, cursor, o)];
      if o.Succeeded? && (request.kind == TerminateKind || o.shot.exit.Some?) {
        DeliveredNow(outcomes, request);
        GivingUpOne(outcomes, children, request.target, request.kind == TerminateKind);
        ReplacingConfirms(outcomes, children, confirmed, request.target,
                          Freed(children[request.target], request.kind == TerminateKind));
        children := children[request.target := Freed(children[request.target], request.kind == TerminateKind)];
        RetainedIsTransitive(old(outcomes), old(children), outcomes, old(children), outcomes, children);
      }
    }

    method Cache(request: Request, cursor: nat, o: Outcome)
      requires request.id !in outcomes && Valid() && Occupied(outcomes, children) + 1 <= MAX_CACHE
      requires ConfirmedReply(o, confirmed)
      modifies this`outcomes
      ensures Valid() && outcomes == old(outcomes)[request.id := Entry(request, cursor, o)]
      ensures Retained(old(outcomes), children, outcomes, children)
      ensures Occupied(old(outcomes), children) <= Occupied(outcomes, children)
    {
      hide Confirmed, Occupied, Spent, AllOk, TerminateDelivered, ExitDelivered;
      CachingAddsOne(outcomes, children, request.id, Entry(request, cursor, o));
      CachingConfirms(outcomes, children, confirmed, request.id, Entry(request, cursor, o));
      NothingLost(outcomes, children);
      outcomes := outcomes[request.id := Entry(request, cursor, o)];
    }
  }

  datatype StartWay = RecheckFailed | Denied | Conflicting | AlreadyRecorded | NoCapacity | Unconfirmed | AuthorityLost
                    | NotSpawned | Unsupervised | Spawned

  /** The children after a start: a spawned one is owned whatever happens next, and after a lost
      authority all others are asked to stop. */
  function Started(children: Children, handle: string, limit: nat, way: StartWay, sized: bool): Children {
    if !sized then children
    else
      match way
      case Spawned => children[handle := NewChild(limit)]
      case Unsupervised => children[handle := NewChild(limit).(unknown := true)]
      case AuthorityLost => AllStopped(children)
      case _ => children
  }

  /** A new child appears exactly when one was spawned for a sized request: unread, running, and with
      both places; without a supervisor its exit is unknown from the start. */
  lemma StartedIsExact(children: Children, handle: string, limit: nat, way: StartWay, sized: bool)
    requires handle !in children
    ensures var after := Started(children, handle, limit, way, sized);
            && (handle in after <==> sized && way in {Spawned, Unsupervised})
            && (handle in after ==>
                  && after.Keys == children.Keys + {handle} && after[handle].stream == [] == after[handle].output
                  && after[handle].limit == limit && !after[handle].settled && after[handle].stopReason.None?
                  && after[handle].terminateReserved && after[handle].terminalReserved
                  && !after[handle].attempted && !after[handle].recorded && after[handle].reason.None?
                  && (after[handle].unknown <==> way == Unsupervised))
            && (forall h :: h in children ==> h in after)
            && (sized && way == AuthorityLost ==> after == AllStopped(children))
            && (!(sized && way == AuthorityLost) ==> forall h :: h in children ==> after[h] == children[h])
  {
    hide Stopped;
  }

  /** Every live child that nobody asked to stop is asked now; nothing else changes. */
  lemma StoppingIsExact(children: Children, h: string)
    requires h in children
    ensures AllStopped(children).Keys == children.Keys
    ensures var before, after := children[h], AllStopped(children)[h];
            && after.(stopReason := None) == before.(stopReason := None)
            && after.stopReason == if before.settled || before.stopReason.Some? then before.stopReason
                                   else Some("owner_cleanup")
  {
  }

  /** Why a start has no reply; whatever follows the dispatch is unknown, not refused. */
  function StartRefusal(way: StartWay, sized: bool): Outcome {
    match way
    case Denied => Refused("process_profile_denied")
    case Conflicting => Refused("process_operation_conflict")
    case AlreadyRecorded => Unknown("process_dispatch_already_recorded")
    case _ =>
      if !sized then Refused("process_envelope_too_small")
      else
        match way
        case NoCapacity => Refused("process_dispatch_capacity")
        case Unconfirmed => Unknown("process_dispatch_unconfirmed")
        case AuthorityLost => Unknown("process_spawn_authority_unconfirmed")
        case NotSpawned => Unknown("process_spawn_unconfirmed")
        case _ => Unknown("process_supervisor_unavailable")
  }

  /** The place that this call could use when the cache is otherwise full. */
  predicate HoldsPlace(request: Request, c: Child) {
    if request.kind == TerminateKind then c.terminateReserved
    else c.terminalReserved && c.settled && c.recorded
  }

  /** The reply for which a place was kept. */
  predicate UsesPlace(request: Request, o: Outcome, c: Child)
    requires o.Succeeded?
  {
    if request.kind == TerminateKind then c.terminateReserved else c.terminalReserved && o.shot.exit.Some?
  }

  lemma ViewIgnoresPlaces(o: Outcome, request: Request, cursor: nat, before: Child, after: Child)
    requires Unreserved(before) == Unreserved(after)
    ensures IsReply(o, request, cursor, before) ==> IsReply(o, request, cursor, after)
    ensures before.unknown == after.unknown
  {
    assert ShotOf(before, request.target, cursor) == ShotOf(after, request.target, cursor);
    assert before.output == after.output;
    hide Fits, ShotOf;
  }

  function AllStopped(children: Children): Children {
    map h | h in children :: Stopped(children[h])
  }

  function Stopped(c: Child): Child {
    if !c.settled && c.stopReason.None? then c.(stopReason := Some("owner_cleanup")) else c
  }

  /** A child apart from its reservations. */
  function Unreserved(c: Child): Child {
    c.(terminateReserved := false, terminalReserved := false)
  }

  lemma CachingRetains(outcomes: Outcomes, children: Children, id: string, entry: Entry)
    requires id !in outcomes
    ensures Retained(outcomes, children, outcomes[id := entry], children)
  {
  }

  lemma DeliveredNow(outcomes: Outcomes, request: Request)
    requires request.id in outcomes && outcomes[request.id].request == request
    requires outcomes[request.id].outcome.Succeeded?
    ensures request.kind == TerminateKind ==> TerminateDelivered(outcomes, request.target)
    ensures request.kind == PollKind && outcomes[request.id].outcome.shot.exit.Some? ==>
              ExitDelivered(outcomes, request.target)
  {
  }

  lemma NewChildIsOk(limit: nat)
    requires limit <= MAX_OUTPUT
    ensures ChildOk(NewChild(limit)) && ChildOk(NewChild(limit).(unknown := true))
  {
  }

  lemma ReplyShows(o: Outcome, request: Request, cursor: nat, c: Child)
    requires IsReply(o, request, cursor, c)
    ensures o.Succeeded? && cursor <= |c.output| && o.shot == ShotOf(c, request.target, cursor)
            && o.count <= Rest(o.shot)
  {
  }

  lemma StoppedIsOk(c: Child)
    ensures ChildOk(c) ==> ChildOk(Stopped(c))
    ensures Grew(c, Stopped(c)) && SameFlags(c, Stopped(c))
  {
  }

  lemma StoppingConfirms(outcomes: Outcomes, children: Children, confirmed: set<string>)
    ensures Confirmed(outcomes, children, confirmed) ==> Confirmed(outcomes, AllStopped(children), confirmed)
  {
  }

  lemma StoppingKeepsSlots(outcomes: Outcomes, before: Children, after: Children)
    requires Sound(outcomes, before) && after == AllStopped(before)
    ensures Sound(outcomes, after) && Retained(outcomes, before, outcomes, after)
    ensures Occupied(outcomes, after) == Occupied(outcomes, before)
  {
    hide TerminateDelivered, ExitDelivered, ChildOk, Grew;
    assert TerminateSlots(after) == TerminateSlots(before);
    assert TerminalSlots(after) == TerminalSlots(before);
    hide TerminateSlots, TerminalSlots;
    forall h | h in after
      ensures ChildOk(after[h]) && Grew(before[h], after[h])
    {
      StoppedIsOk(before[h]);
    }
  }

  /** The answer shows the child as it is, from the cursor on, and could not show more. */
  predicate IsReply(o: Outcome, request: Request, cursor: nat, c: Child) {
    && o.Succeeded? && cursor <= |c.output|
    && o.shot == ShotOf(c, request.target, cursor) && o.count <= Rest(o.shot)
    && Fits(o.shot, o.count, request.limit)
    && forall more: nat :: o.count < more <= Rest(o.shot) ==> !Fits(o.shot, more, request.limit)
  }

  predicate WellSized(request: Request, cursor: nat, c: Child) {
    Minimum(request.target) <= request.limit && cursor <= |c.output|
  }

  predicate SameSlotsAll(before: Children, after: Children) {
    before.Keys == after.Keys && forall h :: h in before && h in after ==> SameFlags(before[h], after[h])
  }

  lemma AttemptGrows(c: Child, stored: bool)
    ensures Grew(c, Attempted(c, stored)) && SameFlags(c, Attempted(c, stored))
    ensures c.settled && c.recorded && c.attempted ==> Attempted(c, stored) == c
  {
  }

  /** The exit is known, and its row confirmed. */
  predicate ShowsExit(c: Child, code: int) {
    c.settled && c.recorded && c.exitCode == code
  }

  lemma AttemptDecides(c: Child, stored: bool, later: Child)
    requires MayAttempt(c) && Grew(Attempted(c, stored), later)
    ensures if stored then ShowsExit(later, c.exitCode) else later.unknown
  {
  }

  lemma GrewTwice(a: Child, b: Child, c: Child)
    requires Grew(a, b) && Grew(b, c)
    ensures Grew(a, c) && |a.output| <= |c.output| && (a.settled ==> c.settled) && (a.recorded ==> c.recorded)
    ensures a.unknown ==> c.unknown
  {
  }

  lemma ReplyShowsExit(request: Request, cursor: nat, c: Child)
    ensures forall o :: IsReply(o, request, cursor, c) ==>
              o.shot.exit == (if c.settled && c.recorded then Some(c.exitCode) else None)
  {
  }

  predicate SameFlags(before: Child, after: Child) {
    before.terminateReserved == after.terminateReserved && before.terminalReserved == after.terminalReserved
  }

  lemma NothingLost(outcomes: Outcomes, children: Children)
    ensures Retained(outcomes, children, outcomes, children)
  {
  }

  function Received(c: Child, chunk: seq<Byte>): Child
    requires ChildOk(c)
  {
    var available := c.limit - |c.output|;
    var kept := chunk[..if |chunk| <= available then |chunk| else available];
    c.(stream := c.stream + chunk, output := c.output + kept)
  }

  lemma ReceivedIsOk(c: Child, chunk: seq<Byte>)
    requires ChildOk(c) && |c.stream| + |chunk| <= MAX_TOTAL
    ensures ChildOk(Received(c, chunk))
  {
  }

  function Reaped(c: Child, code: int): Child {
    c.(settled := true, exitCode := code, reason := if c.reason.Some? then c.reason else Some("exited"))
  }

  /** Settled, not given up, and not yet tried. */
  predicate MayAttempt(c: Child) {
    c.settled && !c.unknown && !c.attempted
  }

  function Attempted(c: Child, stored: bool): Child {
    if !MayAttempt(c) then c
    else if stored then c.(attempted := true, recorded := true)
    else c.(attempted := true, unknown := true)
  }

  lemma SlotsStayBounded(outcomes: Outcomes, children: Children, h: string, child: Child)
    requires Sound(outcomes, children) && h in children && Grew(children[h], child) && ChildOk(child)
    requires child.terminateReserved == children[h].terminateReserved
    requires child.terminalReserved == children[h].terminalReserved
    ensures Sound(outcomes, children[h := child]) && Retained(outcomes, children, outcomes, children[h := child])
    ensures Occupied(outcomes, children[h := child]) == Occupied(outcomes, children)
  {
    hide Occupied, Spent, Retained, Grew, ChildOk, AllOk;
    SameSlots(outcomes, children, h, child);
  }

  // ---------------------------------------------------------------- over whole histories

  /** When the store fails the one attempt to record an exit, that poll and every later one under a
      new id, after any history, answers without an exit; nothing takes the failure back. */
  method LostExitIsNeverReported(owner: Owner, request: Request, cursor: nat, again: Request, next: nat, rounds: nat,
                                 stored: bool)
    returns (o: Outcome, asked: bool, later: Outcome)
    requires owner.Valid() && request.target in owner.children && MayAttempt(owner.children[request.target])
    requires request.kind != StartKind && WellSized(request, cursor, owner.children[request.target])
    requires request.id !in owner.outcomes && Occupied(owner.outcomes, owner.children) < MAX_CACHE
    requires again.kind != StartKind && again.target == request.target
    modifies owner
    ensures owner.Valid() && o == Unknown("process_exit_unconfirmed")
    ensures again.id == request.id ==> !asked
    ensures !asked ==> again.id in owner.outcomes
    ensures asked ==> !later.Succeeded?
  {
    hide Sound, Confirmed, Occupied, WellSized, Grew;
    o := owner.Operate(request, cursor, Open, "", 0, Denied, false, false);
    ghost var outcomes, children := owner.outcomes, owner.children;
    AnyHistory(owner, rounds);
    UnknownStays(outcomes, children, owner.outcomes, owner.children, request.target);
    asked := again.id !in owner.outcomes;
    later := o;
    if asked { later := owner.Operate(again, next, Open, "", 0, Denied, stored, false); }
  }

  lemma UnknownStays(outcomes: Outcomes, children: Children, outcomes': Outcomes, children': Children, h: string)
    requires Retained(outcomes, children, outcomes', children') && h in children && children[h].unknown
    ensures h in children' && children'[h].unknown
    ensures forall id :: id in outcomes ==> id in outcomes'
  {
  }

  /** However much else has happened, the place for a child's first terminate, and for the first
      reply that reports its exit, is there until such a reply has been delivered. */
  lemma PlacesWaitForTheirReply(outcomes: Outcomes, children: Children, h: string)
    requires Sound(outcomes, children) && h in children
    ensures TerminateDelivered(outcomes, h) || children[h].terminateReserved
    ensures ExitDelivered(outcomes, h) || children[h].terminalReserved
    ensures |outcomes| <= MAX_CACHE
  {
    hide TerminateDelivered, ExitDelivered;
  }

  /** Any calls and any background activity: the bound holds, no reply changes, output only grows. */
  method AnyHistory(owner: Owner, rounds: nat)
    requires owner.Valid()
    modifies owner
    ensures owner.Valid() && Retained(old(owner.outcomes), old(owner.children), owner.outcomes, owner.children)
    ensures Occupied(old(owner.outcomes), old(owner.children)) <= Occupied(owner.outcomes, owner.children)
    decreases rounds
  {
    hide Sound, Retained, Occupied;
    NothingLost(owner.outcomes, owner.children);
    if rounds > 0 {
      var call: bool, h: string := *, *;
      if call {
        var request: Request, cursor: nat, gate: Gate, limit: nat := *, *, *, *;
        var way: StartWay, stored: bool, known: bool := *, *, *;
        if h !in owner.children && limit <= MAX_OUTPUT {
          var _ := owner.Operate(request, cursor, gate, h, limit, way, stored, known);
        }
      } else if h in owner.children {
        owner.Background(h);
      }
      ghost var outcomes, children := owner.outcomes, owner.children;
      AnyHistory(owner, rounds - 1);
      RetainedIsTransitive(old(owner.outcomes), old(owner.children), outcomes, children,
                           owner.outcomes, owner.children);
    }
  }

  /** The first terminate of a child, under an id not used before, is served after any history. */
  method FirstTerminateIsServed(owner: Owner, request: Request, rounds: nat, stored: bool)
    returns (first: bool, o: Outcome)
    requires owner.Valid() && request.kind == TerminateKind && request.target in owner.children
    requires Minimum(request.target) <= request.limit
    modifies owner
    ensures owner.Valid() && request.target in owner.children
    ensures TerminateDelivered(old(owner.outcomes), request.target) || request.id in old(owner.outcomes) ==> !first
    ensures !first ==> request.id in owner.outcomes || TerminateDelivered(owner.outcomes, request.target)
    ensures first && !owner.children[request.target].unknown ==>
              o.Succeeded? && request.id in owner.outcomes && owner.outcomes[request.id] == Entry(request, 0, o)
  {
    hide Sound, Grew, Minimum, TerminateDelivered;
    ghost var before := owner.outcomes;
    AnyHistory(owner, rounds);
    DeliveriesStay(before, owner.outcomes, request.target);
    first := request.id !in owner.outcomes && !TerminateDelivered(owner.outcomes, request.target);
    o := Refused("");
    if first {
      PlacesWaitForTheirReply(owner.outcomes, owner.children, request.target);
      o := owner.Operate(request, 0, Open, "", 0, Denied, stored, false);
    }
  }

  /** So is the first poll that can report a recorded exit. */
  method FirstExitReportIsServed(owner: Owner, request: Request, cursor: nat, rounds: nat, stored: bool)
    returns (first: bool, o: Outcome)
    requires owner.Valid() && request.kind == PollKind && request.target in owner.children
    requires WellSized(request, cursor, owner.children[request.target])
    modifies owner
    ensures owner.Valid() && request.target in owner.children
    ensures ExitDelivered(old(owner.outcomes), request.target) || request.id in old(owner.outcomes) ==> !first
    ensures !first ==>
              || request.id in owner.outcomes || ExitDelivered(owner.outcomes, request.target)
              || !(owner.children[request.target].settled && owner.children[request.target].recorded)
    ensures first && !owner.children[request.target].unknown ==>
              o.Succeeded? && request.id in owner.outcomes && owner.outcomes[request.id] == Entry(request, cursor, o)
  {
    hide Sound, Minimum, ExitDelivered;
    ghost var before := owner.outcomes;
    AnyHistory(owner, rounds);
    ReportsStay(before, owner.outcomes, request.target);
    var child := owner.children[request.target];
    first := request.id !in owner.outcomes && !ExitDelivered(owner.outcomes, request.target)
             && child.settled && child.recorded;
    o := Refused("");
    if first {
      PlacesWaitForTheirReply(owner.outcomes, owner.children, request.target);
      o := owner.Operate(request, cursor, Open, "", 0, Denied, stored, false);
    }
  }

  lemma DeliveriesStay(before: Outcomes, after: Outcomes, h: string)
    requires forall id :: id in before ==> id in after && after[id] == before[id]
    ensures TerminateDelivered(before, h) ==> TerminateDelivered(after, h)
  {
  }

  lemma ReportsStay(before: Outcomes, after: Outcomes, h: string)
    requires forall id :: id in before ==> id in after && after[id] == before[id]
    ensures ExitDelivered(before, h) ==> ExitDelivered(after, h)
  {
  }

  // ---------------------------------------------------------------- following the output

  /** The bytes a served reply carries, as its reader decodes them. */
  function PieceOf(e: Entry): seq<Byte> {
    if e.outcome.Succeeded? && e.outcome.shot.cursor + e.outcome.count <= |e.outcome.shot.output| then
      Decode(Encode(e.outcome.shot.output[e.outcome.shot.cursor..e.outcome.shot.cursor + e.outcome.count]))
    else []
  }

  function Text(replies: seq<Entry>): seq<Byte> {
    if replies == [] then [] else Text(replies[..|replies| - 1]) + PieceOf(replies[|replies| - 1])
  }

  /** `next_cursor` of the last reply. */
  function NextCursor(replies: seq<Entry>): nat {
    if replies == [] || !replies[|replies| - 1].outcome.Succeeded? then 0
    else replies[|replies| - 1].cursor + replies[|replies| - 1].outcome.count
  }

  /** A served poll of one child, in the cache under its own id. */
  predicate ServedPoll(outcomes: Outcomes, h: string, e: Entry) {
    && e.request.kind == PollKind && e.request.target == h && e.outcome.Succeeded? && e.outcome.shot.cursor == e.cursor
    && e.request.id in outcomes && outcomes[e.request.id] == e
  }

  /** With two bytes beyond the reserved minimum a reply moves on while there is output left. */
  predicate MovesOn(h: string, e: Entry) {
    e.outcome.Succeeded? && Rest(e.outcome.shot) > 0 && Minimum(h) + 2 <= e.request.limit ==> e.outcome.count > 0
  }

  /** Served replies, each asked for at the `next_cursor` of the one before. */
  predicate Chained(outcomes: Outcomes, h: string, replies: seq<Entry>) {
    forall i :: 0 <= i < |replies| ==>
      ServedPoll(outcomes, h, replies[i]) && replies[i].cursor == NextCursor(replies[..i]) && MovesOn(h, replies[i])
  }

  predicate Answers(replies: seq<Entry>, id: string) {
    exists i :: 0 <= i < |replies| && replies[i].request.id == id
  }

  /** A poll that has to be answered when there is room: sized, and under an id not used before. */
  predicate Askable(outcomes: Outcomes, h: string, polls: seq<Request>, i: int) {
    && 0 <= i < |polls| && polls[i].kind == PollKind && polls[i].target == h && Minimum(h) <= polls[i].limit
    && polls[i].id !in outcomes && forall j :: 0 <= j < i ==> polls[j].id != polls[i].id
  }

  /** The last reply shows the exit and nothing more to read. */
  predicate AtEnd(replies: seq<Entry>) {
    && replies != [] && replies[|replies| - 1].outcome.Succeeded?
    && replies[|replies| - 1].outcome.shot.exit.Some?
    && replies[|replies| - 1].outcome.count == Rest(replies[|replies| - 1].outcome.shot)
  }

  /** What a reader that follows `next_cursor` has put together so far. */
  predicate Gathered(outcomes: Outcomes, c: Child, h: string, replies: seq<Entry>) {
    && Chained(outcomes, h, replies)
    && NextCursor(replies) <= |c.output| && Text(replies) == c.output[..NextCursor(replies)]
    && (AtEnd(replies) ==> c.settled && NextCursor(replies) == |c.output|)
  }

  lemma StillGathered(outcomes: Outcomes, before: Child, later: Outcomes, after: Child, h: string, replies: seq<Entry>)
    requires forall id :: id in outcomes ==> id in later && later[id] == outcomes[id]
    requires Grew(before, after) && Gathered(outcomes, before, h, replies)
    ensures Gathered(later, after, h, replies)
  {
    hide Text, MovesOn;
    forall i | 0 <= i < |replies|
      ensures ServedPoll(later, h, replies[i])
    {
      assert ServedPoll(outcomes, h, replies[i]);
    }
  }

  lemma ServedSucceeded(outcomes: Outcomes, h: string, e: Entry)
    requires ServedPoll(outcomes, h, e)
    ensures e.outcome.Succeeded?
  {
  }

  lemma ChainOneMore(outcomes: Outcomes, h: string, replies: seq<Entry>, e: Entry)
    requires Chained(outcomes, h, replies) && ServedPoll(outcomes, h, e) && e.cursor == NextCursor(replies)
    requires MovesOn(h, e)
    ensures Chained(outcomes, h, replies + [e]) && NextCursor(replies + [e]) == e.cursor + e.outcome.count
  {
    hide MovesOn, ServedPoll;
    var more := replies + [e];
    assert more[|replies|] == e && more[..|replies|] == replies;
    assert e.outcome.Succeeded? by { ServedSucceeded(outcomes, h, e); }
    assert NextCursor(more) == e.cursor + e.outcome.count;
    hide NextCursor;
    forall i | 0 <= i < |more|
      ensures ServedPoll(outcomes, h, more[i]) && more[i].cursor == NextCursor(more[..i]) && MovesOn(h, more[i])
    {
      if i < |replies| { assert more[..i] == replies[..i]; }
    }
  }

  /** A reply shows the output from its cursor on. */
  lemma PieceIsOutput(e: Entry, c: Child)
    requires IsReply(e.outcome, e.request, e.cursor, c)
    ensures e.cursor + e.outcome.count <= |c.output|
    ensures PieceOf(e) == c.output[e.cursor..e.cursor + e.outcome.count]
    ensures e.outcome.shot.exit.Some? && e.outcome.count == Rest(e.outcome.shot) ==>
              c.settled && e.cursor + e.outcome.count == |c.output|
  {
    hide Fits, Encode, Decode;
    RoundTrip(c.output[e.cursor..e.cursor + e.outcome.count]);
  }

  /** One more served reply. */
  lemma OneReplyMore(outcomes: Outcomes, c: Child, h: string, replies: seq<Entry>, e: Entry)
    requires Gathered(outcomes, c, h, replies) && ServedPoll(outcomes, h, e) && ChildOk(c)
    requires e.cursor == NextCursor(replies) && IsReply(e.outcome, e.request, e.cursor, c)
    ensures Gathered(outcomes, c, h, replies + [e])
  {
    hide ChildOk, Chained, PieceOf, MovesOn, IsReply, Text;
    ReplyMovesOn(e, c, h);
    ChainOneMore(outcomes, h, replies, e);
    TextOneMore(replies, e);
    PieceIsOutput(e, c);
    assert (replies + [e])[|replies|] == e;
    hide NextCursor, ServedPoll;
    assert c.output[..e.cursor] + c.output[e.cursor..e.cursor + e.outcome.count]
           == c.output[..e.cursor + e.outcome.count];
  }

  lemma ReplyMovesOn(e: Entry, c: Child, h: string)
    requires e.request.target == h && ChildOk(c) && IsReply(e.outcome, e.request, e.cursor, c)
    ensures MovesOn(h, e)
  {
    hide Minimum, Fits, ChildOk;
    if Rest(e.outcome.shot) > 0 && Minimum(h) + 2 <= e.request.limit {
      ShotsArePlausible(c, h, e.cursor);
      ProgressExactly(h, e.request.limit);
      assert Fits(e.outcome.shot, 1, e.request.limit);
    }
  }

  /** What happens between two polls: anything, or with `calm` only the children's own work. */
  method Meanwhile(owner: Owner, h: string, calm: bool, rounds: nat)
    requires owner.Valid() && h in owner.children
    modifies owner
    ensures owner.Valid() && Retained(old(owner.outcomes), old(owner.children), owner.outcomes, owner.children)
    ensures Occupied(old(owner.outcomes), old(owner.children)) <= Occupied(owner.outcomes, owner.children)
    ensures calm ==> owner.outcomes == old(owner.outcomes)
  {
    hide Sound, Occupied, Grew;
    if !calm {
      AnyHistory(owner, rounds);
      return;
    }
    NothingLost(owner.outcomes, owner.children);
    ghost var start := owner.children;
    for i := 0 to rounds
      invariant owner.Valid() && h in owner.children && owner.outcomes == old(owner.outcomes)
      invariant Retained(owner.outcomes, start, owner.outcomes, owner.children)
      invariant Occupied(owner.outcomes, start) == Occupied(owner.outcomes, owner.children)
    {
      hide Retained;
      ghost var before := owner.children;
      owner.Background(h);
      RetainedIsTransitive(owner.outcomes, start, owner.outcomes, before, owner.outcomes, owner.children);
    }
  }

  /** Following `next_cursor` from 0 with the polls given: the replies served are chained, their
      decoded pieces add up to the beginning of the retained output without gap or overlap, and
      when the last one shows the exit and nothing more to read they are all of it.  Between the
      polls anything may happen; when nobody else calls, every sized poll under a new id is served
      unless the cache is full or the exit is unknown. */
  method Follow(owner: Owner, h: string, polls: seq<Request>, calm: bool) returns (replies: seq<Entry>, text: seq<Byte>)
    requires owner.Valid() && h in owner.children
    modifies owner
    ensures owner.Valid() && h in owner.children && Chained(owner.outcomes, h, replies)
    ensures text == Text(replies) && NextCursor(replies) <= |owner.children[h].output|
    ensures text == owner.children[h].output[..NextCursor(replies)] && text <= owner.children[h].stream
    ensures AtEnd(replies) ==>
              text == owner.children[h].stream[..Smaller(|owner.children[h].stream|, owner.children[h].limit)]
    ensures forall i :: 0 <= i < |polls| && calm && Askable(old(owner.outcomes), h, polls, i) ==>
              Answers(replies, polls[i].id) || Stuck(owner.outcomes, owner.children, h)
  {
    hide Sound, Gathered, Occupied, Stuck, Answers, Askable, Text, Following;
    replies, text := [], [];
    ghost var first := owner.outcomes;
    NothingFollowed(first, owner.children, h, polls, calm);
    for i := 0 to |polls|
      invariant owner.Valid() && h in owner.children && text == Text(replies)
      invariant Following(first, owner.outcomes, owner.children, h, polls, i, calm, replies)
    {
      replies, text := FollowOne(owner, h, polls, i, calm, replies, text, first);
    }
    Followed(first, owner.outcomes, owner.children, h, polls, calm, replies);
  }

  /** Where a reader stands after the first `n` polls. */
  ghost predicate Following(first: Outcomes, outcomes: Outcomes, children: Children, h: string, polls: seq<Request>,
                            n: nat, calm: bool, replies: seq<Entry>) {
    && h in children && Gathered(outcomes, children[h], h, replies)
    && (calm ==> forall id :: id in outcomes ==> id in first || IsAsked(polls, n, id))
    && (calm ==> forall k :: 0 <= k < n && Askable(first, h, polls, k) ==>
                   Answers(replies, polls[k].id) || Stuck(outcomes, children, h))
  }

  lemma NothingFollowed(outcomes: Outcomes, children: Children, h: string, polls: seq<Request>, calm: bool)
    requires h in children
    ensures Following(outcomes, outcomes, children, h, polls, 0, calm, []) && Text([]) == []
  {
  }

  lemma Followed(first: Outcomes, outcomes: Outcomes, children: Children, h: string, polls: seq<Request>, calm: bool,
                 replies: seq<Entry>)
    requires Following(first, outcomes, children, h, polls, |polls|, calm, replies) && Sound(outcomes, children)
    ensures h in children && Chained(outcomes, h, replies) && NextCursor(replies) <= |children[h].output|
    ensures Text(replies) == children[h].output[..NextCursor(replies)] && Text(replies) <= children[h].stream
    ensures AtEnd(replies) ==>
              Text(replies) == children[h].stream[..Smaller(|children[h].stream|, children[h].limit)]
    ensures forall i :: 0 <= i < |polls| && calm && Askable(first, h, polls, i) ==>
              Answers(replies, polls[i].id) || Stuck(outcomes, children, h)
  {
    hide Chained, Occupied, Spent, Text, AtEnd, Askable, Answers, Stuck;
    assert ChildOk(children[h]);
  }

  /** The world moves on between two polls. */
  lemma StillFollowing(first: Outcomes, outcomes: Outcomes, children: Children, later: Outcomes, after: Children,
                       h: string, polls: seq<Request>, n: nat, calm: bool, replies: seq<Entry>)
    requires Following(first, outcomes, children, h, polls, n, calm, replies)
    requires Retained(outcomes, children, later, after)
    requires Occupied(outcomes, children) <= Occupied(later, after) && (calm ==> later == outcomes)
    ensures Following(first, later, after, h, polls, n, calm, replies)
  {
    hide Gathered, Occupied, Stuck, Answers, Askable, IsAsked, Grew;
    StillGathered(outcomes, children[h], later, after[h], h, replies);
    StillStuck(outcomes, children, later, after, h);
  }

  /** One more poll was made, or could not be. */
  lemma FollowingOneMore(first: Outcomes, outcomes: Outcomes, children: Children, later: Outcomes, after: Children,
                         h: string, polls: seq<Request>, n: nat, calm: bool, replies: seq<Entry>, more: seq<Entry>)
    requires Following(first, outcomes, children, h, polls, n, calm, replies)
    requires Retained(outcomes, children, later, after)
    requires Occupied(outcomes, children) <= Occupied(later, after) && n < |polls| && replies <= more
    requires h in after && Gathered(later, after[h], h, more) && later.Keys <= outcomes.Keys + {polls[n].id}
    requires calm && Askable(first, h, polls, n) && polls[n].id !in outcomes ==>
               Answers(more, polls[n].id) || Stuck(later, after, h)
    ensures Following(first, later, after, h, polls, n + 1, calm, more)
  {
    hide Gathered, Occupied, Grew, Retained, Stuck, Answers, Askable, IsAsked, Minimum;
    StillStuck(outcomes, children, later, after, h);
    StillAnswers(replies, more);
    AskedOneMore(polls, n);
    AskedIsNew(first, h, polls, n);
    forall id | id in later && calm
      ensures id in first || IsAsked(polls, n + 1, id)
    {
      assert id in outcomes.Keys + {polls[n].id};
      assert IsAsked(polls, n + 1, id) <==> IsAsked(polls, n, id) || id == polls[n].id;
    }
    forall k | 0 <= k < n + 1 && calm && Askable(first, h, polls, k)
      ensures Answers(more, polls[k].id) || Stuck(later, after, h)
    {
      if k < n { assert Answers(replies, polls[k].id) || Stuck(outcomes, children, h); }
    }
  }

  method FollowOne(owner: Owner, h: string, polls: seq<Request>, i: nat, calm: bool, replies: seq<Entry>,
                   text: seq<Byte>, ghost first: Outcomes)
    returns (replies': seq<Entry>, text': seq<Byte>)
    requires owner.Valid() && h in owner.children && i < |polls| && text == Text(replies)
    requires Following(first, owner.outcomes, owner.children, h, polls, i, calm, replies)
    modifies owner
    ensures owner.Valid() && h in owner.children && text' == Text(replies')
    ensures Following(first, owner.outcomes, owner.children, h, polls, i + 1, calm, replies')
  {
    hide Sound, Grew, Occupied, Text, Minimum, Answers, Stuck, Following;
    replies', text' := replies, text;
    var rounds: nat := *;
    ghost var outcomes, children := owner.outcomes, owner.children;
    if 0 <= rounds { Meanwhile(owner, h, calm, rounds); } else { NothingLost(outcomes, children); }
    StillFollowing(first, outcomes, children, owner.outcomes, owner.children, h, polls, i, calm, replies);
    outcomes, children := owner.outcomes, owner.children;
    ReaderStands(first, outcomes, children, h, polls, i, calm, replies);
    if polls[i].kind == PollKind && polls[i].target == h && polls[i].id !in owner.outcomes {
      replies', text' := PollOnce(owner, h, polls[i], replies, text);
    } else {
      NothingLost(owner.outcomes, owner.children);
    }
    FollowingOneMore(first, outcomes, children, owner.outcomes, owner.children, h, polls, i, calm, replies, replies');
  }

  lemma ReaderStands(first: Outcomes, outcomes: Outcomes, children: Children, h: string, polls: seq<Request>, n: nat,
                     calm: bool, replies: seq<Entry>)
    requires Following(first, outcomes, children, h, polls, n, calm, replies)
    ensures h in children && Gathered(outcomes, children[h], h, replies)
  {
  }

  /** One poll at the reader's cursor. */
  method PollOnce(owner: Owner, h: string, request: Request, replies: seq<Entry>, text: seq<Byte>)
    returns (replies': seq<Entry>, text': seq<Byte>)
    requires owner.Valid() && h in owner.children && Gathered(owner.outcomes, owner.children[h], h, replies)
    requires text == Text(replies)
    requires request.kind == PollKind && request.target == h && request.id !in owner.outcomes
    modifies owner
    ensures owner.Valid() && h in owner.children && Gathered(owner.outcomes, owner.children[h], h, replies')
    ensures text' == Text(replies') && replies <= replies'
    ensures Retained(old(owner.outcomes), old(owner.children), owner.outcomes, owner.children)
    ensures Occupied(old(owner.outcomes), old(owner.children)) <= Occupied(owner.outcomes, owner.children)
    ensures owner.outcomes.Keys <= old(owner.outcomes).Keys + {request.id}
    ensures Minimum(h) <= request.limit && !Stuck(owner.outcomes, owner.children, h) ==> Answers(replies', request.id)
  {
    hide Sound, Grew, Minimum, Encode, Decode, Fits, Occupied, Text;
    replies', text' := replies, text;
    var stored: bool := *;
    var cursor := NextCursor(replies);
    ghost var before, outcomes := owner.children[h], owner.outcomes;
    var o := owner.Operate(request, cursor, Open, h, 0, Denied, stored, false);
    StillGathered(outcomes, before, owner.outcomes, owner.children[h], h, replies);
    if o.Succeeded? {
      var e := Entry(request, cursor, o);
      OneChildIsOk(owner.outcomes, owner.children, h);
      OneReplyMore(owner.outcomes, owner.children[h], h, replies, e);
      replies', text' := replies + [e], text + PieceOf(e);
      assert replies'[|replies|] == e && replies'[..|replies|] == replies;
      TextOneMore(replies, e);
    }
  }

  lemma TextOneMore(replies: seq<Entry>, e: Entry)
    ensures Text(replies + [e]) == Text(replies) + PieceOf(e)
  {
    assert (replies + [e])[..|replies|] == replies;
  }

  lemma OneChildIsOk(outcomes: Outcomes, children: Children, h: string)
    requires Sound(outcomes, children) && h in children
    ensures ChildOk(children[h])
  {
  }

  /** No ordinary poll of the child is sure to be served any more. */
  predicate Stuck(outcomes: Outcomes, children: Children, h: string) {
    h !in children || children[h].unknown || Occupied(outcomes, children) >= MAX_CACHE
  }

  lemma StillStuck(outcomes: Outcomes, children: Children, later: Outcomes, after: Children, h: string)
    requires h in children && Retained(outcomes, children, later, after)
    requires Occupied(outcomes, children) <= Occupied(later, after)
    ensures Stuck(outcomes, children, h) ==> Stuck(later, after, h)
  {
    hide Occupied;
  }

  lemma StillAnswers(replies: seq<Entry>, more: seq<Entry>)
    requires replies <= more
    ensures forall id :: Answers(replies, id) ==> Answers(more, id)
  {
  }

  predicate IsAsked(polls: seq<Request>, n: nat, id: string) {
    exists i :: 0 <= i < n <= |polls| && polls[i].id == id
  }

  lemma AskedOneMore(polls: seq<Request>, n: nat)
    requires n < |polls|
    ensures forall id :: IsAsked(polls, n + 1, id) <==> IsAsked(polls, n, id) || id == polls[n].id
  {
    assert 0 <= n < n + 1;
    forall id | IsAsked(polls, n, id)
      ensures IsAsked(polls, n + 1, id)
    {
      var i :| 0 <= i < n <= |polls| && polls[i].id == id;
      assert 0 <= i < n + 1;
    }
  }

  lemma AskedIsNew(outcomes: Outcomes, h: string, polls: seq<Request>, i: nat)
    requires i < |polls|
    ensures Askable(outcomes, h, polls, i) ==>
              && !IsAsked(polls, i, polls[i].id) && polls[i].id !in outcomes
              && polls[i].kind == PollKind && polls[i].target == h && Minimum(h) <= polls[i].limit
  {
    hide Minimum;
  }
}
