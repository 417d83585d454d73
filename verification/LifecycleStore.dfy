/** Lifecycle grants: what the grant store holds, what no transaction takes back, and the
    transactions that claims and checkpoints are made of. */
module LifecycleStore {
  import opened Common
  import opened LedgerState

  type GrantId = string

  /** The part of a grant's specification that the claim compares with the ledger. */
  datatype Spec = Spec(task: TaskId, attempt: nat, worker: string)
  datatype GrantStatus = Issued | Revoked | Held_ | Consumed
  datatype Grant = Grant(spec: Spec, status: GrantStatus, claimId: Option<string>, checkpoints: set<string>)

  datatype Kind = ClaimKind | CheckpointKind
  datatype Phase = Prepared | Pending | Ready | Refused_ | Done_
  datatype Record = Record(kind: Kind, fingerprint: string, phase: Phase, run: Option<RunId>, code: string)
  datatype Key = Key(grant: GrantId, op: string)

  datatype Result = Succeeded(run: RunId) | Refused(code: string) | Unknown
  datatype Birth = Birth(grant: GrantId, run: RunId)
  datatype Answer = Answer(key: Key, result: Result)

  /** `births`, `applied` and `answers` are history: runs inserted by grants, checkpoints applied
      to runs, and what `claim` and `disposition` have answered. */
  datatype World = World(
    ledger: State,
    grants: map<GrantId, Grant>,
    ops: map<Key, Record>,
    births: seq<Birth>,
    applied: seq<Key>,
    answers: seq<Answer>)

  const CHECKPOINT_MAX := 32
  const GRANT_MAX := 4096

  // ---------------------------------------------------------------- nothing is taken back

  predicate StatusOnward(before: GrantStatus, after: GrantStatus) {
    before == after || before == Issued || (before == Held_ && after == Consumed)
  }

  predicate PhaseOnward(before: Phase, after: Phase) {
    before == after || (before == Prepared && after != Prepared) || (before == Pending && after == Ready)
  }

  predicate GrantKept(before: Grant, after: Grant) {
    && after.spec == before.spec && StatusOnward(before.status, after.status)
    && (before.claimId.Some? ==> after.claimId == before.claimId) && before.checkpoints <= after.checkpoints
  }

  predicate RecordKept(before: Record, after: Record) {
    && after.kind == before.kind && after.fingerprint == before.fingerprint && PhaseOnward(before.phase, after.phase)
    && (before.run.Some? ==> after.run == before.run)
    && (before.phase in {Ready, Refused_, Done_} ==> after == before)
  }

  ghost predicate Grows(before: World, after: World) {
    && Keeps(before.ledger, after.ledger)
    && (forall g :: g in before.grants ==> g in after.grants && GrantKept(before.grants[g], after.grants[g]))
    && (forall k :: k in before.ops ==> k in after.ops && RecordKept(before.ops[k], after.ops[k]))
    && before.births <= after.births && before.applied <= after.applied && before.answers <= after.answers
  }

  // ---------------------------------------------------------------- invariant

  predicate Born(w: World, g: GrantId, r: RunId) {
    exists i :: 0 <= i < |w.births| && w.births[i] == Birth(g, r)
  }

  predicate Childless(w: World, g: GrantId) {
    forall i :: 0 <= i < |w.births| ==> w.births[i].grant != g
  }

  /** The run is the granted attempt of the granted task. */
  predicate RunOf(s: State, spec: Spec, r: RunId) {
    r in s.runs && s.runs[r].taskId == spec.task && s.runs[r].attempt == spec.attempt
  }

  predicate ClaimOk(w: World, g: GrantId)
    requires g in w.grants && w.grants[g].claimId.Some?
  {
    var k := Key(g, w.grants[g].claimId.value);
    && k in w.ops && w.ops[k].kind == ClaimKind
    && match w.ops[k].phase
       case Prepared => w.grants[g].status == Held_ && Childless(w, g) && w.ops[k].run.None?
       case Refused_ => w.grants[g].status == Consumed && Childless(w, g) && w.ops[k].run.None?
       case Done_ => false
       case _ =>
         && w.grants[g].status == Consumed && w.ops[k].run.Some?
         && Born(w, g, w.ops[k].run.value) && RunOf(w.ledger, w.grants[g].spec, w.ops[k].run.value)
  }

  predicate GrantOk(w: World, g: GrantId)
    requires g in w.grants
  {
    var grant := w.grants[g];
    && (grant.status in {Issued, Revoked} <==> grant.claimId.None?)
    && (grant.claimId.None? ==> Childless(w, g) && grant.checkpoints == {})
    && (grant.claimId.Some? ==> ClaimOk(w, g))
    && |grant.checkpoints| <= CHECKPOINT_MAX
    && (grant.checkpoints != {} ==> grant.claimId.Some? && w.ops[Key(g, grant.claimId.value)].phase == Ready)
    && (forall op :: op in grant.checkpoints ==> Key(g, op) in w.ops && w.ops[Key(g, op)].kind == CheckpointKind)
  }

  predicate RecordOk(w: World, k: Key)
    requires k in w.ops
  {
    && k.grant in w.grants
    && match w.ops[k].kind
       case ClaimKind => w.grants[k.grant].claimId == Some(k.op) && w.ops[k].fingerprint == CLAIM_FINGERPRINT
       case CheckpointKind =>
         && k.op in w.grants[k.grant].checkpoints && w.ops[k].phase in {Prepared, Done_}
         && (w.ops[k].phase == Done_ <==> k in w.applied)
         && w.ops[k].run.Some? && IsReady(w, k.grant, w.ops[k].run.value)
  }

  predicate Agrees(r: Record, result: Result) {
    match result
    case Succeeded(run) => r.phase == Ready && r.run == Some(run)
    case Refused(code) => r.phase == Refused_ && r.code == code
    case Unknown => true
  }

  /** A definite answer for the reserved claim repeats its record, and answers are definite only
      once some claim is reserved. */
  predicate AnswerOk(w: World, a: Answer) {
    a.result != Unknown ==>
      && a.key.grant in w.grants && w.grants[a.key.grant].claimId.Some?
      && (w.grants[a.key.grant].claimId == Some(a.key.op) ==> a.key in w.ops && Agrees(w.ops[a.key], a.result))
  }

  ghost predicate StoreInv(w: World) {
    && (forall g :: g in w.grants ==> GrantOk(w, g))
    && (forall k :: k in w.ops ==> RecordOk(w, k))
    && (forall i :: 0 <= i < |w.births| ==> w.births[i].grant in w.grants)
    && (forall i, j :: 0 <= i < j < |w.births| ==> w.births[i].grant != w.births[j].grant)
    && (forall i, j :: 0 <= i < j < |w.applied| ==> w.applied[i] != w.applied[j])
    && (forall k :: k in w.applied ==> k in w.ops && w.ops[k].kind == CheckpointKind && w.ops[k].phase == Done_)
    && (forall a :: a in w.answers ==> AnswerOk(w, a))
  }

  ghost predicate LifecycleInv(w: World) {
    LedgerState.Inv(w.ledger) && StoreInv(w)
  }

  /** Any ledger without grants. */
  lemma NoGrants(s: State)
    requires LedgerState.Inv(s)
    ensures LifecycleInv(World(s, map[], map[], [], [], []))
  {
    hide LedgerState.Inv;
  }

  // ---------------------------------------------------------------- the guarantees

  /** A grant inserts at most one run, and it is the attempt it was issued for. */
  lemma AtMostOneRunPerGrant(w: World, i: nat, j: nat)
    requires LifecycleInv(w) && i < |w.births| && j < |w.births| && w.births[i].grant == w.births[j].grant
    ensures i == j
  {
  }

  /** Two definite answers for the reserved claim are the same answer. */
  lemma AnswersNeverContradict(w: World, g: GrantId, op: string, a: Answer, b: Answer)
    requires LifecycleInv(w) && g in w.grants && w.grants[g].claimId == Some(op)
    requires a in w.answers && b in w.answers && a.key == Key(g, op) == b.key && a.result != Unknown
    requires b.result != Unknown
    ensures a.result == b.result
  {
    assert AnswerOk(w, a) && AnswerOk(w, b);
  }

  /** No more than 32 checkpoints are anchored, and none is applied twice. */
  lemma CheckpointsAreBounded(w: World, g: GrantId)
    requires LifecycleInv(w) && g in w.grants
    ensures |w.grants[g].checkpoints| <= CHECKPOINT_MAX
    ensures forall k :: k in w.applied && k.grant == g ==> k.op in w.grants[g].checkpoints
    ensures forall i, j :: 0 <= i < j < |w.applied| ==> w.applied[i] != w.applied[j]
  {
  }

  lemma GrowsIsReflexive(w: World)
    ensures Grows(w, w)
  {
    KeepsIsReflexive(w.ledger);
  }

  lemma GrowsIsTransitive(a: World, b: World, c: World)
    requires Grows(a, b) && Grows(b, c)
    ensures Grows(a, c)
  {
    hide Keeps;
    KeepsIsTransitive(a.ledger, b.ledger, c.ledger);
    forall g | g in a.grants
      ensures g in c.grants && GrantKept(a.grants[g], c.grants[g])
    {
      assert GrantKept(a.grants[g], b.grants[g]) && GrantKept(b.grants[g], c.grants[g]);
    }
    forall k | k in a.ops
      ensures k in c.ops && RecordKept(a.ops[k], c.ops[k])
    {
      assert RecordKept(a.ops[k], b.ops[k]) && RecordKept(b.ops[k], c.ops[k]);
    }
  }

  // ---------------------------------------------------------------- one transaction touches one grant

  /** Everything outside grant `g` is as before; history only gains entries of `g`. */
  ghost predicate OnlyGrant(w: World, after: World, g: GrantId) {
    && Keeps(w.ledger, after.ledger)
    && (forall h :: h != g ==> (h in after.grants <==> h in w.grants))
    && (forall h :: h != g && h in w.grants && h in after.grants ==> after.grants[h] == w.grants[h])
    && (forall k: Key :: k.grant != g ==> (k in after.ops <==> k in w.ops))
    && (forall k: Key :: k.grant != g && k in w.ops && k in after.ops ==> after.ops[k] == w.ops[k])
    && (after.births == w.births || (Childless(w, g) && exists r :: after.births == w.births + [Birth(g, r)]))
    && (|| after.applied == w.applied
        || exists k: Key :: k.grant == g && k !in w.applied && after.applied == w.applied + [k])
    && after.answers == w.answers
  }

  lemma OthersStayOk(w: World, after: World, g: GrantId, h: GrantId)
    requires StoreInv(w) && OnlyGrant(w, after, g) && h != g && h in w.grants
    ensures h in after.grants && GrantOk(after, h)
  {
    assert GrantOk(w, h);
    if w.grants[h].claimId.Some? {
      var k := Key(h, w.grants[h].claimId.value);
      if w.ops[k].phase in {Pending, Ready} {
        assert RunKept(w.ledger, after.ledger, w.ops[k].run.value);
        var i :| 0 <= i < |w.births| && w.births[i] == Birth(h, w.ops[k].run.value);
        assert after.births[i] == w.births[i];
      }
    }
  }

  lemma OtherRecordsStayOk(w: World, after: World, g: GrantId, k: Key)
    requires StoreInv(w) && OnlyGrant(w, after, g) && k.grant != g && k in after.ops
    ensures RecordOk(after, k)
  {
    hide Keeps, Childless;
    assert RecordOk(w, k);
  }

  /** The claim of `g` is what it was, or had not been decided. */
  predicate ClaimFollows(w: World, after: World, g: GrantId) {
    g in w.grants && w.grants[g].claimId.Some? ==>
      && g in after.grants && after.grants[g].claimId == w.grants[g].claimId
      && var k := Key(g, w.grants[g].claimId.value);
      k in w.ops && k in after.ops && (w.ops[k].phase in {Prepared, Pending} || after.ops[k] == w.ops[k])
  }

  lemma AnswersFollow(w: World, after: World, g: GrantId, a: Answer)
    requires StoreInv(w) && OnlyGrant(w, after, g) && ClaimFollows(w, after, g) && a in w.answers
    ensures AnswerOk(after, a)
  {
  }

  /** A transaction that is right about its own grant keeps the whole store right. */
  lemma TouchingOne(w: World, after: World, g: GrantId)
    requires StoreInv(w) && OnlyGrant(w, after, g) && ClaimFollows(w, after, g)
    requires g in after.grants && GrantOk(after, g)
    requires forall k: Key :: k in after.ops && k.grant == g ==> RecordOk(after, k)
    requires forall k: Key :: k in after.applied && k.grant == g ==>
               k in after.ops && after.ops[k].kind == CheckpointKind && after.ops[k].phase == Done_
    ensures StoreInv(after)
  {
    hide GrantOk, RecordOk, AnswerOk, ClaimFollows, Keeps;
    forall h | h in after.grants
      ensures GrantOk(after, h)
    {
      if h != g { OthersStayOk(w, after, g, h); }
    }
    forall k | k in after.ops
      ensures RecordOk(after, k)
    {
      if k.grant != g { OtherRecordsStayOk(w, after, g, k); }
    }
    forall a | a in after.answers
      ensures AnswerOk(after, a)
    {
      AnswersFollow(w, after, g, a);
    }
  }

  /** Its own grant and records are only moved on. */
  ghost predicate OwnKept(w: World, after: World, g: GrantId) {
    && (g in w.grants ==> g in after.grants && GrantKept(w.grants[g], after.grants[g]))
    && (forall k: Key :: k in w.ops && k.grant == g ==> k in after.ops && RecordKept(w.ops[k], after.ops[k]))
  }

  lemma OneGrantGrows(w: World, after: World, g: GrantId)
    requires OnlyGrant(w, after, g) && OwnKept(w, after, g)
    ensures Grows(w, after)
  {
    hide Keeps, Childless;
  }

  // ---------------------------------------------------------------- the transactions

  function Created(w: World, g: GrantId, spec: Spec): World {
    w.(grants := w.grants[g := Grant(spec, Issued, None, {})])
  }

  lemma Creating(w: World, g: GrantId, spec: Spec)
    requires StoreInv(w) && g !in w.grants
    ensures StoreInv(Created(w, g, spec)) && Grows(w, Created(w, g, spec))
  {
    hide Keeps, AnswerOk, RecordOk, Grows;
    var after := Created(w, g, spec);
    KeepsIsReflexive(w.ledger);
    UnknownGrantsAreChildless(w, g);
    TouchingOne(w, after, g);
    hide Childless, GrantOk, StoreInv;
    OneGrantGrows(w, after, g);
  }

  lemma UnknownGrantsAreChildless(w: World, g: GrantId)
    requires StoreInv(w) && g !in w.grants
    ensures Childless(w, g)
    ensures forall k: Key :: k in w.ops ==> k.grant != g
  {
  }

  function RevokedBy(w: World, g: GrantId): World
    requires g in w.grants
  {
    w.(grants := w.grants[g := w.grants[g].(status := Revoked)])
  }

  lemma Revoking(w: World, g: GrantId)
    requires StoreInv(w) && g in w.grants && w.grants[g].status == Issued
    ensures StoreInv(RevokedBy(w, g)) && Grows(w, RevokedBy(w, g))
  {
    hide StoreInv, RecordOk, Keeps;
    KeepsIsReflexive(w.ledger);
    IssuedHasNoRecords(w, g);
    assert Childless(RevokedBy(w, g), g);
    hide Childless;
    TouchingOne(w, RevokedBy(w, g), g);
  }

  lemma IssuedHasNoRecords(w: World, g: GrantId)
    requires StoreInv(w) && g in w.grants && w.grants[g].status == Issued
    ensures forall k: Key :: k in w.ops ==> k.grant != g
    ensures forall k: Key :: k in w.applied ==> k.grant != g
    ensures Childless(w, g) && w.grants[g].checkpoints == {} && w.grants[g].claimId.None?
  {
  }

  const CLAIM_FINGERPRINT := "claim"

  /** The first transaction of a claim. */
  function ReservedBy(w: World, g: GrantId, op: string): World
    requires g in w.grants
  {
    w.(grants := w.grants[g := w.grants[g].(status := Held_, claimId := Some(op))],
       ops := w.ops[Key(g, op) := Record(ClaimKind, CLAIM_FINGERPRINT, Prepared, None, "lifecycle_unknown")])
  }

  lemma ReservingKeepsGrant(w: World, g: GrantId, op: string)
    requires StoreInv(w) && g in w.grants && w.grants[g].status == Issued
    ensures GrantOk(ReservedBy(w, g, op), g)
  {
  }

  lemma ReservingTouchesOne(w: World, g: GrantId, op: string)
    requires g in w.grants && w.grants[g].status == Issued && w.grants[g].claimId.None?
    requires forall k: Key :: k in w.ops ==> k.grant != g
    ensures OnlyGrant(w, ReservedBy(w, g, op), g) && OwnKept(w, ReservedBy(w, g, op), g)
  {
  }

  lemma Reserving(w: World, g: GrantId, op: string)
    requires StoreInv(w) && g in w.grants && w.grants[g].status == Issued
    ensures StoreInv(ReservedBy(w, g, op)) && Grows(w, ReservedBy(w, g, op))
  {
    hide StoreInv, GrantOk, Keeps, Childless, OnlyGrant, OwnKept, Grows;
    var after := ReservedBy(w, g, op);
    ReservingKeepsGrant(w, g, op);
    IssuedHasNoRecords(w, g);
    ReservingTouchesOne(w, g, op);
    assert after.applied == w.applied;
    TouchingOne(w, after, g);
    OneGrantGrows(w, after, g);
  }

  lemma HeldHasOneRecord(w: World, g: GrantId)
    requires StoreInv(w) && g in w.grants && w.grants[g].claimId.Some?
    ensures forall k: Key :: k in w.ops && k.grant == g && w.ops[k].kind == ClaimKind ==>
              k.op == w.grants[g].claimId.value
    ensures w.grants[g].checkpoints == {} ==>
              forall k: Key :: k in w.ops && k.grant == g ==> k.op == w.grants[g].claimId.value
    ensures forall k: Key :: k in w.applied && k.grant == g ==> k.op in w.grants[g].checkpoints
  {
  }

  /** The claim is still the caller's own: reserved under its id and not decided. */
  predicate StillHeld(w: World, g: GrantId, op: string) {
    && g in w.grants && w.grants[g].status == Held_ && w.grants[g].claimId == Some(op)
    && Key(g, op) in w.ops
    && w.ops[Key(g, op)] == Record(ClaimKind, CLAIM_FINGERPRINT, Prepared, None, "lifecycle_unknown")
  }

  /** The second transaction of a claim, refusing. */
  function RefusedBy(w: World, g: GrantId, op: string, code: string): World
    requires StillHeld(w, g, op)
  {
    w.(grants := w.grants[g := w.grants[g].(status := Consumed)],
       ops := w.ops[Key(g, op) := w.ops[Key(g, op)].(phase := Refused_, code := code)])
  }

  lemma Refusing(w: World, g: GrantId, op: string, code: string)
    requires StoreInv(w) && StillHeld(w, g, op)
    ensures StoreInv(RefusedBy(w, g, op, code)) && Grows(w, RefusedBy(w, g, op, code))
  {
    var after := RefusedBy(w, g, op, code);
    RefusingTouchesOne(w, g, op, code);
    RefusingKeepsGrant(w, g, op, code);
    hide StoreInv, GrantOk, OnlyGrant, OwnKept, ClaimFollows, Grows;
    HeldHasOneRecord(w, g);
    TouchingOne(w, after, g);
    OneGrantGrows(w, after, g);
  }

  lemma RefusingTouchesOne(w: World, g: GrantId, op: string, code: string)
    requires StillHeld(w, g, op)
    ensures var after := RefusedBy(w, g, op, code);
            && OnlyGrant(w, after, g) && OwnKept(w, after, g)
            && ClaimFollows(w, after, g)
  {
  }

  lemma RefusingKeepsGrant(w: World, g: GrantId, op: string, code: string)
    requires StoreInv(w) && StillHeld(w, g, op)
    ensures GrantOk(RefusedBy(w, g, op, code), g) && w.grants[g].checkpoints == {}
  {
  }

  /** The second transaction of a claim, inserting the run. */
  function ClaimedBy(w: World, g: GrantId, op: string, r: RunId, lease: string): World
    requires StillHeld(w, g, op) && w.grants[g].spec.task in w.ledger.tasks
  {
    w.(ledger := Claimed(w.ledger, w.grants[g].spec.task, r, lease),
       grants := w.grants[g := w.grants[g].(status := Consumed)],
       ops := w.ops[Key(g, op) := w.ops[Key(g, op)].(phase := Pending, run := Some(r))],
       births := w.births + [Birth(g, r)])
  }

  lemma Claiming(w: World, g: GrantId, op: string, r: RunId, lease: string)
    requires LifecycleInv(w) && StillHeld(w, g, op)
    requires var spec := w.grants[g].spec;
            && Claimable(w.ledger, spec.task, r)
            && Attempts(w.ledger, spec.task) + 1 == spec.attempt
    ensures LifecycleInv(ClaimedBy(w, g, op, r, lease)) && Grows(w, ClaimedBy(w, g, op, r, lease))
  {
    hide LedgerState.Inv, StoreInv, GrantOk, OnlyGrant, OwnKept, ClaimFollows, Grows, Keeps, Claimed, Attempts,
         WriterFree, Childless;
    var after := ClaimedBy(w, g, op, r, lease);
    ClaimingKeepsInv(w.ledger, w.grants[g].spec.task, r, lease);
    RefusingKeepsGrant(w, g, op, "");
    HeldIsChildless(w, g, op);
    ClaimingTouchesOne(w, g, op, r, lease);
    ClaimingKeepsGrant(w, g, op, r, lease);
    HeldHasOneRecord(w, g);
    TouchingOne(w, after, g);
    OneGrantGrows(w, after, g);
  }

  lemma HeldIsChildless(w: World, g: GrantId, op: string)
    requires StoreInv(w) && StillHeld(w, g, op)
    ensures Childless(w, g)
  {
  }

  lemma ClaimingTouchesOne(w: World, g: GrantId, op: string, r: RunId, lease: string)
    requires StillHeld(w, g, op) && w.grants[g].spec.task in w.ledger.tasks && Childless(w, g)
    requires Keeps(w.ledger, Claimed(w.ledger, w.grants[g].spec.task, r, lease))
    ensures var after := ClaimedBy(w, g, op, r, lease);
            && OnlyGrant(w, after, g) && OwnKept(w, after, g)
            && ClaimFollows(w, after, g)
  {
    hide Keeps, Claimed, Childless;
  }

  lemma ClaimingKeepsGrant(w: World, g: GrantId, op: string, r: RunId, lease: string)
    requires LifecycleInv(w) && StillHeld(w, g, op)
    requires var spec := w.grants[g].spec;
            && Claimable(w.ledger, spec.task, r)
            && Attempts(w.ledger, spec.task) + 1 == spec.attempt
    ensures GrantOk(ClaimedBy(w, g, op, r, lease), g)
  {
    hide LedgerState.Inv, WriterFree, Attempts, RecordOk, AnswerOk;
    assert GrantOk(w, g);
    hide StoreInv, Childless, Keeps;
    assert ClaimedBy(w, g, op, r, lease).births[|w.births|] == Birth(g, r);
  }

  predicate IsPending(w: World, g: GrantId, op: string, r: RunId) {
    && g in w.grants && w.grants[g].status == Consumed && w.grants[g].claimId == Some(op)
    && Key(g, op) in w.ops && w.ops[Key(g, op)].kind == ClaimKind && w.ops[Key(g, op)].phase == Pending
    && w.ops[Key(g, op)].run == Some(r)
  }

  /** The third transaction of a claim: the capability is published and checked. */
  function ReadyBy(w: World, g: GrantId, op: string): World
    requires Key(g, op) in w.ops
  {
    w.(ops := w.ops[Key(g, op) := w.ops[Key(g, op)].(phase := Ready, code := "lifecycle_claimed")])
  }

  lemma Readying(w: World, g: GrantId, op: string, r: RunId)
    requires StoreInv(w) && IsPending(w, g, op, r)
    ensures StoreInv(ReadyBy(w, g, op)) && Grows(w, ReadyBy(w, g, op))
  {
    var after := ReadyBy(w, g, op);
    ReadyingTouchesOne(w, g, op, r);
    ReadyingKeepsGrant(w, g, op, r);
    ReadyingKeepsRecords(w, g, op, r);
    hide StoreInv, GrantOk, RecordOk, OnlyGrant, OwnKept, ClaimFollows, Grows;
    TouchingOne(w, after, g);
    OneGrantGrows(w, after, g);
  }

  lemma ReadyingTouchesOne(w: World, g: GrantId, op: string, r: RunId)
    requires IsPending(w, g, op, r)
    ensures var after := ReadyBy(w, g, op); OnlyGrant(w, after, g) && OwnKept(w, after, g) && ClaimFollows(w, after, g)
  {
  }

  lemma ReadyingKeepsRecords(w: World, g: GrantId, op: string, r: RunId)
    requires StoreInv(w) && IsPending(w, g, op, r)
    ensures var after := ReadyBy(w, g, op);
            && g in after.grants
            && (forall k: Key :: k in after.ops && k.grant == g ==> RecordOk(after, k))
            && (forall k: Key :: k in after.applied && k.grant == g ==>
                  k in after.ops && after.ops[k].kind == CheckpointKind && after.ops[k].phase == Done_)
  {
  }

  lemma ReadyingKeepsGrant(w: World, g: GrantId, op: string, r: RunId)
    requires StoreInv(w) && IsPending(w, g, op, r)
    ensures GrantOk(ReadyBy(w, g, op), g)
  {
  }

  predicate IsReady(w: World, g: GrantId, r: RunId) {
    && g in w.grants && w.grants[g].status == Consumed && w.grants[g].claimId.Some?
    && Key(g, w.grants[g].claimId.value) in w.ops && w.ops[Key(g, w.grants[g].claimId.value)].kind == ClaimKind
    && w.ops[Key(g, w.grants[g].claimId.value)].phase == Ready
    && w.ops[Key(g, w.grants[g].claimId.value)].run == Some(r)
  }

  /** The first transaction of a checkpoint. */
  function AnchoredBy(w: World, g: GrantId, op: string, fingerprint: string, r: RunId): World
    requires g in w.grants
  {
    w.(grants := w.grants[g := w.grants[g].(checkpoints := w.grants[g].checkpoints + {op})],
       ops := w.ops[Key(g, op) := Record(CheckpointKind, fingerprint, Prepared, Some(r), "lifecycle_unknown")])
  }

  lemma Anchoring(w: World, g: GrantId, op: string, fingerprint: string, r: RunId)
    requires StoreInv(w) && IsReady(w, g, r) && Key(g, op) !in w.ops && |w.grants[g].checkpoints| < CHECKPOINT_MAX
    ensures StoreInv(AnchoredBy(w, g, op, fingerprint, r)) && Grows(w, AnchoredBy(w, g, op, fingerprint, r))
  {
    var after := AnchoredBy(w, g, op, fingerprint, r);
    AnchoringTouchesOne(w, g, op, fingerprint, r);
    AnchoringKeepsGrant(w, g, op, fingerprint, r);
    AnchoringKeepsRecords(w, g, op, fingerprint, r);
    hide StoreInv, GrantOk, RecordOk, OnlyGrant, OwnKept, ClaimFollows, Grows;
    TouchingOne(w, after, g);
    OneGrantGrows(w, after, g);
  }

  lemma AnchoringTouchesOne(w: World, g: GrantId, op: string, fingerprint: string, r: RunId)
    requires IsReady(w, g, r) && Key(g, op) !in w.ops
    ensures var after := AnchoredBy(w, g, op, fingerprint, r);
            OnlyGrant(w, after, g) && OwnKept(w, after, g) && ClaimFollows(w, after, g)
  {
  }

  lemma AnchoringKeepsGrant(w: World, g: GrantId, op: string, fingerprint: string, r: RunId)
    requires StoreInv(w) && IsReady(w, g, r) && Key(g, op) !in w.ops && |w.grants[g].checkpoints| < CHECKPOINT_MAX
    ensures GrantOk(AnchoredBy(w, g, op, fingerprint, r), g)
  {
    hide RecordOk, AnswerOk, Childless, RunOf;
    assert GrantOk(w, g);
    hide StoreInv;
    OneMore(w.grants[g].checkpoints, op);
  }

  lemma OneMore(checkpoints: set<string>, op: string)
    ensures |checkpoints + {op}| <= |checkpoints| + 1
  {
    if op in checkpoints { assert checkpoints + {op} == checkpoints; }
  }

  lemma AnchoringKeepsRecords(w: World, g: GrantId, op: string, fingerprint: string, r: RunId)
    requires StoreInv(w) && IsReady(w, g, r) && Key(g, op) !in w.ops
    ensures var after := AnchoredBy(w, g, op, fingerprint, r);
            && (forall k: Key :: k in after.ops && k.grant == g ==> RecordOk(after, k))
            && (forall k: Key :: k in after.applied && k.grant == g ==>
                  k in after.ops && after.ops[k].kind == CheckpointKind && after.ops[k].phase == Done_)
  {
    hide GrantOk, AnswerOk;
    var after := AnchoredBy(w, g, op, fingerprint, r);
    forall k: Key | k in after.ops && k.grant == g
      ensures RecordOk(after, k)
    {
      if k.op != op { assert RecordOk(w, k); }
    }
  }

  predicate IsAnchored(w: World, g: GrantId, op: string, fingerprint: string, r: RunId) {
    && IsReady(w, g, r) && Key(g, op) in w.ops
    && w.ops[Key(g, op)] == Record(CheckpointKind, fingerprint, Prepared, Some(r), "lifecycle_unknown")
  }

  /** The second transaction of a checkpoint applies it and says so in one commit. */
  function AppliedBy(w: World, g: GrantId, op: string, r: RunId): World
    requires Key(g, op) in w.ops
  {
    w.(ledger := w.ledger.(checkpoints := w.ledger.checkpoints + {r}),
       ops := w.ops[Key(g, op) := w.ops[Key(g, op)].(phase := Done_, code := "lifecycle_checkpointed")],
       applied := w.applied + [Key(g, op)])
  }

  lemma Applying(w: World, g: GrantId, op: string, fingerprint: string, r: RunId)
    requires LifecycleInv(w) && IsAnchored(w, g, op, fingerprint, r)
    ensures LifecycleInv(AppliedBy(w, g, op, r)) && Grows(w, AppliedBy(w, g, op, r))
  {
    var after := AppliedBy(w, g, op, r);
    SettingsKeepInv(w.ledger, w.ledger.checkpoints + {r}, w.ledger.paused, w.ledger.pausedProjects);
    ApplyingTouchesOne(w, g, op, fingerprint, r);
    ApplyingKeepsGrant(w, g, op, fingerprint, r);
    ApplyingKeepsRecords(w, g, op, fingerprint, r);
    hide LedgerState.Inv, StoreInv, GrantOk, RecordOk, OnlyGrant, OwnKept, ClaimFollows, Grows;
    TouchingOne(w, after, g);
    OneGrantGrows(w, after, g);
  }

  lemma ApplyingTouchesOne(w: World, g: GrantId, op: string, fingerprint: string, r: RunId)
    requires LifecycleInv(w) && IsAnchored(w, g, op, fingerprint, r)
    ensures var after := AppliedBy(w, g, op, r);
            && OnlyGrant(w, after, g) && OwnKept(w, after, g)
            && ClaimFollows(w, after, g)
  {
    hide Keeps, Childless, LedgerState.Inv, GrantOk, AnswerOk;
    SettingsKeepInv(w.ledger, w.ledger.checkpoints + {r}, w.ledger.paused, w.ledger.pausedProjects);
    assert RecordOk(w, Key(g, op));
    hide StoreInv;
  }

  lemma ApplyingKeepsGrant(w: World, g: GrantId, op: string, fingerprint: string, r: RunId)
    requires LifecycleInv(w) && IsAnchored(w, g, op, fingerprint, r)
    ensures GrantOk(AppliedBy(w, g, op, r), g)
  {
    hide LedgerState.Inv;
    assert GrantOk(w, g);
    hide StoreInv;
  }

  lemma ApplyingKeepsRecords(w: World, g: GrantId, op: string, fingerprint: string, r: RunId)
    requires LifecycleInv(w) && IsAnchored(w, g, op, fingerprint, r)
    ensures var after := AppliedBy(w, g, op, r);
            && (forall k: Key :: k in after.ops && k.grant == g ==> RecordOk(after, k))
            && (forall k: Key :: k in after.applied && k.grant == g ==>
                  k in after.ops && after.ops[k].kind == CheckpointKind && after.ops[k].phase == Done_)
  {
    hide LedgerState.Inv, GrantOk, AnswerOk;
    var after := AppliedBy(w, g, op, r);
    forall k: Key | k in after.ops && k.grant == g
      ensures RecordOk(after, k)
    {
      assert RecordOk(w, k);
    }
    forall k: Key | k in after.applied && k.grant == g
      ensures k in after.ops && after.ops[k].kind == CheckpointKind && after.ops[k].phase == Done_
    {
      if k != Key(g, op) { assert k in w.applied; }
    }
  }

  /** What `_result` makes of a record. */
  function ResultOf(r: Record): Result {
    match r.phase
    case Ready => if r.run.Some? then Succeeded(r.run.value) else Unknown
    case Done_ => if r.run.Some? then Succeeded(r.run.value) else Unknown
    case Refused_ => Refused(r.code)
    case _ => Unknown
  }

  lemma Answering(w: World, a: Answer)
    requires StoreInv(w) && AnswerOk(w, a)
    ensures StoreInv(w.(answers := w.answers + [a])) && Grows(w, w.(answers := w.answers + [a]))
  {
    hide Keeps;
    var after := w.(answers := w.answers + [a]);
    KeepsIsReflexive(w.ledger);
    SameButAnswers(w, after);
    hide GrantOk, RecordOk, AnswerOk;
  }

  lemma SameButAnswers(w: World, after: World)
    requires after == w.(answers := after.answers)
    ensures forall g :: g in w.grants ==> (GrantOk(after, g) <==> GrantOk(w, g))
    ensures forall k :: k in w.ops ==> (RecordOk(after, k) <==> RecordOk(w, k))
    ensures forall a :: AnswerOk(after, a) <==> AnswerOk(w, a)
  {
  }

  /** The ledger moves on by itself. */
  lemma LedgerMoves(w: World, ledger: State)
    requires LifecycleInv(w) && LedgerState.Inv(ledger) && Keeps(w.ledger, ledger)
    ensures LifecycleInv(w.(ledger := ledger)) && Grows(w, w.(ledger := ledger))
  {
    hide LedgerState.Inv, GrantOk, Keeps;
    var after := w.(ledger := ledger);
    forall g | g in w.grants
      ensures GrantOk(after, g)
    {
      LedgerMovesGrant(w, ledger, g);
    }
    forall k | k in after.ops
      ensures RecordOk(after, k)
    {
      assert RecordOk(w, k);
    }
    forall a | a in after.answers
      ensures AnswerOk(after, a)
    {
      assert AnswerOk(w, a);
    }
  }

  lemma LedgerMovesGrant(w: World, ledger: State, g: GrantId)
    requires Keeps(w.ledger, ledger) && g in w.grants && GrantOk(w, g)
    ensures GrantOk(w.(ledger := ledger), g)
  {
  }
}
