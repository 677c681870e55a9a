/** The durable state of one operator run, what every crash leaves true of it, and what it looks
    like at the kill points. */
module OperatorState {
  import opened Common
  import opened Relay

  /** The request of one model round of one turn. The attempt of that round carries the same name:
      both are derived from the turn and the round alone, without collisions. */
  datatype Id = RequestOf(turn: nat, round: nat)

  datatype KillPoint =
    | AfterReveal
    | AfterIngest
    | AfterRequestDispatch
    | TrustedReturnDurable
    | AfterReplyAuthenticated
    | AfterApplied

  /** Places between two durable writes where a process can die by itself. */
  datatype Place = BetweenRevealRows | BetweenIngestRows | BeforeCore | BeforeFinalise

  /** The state of a model attempt in Core. A receipt is kept beside it. */
  datatype Attempt = Admitted | Dispatching | InDoubt | Returned | Metered

  /** Everything the run reads but never changes: the events of the fixture, the number of model
      rounds of a turn, the request and reply bytes of a round, and whether a remote is authoritative. */
  datatype Script = Script(
    events: nat, rounds: nat -> nat, request: Id -> string, reply: Id -> string,
    labels: Id -> seq<string>, remote: bool, owner: Owner)

  datatype Disk = Disk(
    // release state
    next: nat, pending: bool,
    // ledger rows per cursor, and the current cursor
    revealed: set<nat>, revealedEvent: set<nat>, cursor: nat,
    ingestRef: set<nat>, ingestRevision: set<nat>, applied: set<nat>, ackReceipts: set<nat>,
    // relay journal and mailbox
    relay: Table<Id>, known: set<Id>, outbox: set<Id>, contexts: set<Id>,
    provider: seq<Id>, inbox: set<Id>, proofs: set<Id>,
    capabilities: seq<Id>,
    // World and Core
    observed: seq<nat>, attempts: map<nat, seq<Attempt>>, receipts: set<Id>, outputs: set<nat>,
    // sealed generations
    barrier: string, sealing: bool, sealed: nat, generation: nat)

  /** A run before its first event; the initial seal and barrier are done. */
  const FIRST: Disk :=
    Disk(next := 1, pending := false,
         revealed := {}, revealedEvent := {}, cursor := 0,
         ingestRef := {}, ingestRevision := {}, applied := {}, ackReceipts := {},
         relay := Empty(), known := {}, outbox := {}, contexts := {},
         provider := [], inbox := {}, proofs := {}, capabilities := [],
         observed := [], attempts := map[], receipts := {}, outputs := {},
         barrier := "INITIAL", sealing := false, sealed := 1, generation := 1)

  datatype Outcome<+T> = Done(value: T) | Stopped(reason: string) | Killed(point: KillPoint) | Dead
  {
    predicate IsFailure() { !Done? }
    function PropagateFailure<U>(): Outcome<U>
      requires !Done?
    {
      match this
      case Stopped(reason) => Stopped(reason)
      case Killed(point) => Killed(point)
      case Dead => Dead
    }
    function Extract(): T
      requires Done?
    {
      value
    }
  }

  ghost predicate ScriptOk(s: Script)
  {
    && (forall t :: s.rounds(t) >= 1)
    && (forall id :: s.reply(id) != "" && s.request(id) != "")
    && (forall id, i :: 0 <= i < |s.labels(id)| ==> HasText(s.labels(id)[i]))
    && HasText(s.owner.run) && HasText(s.owner.session)
  }

  function Meta(s: Script, id: Id, cursor: nat): Metadata<Id>
  {
    Metadata(id, id, id.round, cursor, s.owner.run, s.owner.session, s.labels(id))
  }

  function StageOf(s: Script, id: Id, cursor: nat, generation: nat): Operation<Id>
  {
    Stage(Meta(s, id, cursor), s.request(id), generation)
  }

  function AttemptsOf(d: Disk, t: nat): seq<Attempt>
  {
    if t in d.attempts then d.attempts[t] else []
  }

  function AttemptOf(d: Disk, id: Id): Option<Attempt>
  {
    if id.round < |AttemptsOf(d, id.turn)| then Some(AttemptsOf(d, id.turn)[id.round]) else None
  }

  function SetAttempt(d: Disk, id: Id, a: Attempt): Disk
  {
    var before := AttemptsOf(d, id.turn);
    if id.round < |before| then d.(attempts := d.attempts[id.turn := before[id.round := a]])
    else d.(attempts := d.attempts[id.turn := before + [a]])
  }

  /** The same attempts exist. */
  ghost predicate SameAttempts(d: Disk, e: Disk)
  {
    forall id :: AttemptOf(d, id).None? <==> AttemptOf(e, id).None?
  }

  /** An existing attempt changes its state, and no other attempt does. */
  lemma AttemptSet(d: Disk, id: Id, a: Attempt)
    requires AttemptOf(d, id).Some?
    ensures AttemptOf(SetAttempt(d, id, a), id) == Some(a)
    ensures SameAttempts(d, SetAttempt(d, id, a))
    ensures forall x :: x != id ==> AttemptOf(SetAttempt(d, id, a), x) == AttemptOf(d, x)
  {
  }

  // ------------------------------------------------------------ what every crash leaves true

  ghost predicate NoDuplicates(ids: seq<Id>)
  {
    forall i, j :: 0 <= i < j < |ids| ==> ids[i] != ids[j]
  }

  ghost predicate CursorsBounded(t: Table<Id>, next: nat)
  {
    forall id :: id in t.rows ==> t.rows[id].metadata.cursor <= next
  }

  /** No request of the cursor is exposed without a reply. */
  ghost predicate NoneOpen(t: Table<Id>, c: nat)
  {
    forall id :: id in t.rows && t.rows[id].state == Exposed ==> t.rows[id].metadata.cursor != c
  }

  /** Every cursor before the current one was applied, and none after it. */
  ghost predicate AppliedOk(applied: set<nat>, next: nat)
  {
    && (forall c :: c in applied ==> 1 <= c <= next)
    && (forall c :: 1 <= c < next ==> c in applied)
  }

  /** Commands are the first-dispatch commands ever sent: one per request at most, each for a request
      that was exposed before, and the provider's ledger has no other rows. */
  ghost predicate CommandsOk(commands: seq<Id>, t: Table<Id>, provider: seq<Id>)
  {
    && NoDuplicates(commands) && NoDuplicates(provider)
    && (forall id :: id in commands ==> id in t.rows && t.rows[id].state != Staged)
    && (forall id :: id in provider ==> id in commands)
  }

  /** Requests that an earlier cursor left behind without an ack. */
  ghost predicate UnackedOk(unacked: set<Id>, t: Table<Id>, next: nat)
  {
    forall id :: id in unacked ==> id in t.rows && t.rows[id].metadata.cursor < next && t.rows[id].state != Acked
  }

  ghost predicate SafeParts(
    next: nat, cursor: nat, t: Table<Id>, applied: set<nat>, provider: seq<Id>, commands: seq<Id>, unacked: set<Id>)
  {
    && next >= 1 && cursor <= next
    && WellFormed(t)
    && CursorsBounded(t, next)
    && AppliedOk(applied, next)
    && (next in applied ==> NoneOpen(t, next))
    && CommandsOk(commands, t, provider)
    && UnackedOk(unacked, t, next)
  }

  /** SafeParts behind a counter: the methods carry it as one fact and open it only where they need it. */
  ghost predicate SafeBehind(
    k: nat, next: nat, cursor: nat, t: Table<Id>, applied: set<nat>, provider: seq<Id>, commands: seq<Id>, unacked: set<Id>)
  {
    if k == 0 then SafeParts(next, cursor, t, applied, provider, commands, unacked)
    else SafeBehind(k - 1, next, cursor, t, applied, provider, commands, unacked)
  }

  ghost predicate Safe(d: Disk, commands: seq<Id>, unacked: set<Id>)
  {
    SafeBehind(4, d.next, d.cursor, d.relay, d.applied, d.provider, commands, unacked)
  }

  lemma {:induction false} SafeOpens(
    k: nat, next: nat, cursor: nat, t: Table<Id>, applied: set<nat>, provider: seq<Id>, commands: seq<Id>, unacked: set<Id>)
    ensures SafeBehind(k, next, cursor, t, applied, provider, commands, unacked) <==>
              SafeParts(next, cursor, t, applied, provider, commands, unacked)
  {
    if k > 0 {
      SafeOpens(k - 1, next, cursor, t, applied, provider, commands, unacked);
    }
  }

  lemma OpenSafe(d: Disk, commands: seq<Id>, unacked: set<Id>)
    ensures Safe(d, commands, unacked) <==> SafeParts(d.next, d.cursor, d.relay, d.applied, d.provider, commands, unacked)
  {
    SafeOpens(4, d.next, d.cursor, d.relay, d.applied, d.provider, commands, unacked);
  }

  lemma CommandsOnward(commands: seq<Id>, t: Table<Id>, u: Table<Id>, provider: seq<Id>)
    requires CommandsOk(commands, t, provider) && Onward(t, u)
    ensures CommandsOk(commands, u, provider)
  {
    forall id | id in commands ensures id in u.rows && u.rows[id].state != Staged {
      assert RowOnward(t.rows[id], u.rows[id]);
    }
  }

  lemma CursorsAfter(t: Table<Id>, owner: Owner, op: Operation<Id>, next: nat)
    requires WellFormed(t) && CursorsBounded(t, next) && (op.Stage? ==> op.metadata.cursor <= next)
    ensures CursorsBounded(After(t, owner, op), next)
  {
    if Step(t, owner, op).Ok? && !op.Stage? {
      MoveCases(t, t.rows[op.id], op);
    }
  }

  /** Only an exposure can open a request. */
  lemma OpenAfter(t: Table<Id>, owner: Owner, op: Operation<Id>, c: nat)
    requires NoneOpen(t, c) && !op.Expose?
    ensures NoneOpen(After(t, owner, op), c)
  {
  }

  /** Only an ack can ack. */
  lemma AckedOnly(t: Table<Id>, owner: Owner, op: Operation<Id>, id: Id)
    requires WellFormed(t) && id in t.rows && t.rows[id].state != Acked && !(op.MarkAcked? && op.id == id)
    ensures var u := After(t, owner, op);
            id in u.rows && u.rows[id].state != Acked && u.rows[id].metadata == t.rows[id].metadata
  {
    var u := After(t, owner, op);
    StepSameBut(t, owner, op, if op.Stage? then op.metadata.requestId else op.id);
    if !op.Stage? && op.id == id && Step(t, owner, op).Ok? {
      UnackedMove(t, t.rows[id], op);
    }
  }

  lemma UnackedMove(t: Table<Id>, row: Row<Id>, op: Operation<Id>)
    requires !op.Stage? && !op.MarkAcked? && op.id in t.rows && row == t.rows[op.id] && row.state != Acked
    requires MoveRow(t, row, op).Ok?
    ensures var u := MoveRow(t, row, op).value;
            op.id in u.rows && u.rows[op.id].state != Acked && u.rows[op.id].metadata == row.metadata
  {
  }

  lemma UnackedAfter(t: Table<Id>, owner: Owner, op: Operation<Id>, next: nat, unacked: set<Id>)
    requires WellFormed(t) && UnackedOk(unacked, t, next) && (op.MarkAcked? ==> op.id !in unacked)
    ensures UnackedOk(unacked, After(t, owner, op), next)
  {
    forall id | id in unacked
      ensures var u := After(t, owner, op);
              id in u.rows && u.rows[id].metadata.cursor < next && u.rows[id].state != Acked
    {
      AckedOnly(t, owner, op, id);
    }
  }

  /** A journal transaction keeps the run safe, an exposure as long as the cursor is not applied. */
  lemma RelayStepSafe(d: Disk, commands: seq<Id>, unacked: set<Id>, owner: Owner, op: Operation<Id>)
    requires Safe(d, commands, unacked)
    requires op.Stage? ==> op.metadata.cursor <= d.next
    requires op.Expose? ==> d.next !in d.applied
    requires op.MarkAcked? ==> op.id !in unacked
    ensures Safe(d.(relay := After(d.relay, owner, op)), commands, unacked)
    ensures Onward(d.relay, After(d.relay, owner, op))
  {
    OpenSafe(d, commands, unacked);
    OpenSafe(d.(relay := After(d.relay, owner, op)), commands, unacked);
    StepKeeps(d.relay, owner, op);
    CommandsOnward(commands, d.relay, After(d.relay, owner, op), d.provider);
    CursorsAfter(d.relay, owner, op, d.next);
    UnackedAfter(d.relay, owner, op, d.next, unacked);
    if d.next in d.applied {
      OpenAfter(d.relay, owner, op, d.next);
    }
  }

  lemma NoDuplicatesAppend(ids: seq<Id>, id: Id)
    requires NoDuplicates(ids) && id !in ids
    ensures NoDuplicates(ids + [id])
  {
  }

  lemma CommandSafe(d: Disk, commands: seq<Id>, unacked: set<Id>, id: Id)
    requires Safe(d, commands, unacked) && id !in commands && id in d.relay.rows && d.relay.rows[id].state != Staged
    ensures Safe(d, commands + [id], unacked)
  {
    OpenSafe(d, commands, unacked);
    OpenSafe(d, commands + [id], unacked);
    NoDuplicatesAppend(commands, id);
  }

  lemma DispatchSafe(d: Disk, commands: seq<Id>, unacked: set<Id>, id: Id)
    requires Safe(d, commands, unacked) && id !in d.provider && id in commands
    ensures Safe(d.(provider := d.provider + [id]), commands, unacked)
  {
    OpenSafe(d, commands, unacked);
    OpenSafe(d.(provider := d.provider + [id]), commands, unacked);
    NoDuplicatesAppend(d.provider, id);
  }

  lemma ApplySafe(d: Disk, commands: seq<Id>, unacked: set<Id>)
    requires Safe(d, commands, unacked) && NoneOpen(d.relay, d.next)
    ensures Safe(d.(applied := d.applied + {d.next}), commands, unacked)
  {
    OpenSafe(d, commands, unacked);
    OpenSafe(d.(applied := d.applied + {d.next}), commands, unacked);
  }

  lemma AdvanceSafe(d: Disk, commands: seq<Id>, unacked: set<Id>)
    requires Safe(d, commands, unacked) && d.next in d.applied
    ensures Safe(d.(next := d.next + 1, pending := false), commands, unacked)
  {
    OpenSafe(d, commands, unacked);
    OpenSafe(d.(next := d.next + 1, pending := false), commands, unacked);
  }

  /** The run waits for a reply that nobody may ask for again. */
  ghost predicate Stuck(d: Disk)
  {
    !NoneOpen(d.relay, d.next)
  }

  /** At most one request differs. */
  ghost predicate SameBut(t: Table<Id>, u: Table<Id>, id: Id)
  {
    forall x :: x != id ==> (x in t.rows <==> x in u.rows) && (x in t.rows ==> u.rows[x] == t.rows[x])
  }

  lemma StepSameBut(t: Table<Id>, owner: Owner, op: Operation<Id>, id: Id)
    requires id == if op.Stage? then op.metadata.requestId else op.id
    ensures SameBut(t, After(t, owner, op), id)
  {
    if !op.Stage? && op.id in t.rows && MoveRow(t, t.rows[op.id], op).Ok? {
      MoveTouches(t, t.rows[op.id], op);
    }
  }

  lemma MoveTouches(t: Table<Id>, row: Row<Id>, op: Operation<Id>)
    requires !op.Stage? && MoveRow(t, row, op).Ok?
    ensures var u := MoveRow(t, row, op).value; u.rows == t.rows || u.rows == t.rows[op.id := u.rows[op.id]]
  {
  }

  /** A request that can be staged was never dispatched, and once exposed its row says so. */
  lemma StagedIsNew(d: Disk, commands: seq<Id>, unacked: set<Id>, s: Script, id: Id, cursor: nat, generation: nat)
    requires Safe(d, commands, unacked) && Step(d.relay, s.owner, StageOf(s, id, cursor, generation)).Ok?
    ensures id !in commands
  {
    OpenSafe(d, commands, unacked);
  }

  lemma RepliedState(t: Table<Id>, owner: Owner, id: Id, reply: string)
    requires WellFormed(t) && Step(t, owner, StageReply(id, reply)).Ok?
    ensures var u := After(t, owner, StageReply(id, reply));
            id in u.rows && Rank(u.rows[id].state) >= Rank(ReplyStaged)
  {
    StepKeeps(t, owner, StageReply(id, reply));
    assert RowOk(t.rows[id]);
  }

  /** A reply closes the request it answers. */
  lemma ReplyCloses(t: Table<Id>, u: Table<Id>, id: Id, c: nat)
    requires SameBut(t, u, id) && id in u.rows && Rank(u.rows[id].state) >= Rank(ReplyStaged)
    ensures NoneOpen(t, c) ==> NoneOpen(u, c)
  {
  }

  lemma SameButTransitive(t: Table<Id>, u: Table<Id>, v: Table<Id>, id: Id)
    requires SameBut(t, u, id) && SameBut(u, v, id)
    ensures SameBut(t, v, id)
  {
  }

  /** Showing an exposed request again changes no row. */
  lemma OutstandingRows(t: Table<Id>, owner: Owner, id: Id)
    requires Step(t, owner, Outstanding(id)).Ok?
    ensures After(t, owner, Outstanding(id)).rows == t.rows && id in t.rows && t.rows[id].state != Staged
  {
  }

  // ------------------------------------------------------------ one complete exchange

  function StagedTable(s: Script, t: Table<Id>, id: Id, cursor: nat, generation: nat): Table<Id>
  {
    After(t, s.owner, StageOf(s, id, cursor, generation))
  }

  function ExposedTable(s: Script, t: Table<Id>, id: Id, cursor: nat, generation: nat): Table<Id>
  {
    After(StagedTable(s, t, id, cursor, generation), s.owner, Expose(id))
  }

  function RepliedTable(s: Script, t: Table<Id>, id: Id, cursor: nat, generation: nat): Table<Id>
  {
    After(ExposedTable(s, t, id, cursor, generation), s.owner, StageReply(id, s.reply(id)))
  }

  /** The journal accepts all three transactions of a new exchange. */
  predicate Exchangeable(s: Script, t: Table<Id>, id: Id, cursor: nat, generation: nat)
  {
    && Step(t, s.owner, StageOf(s, id, cursor, generation)).Ok?
    && Step(StagedTable(s, t, id, cursor, generation), s.owner, Expose(id)).Ok?
    && Step(ExposedTable(s, t, id, cursor, generation), s.owner, StageReply(id, s.reply(id))).Ok?
  }

  // ------------------------------------------------------------ settled rows

  /** At most one row differs, and that one has its reply before and after. */
  ghost predicate Settled(t: Table<Id>, u: Table<Id>, id: Id)
  {
    && SameBut(t, u, id) && id in t.rows && id in u.rows
    && u.rows[id].metadata == t.rows[id].metadata
    && Rank(t.rows[id].state) >= Rank(ReplyStaged) && Rank(u.rows[id].state) >= Rank(ReplyStaged)
  }

  lemma SettledStep(t: Table<Id>, owner: Owner, op: Operation<Id>, id: Id)
    requires WellFormed(t) && id in t.rows && Rank(t.rows[id].state) >= Rank(ReplyStaged)
    requires !op.Stage? && op.id == id
    ensures Settled(t, t, id) && Settled(t, After(t, owner, op), id)
  {
    StepKeeps(t, owner, op);
    StepSameBut(t, owner, op, id);
    assert RowOnward(t.rows[id], After(t, owner, op).rows[id]);
  }

  lemma SettledTransitive(t: Table<Id>, u: Table<Id>, v: Table<Id>, id: Id)
    requires Settled(t, u, id) && Settled(u, v, id)
    ensures Settled(t, v, id)
  {
  }

  // ------------------------------------------------------------ which requests are open

  /** The same requests, on the same cursors, are exposed without a reply. */
  ghost predicate SameOpen(t: Table<Id>, u: Table<Id>)
  {
    && t.rows.Keys == u.rows.Keys
    && forall id :: id in t.rows ==>
         && u.rows[id].metadata == t.rows[id].metadata
         && (u.rows[id].state == Exposed <==> t.rows[id].state == Exposed)
  }

  lemma SameOpenStep(t: Table<Id>, u: Table<Id>, v: Table<Id>, id: Id)
    requires SameOpen(t, u) && SameBut(u, v, id) && id in u.rows && id in v.rows
    requires v.rows[id].metadata == u.rows[id].metadata && (v.rows[id].state == Exposed <==> u.rows[id].state == Exposed)
    ensures SameOpen(t, v)
  {
  }

  lemma SameOpenTransitive(t: Table<Id>, u: Table<Id>, v: Table<Id>)
    requires SameOpen(t, u) && SameOpen(u, v)
    ensures SameOpen(t, v)
  {
  }

  lemma SameOpenStuck(t: Table<Id>, u: Table<Id>, c: nat)
    requires SameOpen(t, u)
    ensures NoneOpen(t, c) <==> NoneOpen(u, c)
  {
    if NoneOpen(u, c) {
      forall id | id in t.rows && t.rows[id].state == Exposed ensures t.rows[id].metadata.cursor != c {
        assert id in u.rows && u.rows[id].state == Exposed;
      }
    }
  }

  /** If no request of the cursor's listing was open, none is. */
  lemma AllSettled(t: Table<Id>, u: Table<Id>, ids: seq<Id>, c: nat)
    requires SameOpen(t, u)
    requires forall id :: id in t.rows && t.rows[id].metadata.cursor == c ==> id in ids
    requires forall j :: 0 <= j < |ids| ==> ids[j] in t.rows && t.rows[ids[j]].state != Exposed
    ensures NoneOpen(t, c) && NoneOpen(u, c)
  {
    SameOpenStuck(t, u, c);
  }

  lemma CursorSafe(d: Disk, commands: seq<Id>, unacked: set<Id>)
    requires Safe(d, commands, unacked)
    ensures Safe(d.(cursor := d.next), commands, unacked)
  {
    OpenSafe(d, commands, unacked);
    OpenSafe(d.(cursor := d.next), commands, unacked);
  }

  lemma KeysKept(t: Table<Id>, owner: Owner, op: Operation<Id>)
    requires !op.Stage? && op.id in t.rows
    ensures After(t, owner, op).rows.Keys == t.rows.Keys
  {
    if MoveRow(t, t.rows[op.id], op).Ok? {
      MoveTouches(t, t.rows[op.id], op);
    }
  }

  /** The request is exposed under the given cursor and has no reply. */
  ghost predicate Waits(t: Table<Id>, id: Id, cursor: nat)
  {
    id in t.rows && t.rows[id].state == Exposed && t.rows[id].metadata.cursor == cursor
  }

  lemma WaitingIsOpen(t: Table<Id>, id: Id, cursor: nat)
    requires Waits(t, id, cursor)
    ensures !NoneOpen(t, cursor)
  {
  }

  lemma StagedWaits(s: Script, t: Table<Id>, id: Id, cursor: nat, generation: nat)
    requires Step(t, s.owner, StageOf(s, id, cursor, generation)).Ok?
    requires Step(StagedTable(s, t, id, cursor, generation), s.owner, Expose(id)).Ok?
    ensures Waits(ExposedTable(s, t, id, cursor, generation), id, cursor)
  {
  }

  /** A stuck run has not applied its cursor. */
  lemma StuckNotApplied(d: Disk, commands: seq<Id>, unacked: set<Id>)
    requires Safe(d, commands, unacked) && Stuck(d)
    ensures d.next !in d.applied
  {
    OpenSafe(d, commands, unacked);
  }

  // ------------------------------------------------------------ processes

  /** One operator process: the writes left before it crashes by itself, a place where it crashes by
      itself, the kill point it is armed at, and whether provider and remote answer. */
  datatype Process = Process(
    fuse: Option<nat>, crashAt: Option<Place>, killAt: Option<KillPoint>, killRound: Option<nat>,
    providerUp: bool, remoteUp: bool)

  /** A kill at a frozen point, after which the local state may be wiped. */
  datatype Kill = Kill(point: KillPoint, round: Option<nat>, wipe: bool)

  function KilledBy(k: Kill): Process
  {
    Process(None, None, Some(k.point), k.round, true, true)
  }

  /** The kill comes right after the dispatch of one of the rounds. */
  predicate TakesDispatch(k: Kill, rounds: nat)
  {
    k.point == AfterRequestDispatch && (k.round.Some? ==> k.round.value < rounds)
  }

  function Undisturbed(): Process
  {
    Process(None, None, None, None, true, true)
  }

  function CrashedAt(place: Place): Process
  {
    Process(None, Some(place), None, None, true, true)
  }

  lemma InitialSafe()
    ensures Safe(FIRST, [], {})
  {
    OpenSafe(FIRST, [], {});
  }

  lemma Exposures(d: Disk)
    requires WellFormed(d.relay)
    ensures forall id :: id in d.relay.rows ==> d.relay.rows[id].exposures <= 1 && d.relay.rows[id].dispatches <= 1
  {
    forall id | id in d.relay.rows ensures d.relay.rows[id].exposures <= 1 && d.relay.rows[id].dispatches <= 1 {
      assert RowOk(d.relay.rows[id]);
    }
  }

  /** The terminal request of the cursor has not reached applied. */
  ghost predicate TerminalUnapplied(t: Table<Id>, c: nat)
  {
    && Known(t, t.order)
    && TerminalRequestId(t, Some(c)).Some?
    && (TerminalRequestId(t, Some(c)).value !in t.rows || t.rows[TerminalRequestId(t, Some(c)).value].state != Applied)
  }

  /** The requests of passed cursors that are not acked. */
  ghost function LeftBehind(d: Disk): set<Id>
  {
    set id | id in d.relay.rows && d.relay.rows[id].metadata.cursor < d.next && d.relay.rows[id].state != Acked
  }

  /** From here on these requests are watched. */
  lemma WatchLeftBehind(d: Disk, commands: seq<Id>, unacked: set<Id>)
    requires Safe(d, commands, unacked)
    ensures Safe(d, commands, LeftBehind(d))
  {
    OpenSafe(d, commands, unacked);
    OpenSafe(d, commands, LeftBehind(d));
  }

  lemma Unwatched(d: Disk, commands: seq<Id>, unacked: set<Id>)
    requires Safe(d, commands, unacked)
    ensures UnackedOk(unacked, d.relay, d.next)
  {
    OpenSafe(d, commands, unacked);
  }

  /** The terminal request of a cursor is none of those that were left behind before it. */
  lemma TerminalUnwatched(d: Disk, commands: seq<Id>, unacked: set<Id>, c: nat)
    requires Safe(d, commands, unacked) && UnackedOk(unacked, d.relay, c)
    ensures Known(d.relay, d.relay.order)
    ensures var id := TerminalRequestId(d.relay, Some(c)); id.Some? ==> id.value !in unacked && id.value in d.relay.rows
  {
    OpenSafe(d, commands, unacked);
    RequestIdsExact(d.relay, Some(c));
    TerminalIsLast(d.relay, Some(c));
    var ids := RequestIds(d.relay, Some(c));
    if ids != [] {
      assert ids[|ids| - 1] in ids;
    }
  }

  /** The ack of a terminal request is taken exactly if the request is applied. */
  lemma AckTaken(d: Disk, commands: seq<Id>, unacked: set<Id>, owner: Owner, id: Id, receipt: string)
    requires Safe(d, commands, unacked)
    ensures Step(d.relay, owner, MarkAcked(id, receipt)).Ok? <==> id in d.relay.rows && d.relay.rows[id].state == Applied
  {
    OpenSafe(d, commands, unacked);
    if id in d.relay.rows {
      assert RowOk(d.relay.rows[id]);
    }
  }

  // ------------------------------------------------------------ runs that cannot go on

  /** A reveal cut between its two ledger rows. */
  predicate TornReveal(d: Disk)
  {
    d.next in d.revealed && d.next !in d.revealedEvent
  }

  /** An ingest cut between its two ledger rows. */
  predicate TornIngest(d: Disk)
  {
    d.next in d.ingestRef && d.next !in d.ingestRevision
  }

  /** A request that has its reply while Core never admitted its attempt. */
  predicate Orphaned(d: Disk, id: Id)
  {
    && id in d.relay.rows && d.relay.rows[id].metadata.cursor == d.next && d.next !in d.applied
    && d.relay.rows[id].state in {ReplyStaged, Authenticated, Applying}
    && AttemptOf(d, id).None?
  }

  /** No later step can take this run to the next cursor. */
  ghost predicate Broken(d: Disk)
  {
    TornReveal(d) || TornIngest(d) || exists id :: Orphaned(d, id)
  }

  /** The cursor stands, nothing is applied, and the provider was told and asked nothing. */
  predicate Halted(d: Disk, e: Disk)
  {
    && e.next == d.next && e.applied == d.applied
    && e.outbox == d.outbox && e.provider == d.provider && e.inbox == d.inbox && e.proofs == d.proofs
  }

  ghost predicate OrphansKept(d: Disk, e: Disk)
  {
    forall id :: Orphaned(d, id) ==> Orphaned(e, id)
  }

  /** What was broken still is, and nothing came of it. */
  ghost predicate StaysBroken(d: Disk, e: Disk)
  {
    && Halted(d, e)
    && (TornReveal(d) ==> TornReveal(e)) && (TornIngest(d) ==> TornIngest(e)) && OrphansKept(d, e)
  }

  lemma StaysBrokenTransitive(d: Disk, e: Disk, f: Disk)
    requires StaysBroken(d, e) && StaysBroken(e, f)
    ensures StaysBroken(d, f)
  {
  }

  /** Recovery of another request, or of one that has an attempt, leaves the orphaned ones as they are. */
  lemma OrphansStep(d: Disk, e: Disk, id: Id)
    requires SameBut(d.relay, e.relay, id) && SameAttempts(d, e) && e.next == d.next && e.applied == d.applied
    requires Orphaned(d, id) ==> e.relay == d.relay
    ensures OrphansKept(d, e)
  {
  }

  lemma OrphansKeptTransitive(d: Disk, e: Disk, f: Disk)
    requires OrphansKept(d, e) && OrphansKept(e, f)
    ensures OrphansKept(d, f)
  {
  }

  /** An orphaned request is among those that recovery walks through. */
  lemma OrphansListed(d: Disk)
    requires WellFormed(d.relay)
    ensures forall id :: Orphaned(d, id) ==> id in RequestIds(d.relay, Some(d.next))
  {
    RequestIdsExact(d.relay, Some(d.next));
  }

  /** A turn recorded as applied whose terminal request is not, with everything before it in order. */
  ghost predicate HalfApplied(d: Disk)
  {
    && d.pending && d.next in d.revealed && d.next in d.revealedEvent
    && d.next in d.ingestRef && d.next in d.ingestRevision && d.next in d.observed
    && d.next in d.applied && d.next !in d.ackReceipts
    && TerminalUnapplied(d.relay, d.next)
  }

  lemma EveryPlace(place: Place)
    ensures place in {BetweenRevealRows, BetweenIngestRows, BeforeCore, BeforeFinalise}
  {
  }

  /** What a crash at the place leaves of a cursor that was not begun. */
  ghost predicate Leaves(place: Place, s: Script, d: Disk)
  {
    match place
    case BetweenRevealRows => TornReveal(d) && d.next !in d.applied
    case BetweenIngestRows => TornIngest(d) && d.next !in d.applied
    case BeforeCore => Orphaned(d, RequestOf(d.next, 0))
    case BeforeFinalise => HalfApplied(d) && LastUnfinished(s, d)
  }

  /** The terminal request of the cursor is the last round of its turn, neither applied nor acked. */
  ghost predicate LastUnfinished(s: Script, d: Disk)
    requires Known(d.relay, d.relay.order)
  {
    && s.rounds(d.next) >= 1
    && var id := RequestOf(d.next, s.rounds(d.next) - 1);
       && TerminalRequestId(d.relay, Some(d.next)) == Some(id)
       && id in d.relay.rows && d.relay.rows[id].metadata.cursor == d.next && d.relay.rows[id].state !in {Applied, Acked}
  }

  /** Once the cursor moved on, that request is left behind. */
  lemma LastIsLeftBehind(s: Script, d: Disk, e: Disk)
    requires Known(d.relay, d.relay.order) && LastUnfinished(s, d)
    requires e.relay == d.relay && e.next == d.next + 1
    ensures s.rounds(d.next) >= 1 && RequestOf(d.next, s.rounds(d.next) - 1) in LeftBehind(e)
  {
  }

  lemma LeavesBroken(place: Place, s: Script, d: Disk)
    requires Leaves(place, s, d) && place != BeforeFinalise
    ensures Broken(d)
  {
  }

  lemma LeavesStays(place: Place, s: Script, d: Disk, e: Disk)
    requires Leaves(place, s, d) && place != BeforeFinalise && StaysBroken(d, e)
    ensures Leaves(place, s, e)
  {
  }
}
