/** Where an undisturbed run stands: the exact durable state at the kill points, up to sealed
    generations, audit lines and the relay's middle states. */
module OperatorProgress {
  import opened Common
  import opened Relay
  import opened OperatorState

  function Rows(t: nat, m: nat): seq<Id>
  {
    if m == 0 then [] else Rows(t, m - 1) + [RequestOf(t, m - 1)]
  }

  /** One dispatch for every round of every turn before c, in order. */
  function AllRows(s: Script, c: nat): seq<Id>
  {
    if c <= 1 then [] else AllRows(s, c - 1) + Rows(c - 1, s.rounds(c - 1))
  }

  /** One capability call for every round but the last of every turn before c, in order. */
  function AllCapabilities(s: Script, c: nat): seq<Id>
  {
    if c <= 1 then [] else AllCapabilities(s, c - 1) + Rows(c - 1, if s.rounds(c - 1) > 0 then s.rounds(c - 1) - 1 else 0)
  }

  lemma {:induction false} RowsMembers(t: nat, m: nat, id: Id)
    ensures id in Rows(t, m) <==> id.turn == t && id.round < m
  {
    if m > 0 {
      RowsMembers(t, m - 1, id);
    }
  }

  ghost predicate UpTo(s: set<nat>, n: int)
  {
    forall x :: x in s <==> 1 <= x <= n
  }

  /** 1, 2, ..., n: one observation for every event, in order. */
  function Numbers(n: nat): (r: seq<nat>)
    ensures |r| == n && forall i :: 0 <= i < n ==> r[i] == i + 1
  {
    if n == 0 then [] else Numbers(n - 1) + [n]
  }

  /** The rounds of turn c in the relay: still being worked on, the last one only replied to, or all applied. */
  datatype Level = Working | Replied | Finalised

  predicate Current(state: State, round: nat, m: nat, level: Level)
  {
    match level
    case Finalised => state == Applied
    case Working => state == Authenticated || state == Applying
    case Replied => if round + 1 == m then state == ReplyStaged else state == Authenticated || state == Applying
  }

  predicate Present(s: Script, id: Id, c: nat, m: nat)
  {
    (1 <= id.turn < c && id.round < s.rounds(id.turn)) || (id.turn == c && id.round < m)
  }

  ghost predicate RowAt(s: Script, row: Row<Id>, id: Id, c: nat, m: nat, level: Level)
  {
    && row.metadata == Meta(s, id, id.turn)
    && row.reply == Some(s.reply(id))
    && if id.turn < c then row.state == (if id.round + 1 == s.rounds(id.turn) then Acked else Applied)
       else Current(row.state, id.round, m, level)
  }

  ghost predicate RelayAt(s: Script, t: Table<Id>, c: nat, m: nat, level: Level)
  {
    && WellFormed(t)
    && (forall id :: id in t.rows <==> Present(s, id, c, m))
    && (forall id :: id in t.rows ==> RowAt(s, t.rows[id], id, c, m, level))
  }

  /** One more round: staged, exposed and replied to. */
  lemma StageAt(s: Script, t: Table<Id>, c: nat, m: nat, generation: nat)
    requires ScriptOk(s) && RelayAt(s, t, c, m, Working) && c >= 1
    ensures var id := RequestOf(c, m);
            var u := After(t, s.owner, StageOf(s, id, c, generation));
            && Step(t, s.owner, StageOf(s, id, c, generation)).Ok?
            && WellFormed(u) && u.rows == t.rows[id := NewRow(Meta(s, id, c), s.request(id), generation)]
  {
    var id := RequestOf(c, m);
    StepKeeps(t, s.owner, StageOf(s, id, c, generation));
    assert id !in t.rows by {
      assert !Present(s, id, c, m);
    }
    forall x | x in t.rows ensures t.rows[x].metadata.attemptId != id {
      assert RowAt(s, t.rows[x], x, c, m, Working);
    }
  }

  lemma ReplyAt(s: Script, t: Table<Id>, c: nat, m: nat, generation: nat)
    requires ScriptOk(s) && RelayAt(s, t, c, m, Working) && c >= 1
    ensures Exchangeable(s, t, RequestOf(c, m), c, generation)
    ensures RelayAt(s, RepliedTable(s, t, RequestOf(c, m), c, generation), c, m + 1, Replied)
  {
    var id := RequestOf(c, m);
    var u, v := StagedTable(s, t, id, c, generation), ExposedTable(s, t, id, c, generation);
    var w := RepliedTable(s, t, id, c, generation);
    StageAt(s, t, c, m, generation);
    ExposeThenReply(u, v, w, s.owner, id, s.reply(id));
    RepliedRows(s, t, u, w, c, m, generation);
  }

  lemma RepliedRows(s: Script, t: Table<Id>, u: Table<Id>, w: Table<Id>, c: nat, m: nat, generation: nat)
    requires RelayAt(s, t, c, m, Working) && WellFormed(w)
    requires var id := RequestOf(c, m);
             && u.rows == t.rows[id := NewRow(Meta(s, id, c), s.request(id), generation)]
             && id in w.rows && w.rows == u.rows[id := w.rows[id]]
             && w.rows[id].metadata == u.rows[id].metadata && w.rows[id].reply == Some(s.reply(id)) && w.rows[id].state == ReplyStaged
    ensures RelayAt(s, w, c, m + 1, Replied)
  {
    RowsGrow(s, t, w, c, m);
  }

  lemma ExposeThenReply(u: Table<Id>, v: Table<Id>, w: Table<Id>, owner: Owner, id: Id, reply: string)
    requires WellFormed(u) && id in u.rows && u.rows[id].state == Staged && u.rows[id].reply.None? && reply != ""
    requires v == After(u, owner, Expose(id)) && w == After(v, owner, StageReply(id, reply))
    ensures Step(u, owner, Expose(id)).Ok? && Step(v, owner, StageReply(id, reply)).Ok?
    ensures WellFormed(w) && id in w.rows && w.rows == u.rows[id := w.rows[id]]
    ensures w.rows[id].metadata == u.rows[id].metadata && w.rows[id].reply == Some(reply) && w.rows[id].state == ReplyStaged
  {
    ExposeRow(u, v, owner, id);
    ReplyRow(v, w, owner, id, reply);
  }

  lemma ExposeRow(u: Table<Id>, v: Table<Id>, owner: Owner, id: Id)
    requires WellFormed(u) && id in u.rows && u.rows[id].state == Staged && v == After(u, owner, Expose(id))
    ensures Step(u, owner, Expose(id)).Ok? && WellFormed(v) && id in v.rows && v.rows == u.rows[id := v.rows[id]]
    ensures v.rows[id].metadata == u.rows[id].metadata && v.rows[id].reply == u.rows[id].reply && v.rows[id].state == Exposed
  {
    StepKeeps(u, owner, Expose(id));
  }

  lemma ReplyRow(v: Table<Id>, w: Table<Id>, owner: Owner, id: Id, reply: string)
    requires WellFormed(v) && id in v.rows && v.rows[id].state == Exposed && v.rows[id].reply.None? && reply != ""
    requires w == After(v, owner, StageReply(id, reply))
    ensures Step(v, owner, StageReply(id, reply)).Ok? && WellFormed(w) && id in w.rows && w.rows == v.rows[id := w.rows[id]]
    ensures w.rows[id].metadata == v.rows[id].metadata && w.rows[id].reply == Some(reply) && w.rows[id].state == ReplyStaged
  {
    StepKeeps(v, owner, StageReply(id, reply));
  }

  lemma RowsGrow(s: Script, t: Table<Id>, w: Table<Id>, c: nat, m: nat)
    requires RelayAt(s, t, c, m, Working) && WellFormed(w)
    requires RequestOf(c, m) in w.rows && w.rows == t.rows[RequestOf(c, m) := w.rows[RequestOf(c, m)]]
    requires RowAt(s, w.rows[RequestOf(c, m)], RequestOf(c, m), c, m + 1, Replied)
    ensures RelayAt(s, w, c, m + 1, Replied)
  {
    forall id ensures id in w.rows <==> Present(s, id, c, m + 1) {
      assert id in t.rows <==> Present(s, id, c, m);
    }
    forall id | id in w.rows ensures RowAt(s, w.rows[id], id, c, m + 1, Replied) {
      if id != RequestOf(c, m) {
        assert RowAt(s, t.rows[id], id, c, m, Working);
      }
    }
  }

  /** One row changes its state within what the level allows. */
  lemma RowMoves(s: Script, t: Table<Id>, u: Table<Id>, id: Id, c: nat, m: nat, level: Level, next: Level)
    requires RelayAt(s, t, c, m, level) && WellFormed(u) && id in t.rows && id in u.rows
    requires u.rows == t.rows[id := u.rows[id]]
    requires RowAt(s, u.rows[id], id, c, m, next)
    requires forall x :: x in t.rows && x != id ==> RowAt(s, t.rows[x], x, c, m, next)
    ensures RelayAt(s, u, c, m, next)
  {
  }

  lemma AuthenticateRow(t: Table<Id>, owner: Owner, id: Id, receipt: string)
    requires WellFormed(t) && id in t.rows && t.rows[id].state == ReplyStaged
    ensures var u := After(t, owner, MarkAuthenticated(id, receipt));
            && Step(t, owner, MarkAuthenticated(id, receipt)).Ok? && WellFormed(u)
            && u.rows == t.rows[id := t.rows[id].(coreReceipt := Some(receipt), state := Authenticated)]
  {
    StepKeeps(t, owner, MarkAuthenticated(id, receipt));
  }

  lemma AuthenticateAt(s: Script, t: Table<Id>, c: nat, m: nat, receipt: string)
    requires RelayAt(s, t, c, m + 1, Replied)
    ensures var op := MarkAuthenticated(RequestOf(c, m), receipt);
            Step(t, s.owner, op).Ok? && RelayAt(s, After(t, s.owner, op), c, m + 1, Working)
  {
    var id := RequestOf(c, m);
    assert Present(s, id, c, m + 1);
    assert RowAt(s, t.rows[id], id, c, m + 1, Replied);
    AuthenticateRow(t, s.owner, id, receipt);
    LastAuthenticated(s, t, After(t, s.owner, MarkAuthenticated(id, receipt)), c, m);
  }

  lemma LastAuthenticated(s: Script, t: Table<Id>, u: Table<Id>, c: nat, m: nat)
    requires RelayAt(s, t, c, m + 1, Replied) && WellFormed(u)
    requires var id := RequestOf(c, m);
             && id in t.rows && id in u.rows && u.rows == t.rows[id := u.rows[id]]
             && u.rows[id].metadata == t.rows[id].metadata && u.rows[id].reply == t.rows[id].reply && u.rows[id].state == Authenticated
    ensures RelayAt(s, u, c, m + 1, Working)
  {
    var id := RequestOf(c, m);
    assert RowAt(s, t.rows[id], id, c, m + 1, Replied);
    forall x | x in t.rows && x != id ensures RowAt(s, t.rows[x], x, c, m + 1, Working) {
      assert RowAt(s, t.rows[x], x, c, m + 1, Replied);
    }
    RowMoves(s, t, u, id, c, m + 1, Replied, Working);
  }

  lemma ApplyingAt(s: Script, t: Table<Id>, id: Id, c: nat, m: nat)
    requires RelayAt(s, t, c, m, Working) && id in t.rows && id.turn == c && t.rows[id].state == Authenticated
    ensures Step(t, s.owner, BeginApplying(id)).Ok? && RelayAt(s, After(t, s.owner, BeginApplying(id)), c, m, Working)
  {
    StepKeeps(t, s.owner, BeginApplying(id));
    assert RowAt(s, t.rows[id], id, c, m, Working);
    RowMoves(s, t, After(t, s.owner, BeginApplying(id)), id, c, m, Working, Working);
  }

  lemma OutstandingAt(s: Script, t: Table<Id>, id: Id, c: nat, m: nat, level: Level)
    requires RelayAt(s, t, c, m, level) && id in t.rows
    ensures Step(t, s.owner, Outstanding(id)).Ok? && RelayAt(s, After(t, s.owner, Outstanding(id)), c, m, level)
    ensures After(t, s.owner, Outstanding(id)).rows == t.rows
  {
    StepKeeps(t, s.owner, Outstanding(id));
    assert RowAt(s, t.rows[id], id, c, m, level);
  }

  /** Finalising: the rows already handled are applied, the others wait. */
  ghost predicate FinalisingAt(s: Script, t: Table<Id>, c: nat, m: nat, handled: seq<Id>)
  {
    && WellFormed(t)
    && (forall id :: id in t.rows <==> Present(s, id, c, m))
    && (forall id :: id in t.rows ==>
          RowAt(s, t.rows[id], id, c, m, if id.turn == c && id in handled then Finalised else Working))
  }

  lemma AppliedRow(t: Table<Id>, owner: Owner, id: Id)
    requires WellFormed(t) && id in t.rows && (t.rows[id].state == Authenticated || t.rows[id].state == Applying)
    ensures var u := After(t, owner, MarkApplied(id));
            && Step(t, owner, MarkApplied(id)).Ok? && WellFormed(u) && u.rows == t.rows[id := t.rows[id].(state := Applied)]
  {
    StepKeeps(t, owner, MarkApplied(id));
  }

  lemma MarkAppliedAt(s: Script, t: Table<Id>, id: Id, c: nat, m: nat, handled: seq<Id>)
    requires FinalisingAt(s, t, c, m, handled) && id in t.rows && id.turn == c && id !in handled
    ensures Step(t, s.owner, MarkApplied(id)).Ok?
    ensures FinalisingAt(s, After(t, s.owner, MarkApplied(id)), c, m, handled + [id])
  {
    assert RowAt(s, t.rows[id], id, c, m, Working);
    AppliedRow(t, s.owner, id);
    OneMoreApplied(s, t, After(t, s.owner, MarkApplied(id)), id, c, m, handled);
  }

  lemma OneMoreApplied(s: Script, t: Table<Id>, u: Table<Id>, id: Id, c: nat, m: nat, handled: seq<Id>)
    requires FinalisingAt(s, t, c, m, handled) && id in t.rows && id.turn == c && id !in handled
    requires WellFormed(u) && u.rows == t.rows[id := t.rows[id].(state := Applied)]
    ensures FinalisingAt(s, u, c, m, handled + [id])
  {
    forall x | x in u.rows ensures RowAt(s, u.rows[x], x, c, m, if x.turn == c && x in handled + [id] then Finalised else Working) {
      assert RowAt(s, t.rows[x], x, c, m, if x.turn == c && x in handled then Finalised else Working);
    }
  }

  /** The requests of the cursor are the rounds of the turn that are present. */
  lemma RequestsOfTurn(s: Script, t: Table<Id>, c: nat, m: nat, level: Level)
    requires RelayAt(s, t, c, m, level) && c >= 1
    ensures Known(t, t.order)
    ensures forall id :: id in RequestIds(t, Some(c)) <==> id.turn == c && id.round < m
    ensures NoDuplicates(RequestIds(t, Some(c)))
  {
    RequestIdsExact(t, Some(c));
    var ids := RequestIds(t, Some(c));
    forall id ensures id in ids <==> id.turn == c && id.round < m {
      assert id in t.rows <==> Present(s, id, c, m);
      if id in t.rows {
        assert RowAt(s, t.rows[id], id, c, m, level);
      }
    }
    OnceIsDistinct(ids);
  }

  lemma {:induction false} OnceIsDistinct(ids: seq<Id>)
    requires forall id :: multiset(ids)[id] <= 1
    ensures NoDuplicates(ids)
  {
    if ids != [] {
      var front, last := ids[..|ids| - 1], ids[|ids| - 1];
      assert ids == front + [last];
      forall id ensures multiset(front)[id] <= 1 {
        assert multiset(ids)[id] <= 1;
      }
      OnceIsDistinct(front);
      assert multiset(ids)[last] == multiset(front)[last] + 1;
      assert last !in multiset(front);
    }
  }

  lemma FinalisedAt(s: Script, t: Table<Id>, c: nat, m: nat, handled: seq<Id>)
    requires FinalisingAt(s, t, c, m, handled)
    requires forall id :: id in handled <==> id.turn == c && id.round < m
    ensures RelayAt(s, t, c, m, Finalised)
  {
    forall id | id in t.rows ensures RowAt(s, t.rows[id], id, c, m, Finalised) {
      assert Present(s, id, c, m);
      assert RowAt(s, t.rows[id], id, c, m, if id.turn == c && id in handled then Finalised else Working);
    }
  }

  lemma StartFinalising(s: Script, t: Table<Id>, c: nat, m: nat)
    requires RelayAt(s, t, c, m, Working)
    ensures FinalisingAt(s, t, c, m, [])
  {
  }

  /** The terminal request of a turn is its last round. */
  lemma TerminalOfTurn(s: Script, t: Table<Id>, c: nat, m: nat, level: Level)
    requires RelayAt(s, t, c, m, level) && c >= 1 && m >= 1
    ensures Known(t, t.order) && TerminalRequestId(t, Some(c)) == Some(RequestOf(c, m - 1))
  {
    RequestsOfTurn(s, t, c, m, level);
    RequestIdsExact(t, Some(c));
    TerminalIsLast(t, Some(c));
    assert RequestOf(c, m - 1) in RequestIds(t, Some(c));
    LastHasTopRound(s, t, RequestIds(t, Some(c)), c, m, level);
  }

  lemma LastHasTopRound(s: Script, t: Table<Id>, ids: seq<Id>, c: nat, m: nat, level: Level)
    requires RelayAt(s, t, c, m, level) && m >= 1 && Sorted(t, ids) && RequestOf(c, m - 1) in ids
    requires forall id :: id in ids ==> id.turn == c && id.round < m
    ensures ids[|ids| - 1] == RequestOf(c, m - 1)
  {
    var top, last := RequestOf(c, m - 1), ids[|ids| - 1];
    var i :| 0 <= i < |ids| && ids[i] == top;
    assert last in ids;
    assert RowAt(s, t.rows[top], top, c, m, level) && RowAt(s, t.rows[last], last, c, m, level);
    assert RoundOf(t, top) <= RoundOf(t, last);
  }

  /** Acking the last round closes the turn. */
  lemma AckAt(s: Script, t: Table<Id>, c: nat, receipt: string)
    requires ScriptOk(s) && RelayAt(s, t, c, s.rounds(c), Finalised) && c >= 1
    ensures var op := MarkAcked(RequestOf(c, s.rounds(c) - 1), receipt);
            Step(t, s.owner, op).Ok? && RelayAt(s, After(t, s.owner, op), c + 1, 0, Working)
  {
    var id := RequestOf(c, s.rounds(c) - 1);
    var op := MarkAcked(id, receipt);
    assert Present(s, id, c, s.rounds(c));
    assert RowAt(s, t.rows[id], id, c, s.rounds(c), Finalised);
    AckRow(t, s.owner, id, receipt);
    TurnCloses(s, t, After(t, s.owner, op), c);
  }

  lemma AckRow(t: Table<Id>, owner: Owner, id: Id, receipt: string)
    requires WellFormed(t) && id in t.rows && t.rows[id].state == Applied
    ensures var u := After(t, owner, MarkAcked(id, receipt));
            && Step(t, owner, MarkAcked(id, receipt)).Ok? && WellFormed(u)
            && u.rows == t.rows[id := t.rows[id].(ackReceipt := Some(receipt), state := Acked)]
  {
    StepKeeps(t, owner, MarkAcked(id, receipt));
  }

  lemma TurnCloses(s: Script, t: Table<Id>, u: Table<Id>, c: nat)
    requires ScriptOk(s) && RelayAt(s, t, c, s.rounds(c), Finalised) && c >= 1 && WellFormed(u)
    requires var id := RequestOf(c, s.rounds(c) - 1);
             id in t.rows && id in u.rows && u.rows == t.rows[id := u.rows[id]]
             && u.rows[id].metadata == t.rows[id].metadata && u.rows[id].reply == t.rows[id].reply && u.rows[id].state == Acked
    ensures RelayAt(s, u, c + 1, 0, Working)
  {
    forall x ensures x in u.rows <==> Present(s, x, c + 1, 0) {
      assert x in t.rows <==> Present(s, x, c, s.rounds(c));
    }
    forall x | x in u.rows ensures RowAt(s, u.rows[x], x, c + 1, 0, Working) {
      assert Present(s, x, c, s.rounds(c));
      assert RowAt(s, t.rows[x], x, c, s.rounds(c), Finalised);
    }
  }

  // ------------------------------------------------------------ the whole state

  ghost predicate LedgersAt(d: Disk, c: nat, revealed: bool, ingested: bool, applied: bool)
  {
    && c >= 1 && d.next == c && d.pending == revealed
    && d.cursor == (if revealed then c else c - 1)
    && UpTo(d.revealed, d.cursor) && UpTo(d.revealedEvent, d.cursor)
    && d.observed == Numbers(if ingested then c else c - 1)
    && UpTo(d.ingestRef, if ingested then c else c - 1) && UpTo(d.ingestRevision, if ingested then c else c - 1)
    && UpTo(d.applied, if applied then c else c - 1) && UpTo(d.outputs, if applied then c else c - 1)
    && UpTo(d.ackReceipts, c - 1)
  }

  /** The mailbox and the provider know exactly the m rounds of turn c; the first r of them have receipts. */
  ghost predicate MailAt(s: Script, d: Disk, c: nat, m: nat, r: nat)
  {
    && d.known == d.relay.rows.Keys && d.outbox == d.relay.rows.Keys
    && d.provider == AllRows(s, c) + Rows(c, m)
    && forall id :: id in d.receipts <==> Present(s, id, c, r)
  }

  ghost predicate CoreAt(d: Disk, c: nat, n: nat, last: Attempt)
  {
    && |AttemptsOf(d, c)| == n
    && (forall i :: 0 <= i < n - 1 ==> AttemptsOf(d, c)[i] == Metered)
    && (n > 0 ==> AttemptsOf(d, c)[n - 1] == last)
    && (forall t :: t > c ==> t !in d.attempts)
  }

  ghost predicate CapabilitiesAt(s: Script, d: Disk, c: nat, k: nat)
  {
    d.capabilities == AllCapabilities(s, c) + Rows(c, k)
  }

  ghost predicate SealedAt(d: Disk)
  {
    !d.sealing && d.generation == d.sealed
  }

  /** Only the seals and the barrier record differ. */
  predicate SealsOnly(a: Disk, b: Disk)
  {
    b == a.(barrier := b.barrier, sealing := b.sealing, sealed := b.sealed, generation := b.generation)
  }

  /** A place inside turn c: m rounds in the relay, n attempts in Core, k capability calls made. */
  datatype Spot = Spot(c: nat, m: nat, level: Level, n: nat, last: Attempt, k: nat)

  ghost predicate InTurn(s: Script, d: Disk, w: Spot)
  {
    && ScriptOk(s)
    && LedgersAt(d, w.c, true, true, false)
    && RelayAt(s, d.relay, w.c, w.m, w.level)
    && MailAt(s, d, w.c, w.m, if w.level == Replied && w.m > 0 then w.m - 1 else w.m)
    && CoreAt(d, w.c, w.n, w.last)
    && CapabilitiesAt(s, d, w.c, w.k)
  }

  /** InTurn behind a counter, for the methods that only pass it on. */
  ghost predicate InTurnBehind(i: nat, s: Script, d: Disk, w: Spot)
  {
    if i == 0 then InTurn(s, d, w) else InTurnBehind(i - 1, s, d, w)
  }

  ghost predicate Sits(s: Script, d: Disk, w: Spot)
  {
    SealedAt(d) && InTurnBehind(4, s, d, w)
  }

  lemma {:induction false} InTurnOpens(i: nat, s: Script, d: Disk, w: Spot)
    ensures InTurnBehind(i, s, d, w) <==> InTurn(s, d, w)
  {
    if i > 0 {
      InTurnOpens(i - 1, s, d, w);
    }
  }

  lemma Open(s: Script, d: Disk, w: Spot)
    ensures Sits(s, d, w) <==> SealedAt(d) && InTurn(s, d, w)
  {
    InTurnOpens(4, s, d, w);
  }

  /** How far the current cursor got. */
  datatype Progress = Progress(revealed: bool, ingested: bool, rounds: nat, capabilities: nat, metered: bool, applied: bool)

  const START := Progress(false, false, 0, 0, true, false)

  ghost predicate ProgressOk(s: Script, c: nat, p: Progress)
  {
    && (p.ingested ==> p.revealed) && (p.rounds > 0 ==> p.ingested)
    && p.capabilities <= p.rounds <= p.capabilities + 1 <= s.rounds(c)
    && (p.rounds == 0 ==> p.metered)
    && (p.rounds > 0 && p.capabilities == p.rounds ==> p.metered)
    && (p.applied ==> p.rounds == s.rounds(c) && p.metered)
  }

  ghost predicate At(s: Script, d: Disk, c: nat, p: Progress)
  {
    && ScriptOk(s) && ProgressOk(s, c, p)
    && LedgersAt(d, c, p.revealed, p.ingested, p.applied)
    && RelayAt(s, d.relay, c, p.rounds, if p.applied then Finalised else Working)
    && MailAt(s, d, c, p.rounds, p.rounds)
    && CoreAt(d, c, p.rounds, if p.metered then Metered else Returned)
    && CapabilitiesAt(s, d, c, p.capabilities)
  }

  ghost predicate AtBehind(i: nat, s: Script, d: Disk, c: nat, p: Progress)
  {
    if i == 0 then At(s, d, c, p) else AtBehind(i - 1, s, d, c, p)
  }

  /** The run stands at cursor c with progress p: the durable state at a kill point. */
  ghost predicate Stands(s: Script, d: Disk, c: nat, p: Progress)
  {
    SealedAt(d) && AtBehind(4, s, d, c, p)
  }

  lemma {:induction false} AtOpens(i: nat, s: Script, d: Disk, c: nat, p: Progress)
    ensures AtBehind(i, s, d, c, p) <==> At(s, d, c, p)
  {
    if i > 0 {
      AtOpens(i - 1, s, d, c, p);
    }
  }

  lemma OpenAt(s: Script, d: Disk, c: nat, p: Progress)
    ensures Stands(s, d, c, p) <==> SealedAt(d) && At(s, d, c, p)
  {
    AtOpens(4, s, d, c, p);
  }

  lemma SealsKeepAt(s: Script, d: Disk, e: Disk, c: nat, p: Progress)
    requires Stands(s, d, c, p) && SealsOnly(d, e) && SealedAt(e)
    ensures Stands(s, e, c, p)
  {
    OpenAt(s, d, c, p);
    OpenAt(s, e, c, p);
  }

  lemma SealsKeep(s: Script, d: Disk, e: Disk, w: Spot)
    requires Sits(s, d, w) && SealsOnly(d, e) && SealedAt(e)
    ensures Sits(s, e, w)
  {
    Open(s, d, w);
    Open(s, e, w);
  }

  // ------------------------------------------------------------ reveal and ingest

  lemma RevealShape(s: Script, d: Disk, c: nat, p: Progress)
    requires Stands(s, d, c, p)
    ensures d.next == c >= 1 && (d.pending <==> p.revealed)
    ensures (c in d.revealed <==> p.revealed) && (c in d.revealedEvent <==> p.revealed)
    ensures (c in d.ingestRef <==> p.ingested) && (c in d.ingestRevision <==> p.ingested) && (c in d.observed <==> p.ingested)
    ensures (c in d.applied <==> p.applied) && c !in d.ackReceipts && (p.revealed ==> d.cursor == c)
  {
    OpenAt(s, d, c, p);
  }

  lemma Held(s: set<nat>, c: nat)
    ensures c in s ==> s + {c} == s
  {
  }

  lemma RevealedAt(s: Script, d: Disk, e: Disk, c: nat, p: Progress)
    requires Stands(s, d, c, p) && SealedAt(e)
    requires e == d.(pending := true, cursor := c, revealed := d.revealed + {c}, revealedEvent := d.revealedEvent + {c})
    ensures Stands(s, e, c, p.(revealed := true))
  {
    OpenAt(s, d, c, p);
    OpenAt(s, e, c, p.(revealed := true));
  }

  lemma IngestedAt(s: Script, d: Disk, e: Disk, c: nat, p: Progress)
    requires Stands(s, d, c, p) && SealedAt(e) && p.revealed
    requires e == d.(observed := if p.ingested then d.observed else d.observed + [c],
                     ingestRef := d.ingestRef + {c}, ingestRevision := d.ingestRevision + {c})
    ensures Stands(s, e, c, p.(ingested := true))
  {
    OpenAt(s, d, c, p);
    OpenAt(s, e, c, p.(ingested := true));
  }

  // ------------------------------------------------------------ places inside a turn

  /** Before round r: every earlier round is metered; round 0 was primed before Core started. */
  function ReadySpot(c: nat, r: nat): Spot
  {
    if r == 0 then Spot(c, 1, Replied, 0, Metered, 0) else Spot(c, r, Working, r, Metered, r)
  }

  /** Round r is dispatched in Core; its reply is staged; its trusted return is taken. */
  function AskedSpot(id: Id): Spot
  {
    ReadySpot(id.turn, id.round).(n := id.round + 1, last := Dispatching)
  }

  function SentSpot(id: Id): Spot
  {
    Spot(id.turn, id.round + 1, Replied, id.round + 1, Dispatching, id.round)
  }

  function ReturnedSpot(id: Id): Spot
  {
    Spot(id.turn, id.round + 1, Working, id.round + 1, Returned, id.round)
  }

  /** The return of the round is taken; its metering and its capability call may be done already. */
  predicate ToApply(s: Script, w: Spot, id: Id)
  {
    && id.turn == w.c && w.m == id.round + 1 && w.level == Working && w.n == w.m && w.m <= s.rounds(w.c)
    && (w.last == Returned || w.last == Metered)
    && (w.k == id.round || (w.k == id.round + 1 < s.rounds(w.c) && w.last == Metered))
  }

  /** Where Core can enter a turn: only primed, or with the return of its latest round taken. */
  predicate Entry(s: Script, w: Spot, t: nat)
  {
    w == ReadySpot(t, 0) || (w.c == t && w.m > 0 && ToApply(s, w, RequestOf(t, w.m - 1)))
  }

  /** After round r. The last round makes no capability call. */
  function DoneSpot(s: Script, c: nat, r: nat): Spot
  {
    Spot(c, r + 1, Working, r + 1, Metered, if r + 1 < s.rounds(c) then r + 1 else r)
  }

  /** Before round r, or after the last one. */
  function RoundSpot(s: Script, c: nat, r: nat): Spot
  {
    if r == 0 || r < s.rounds(c) then ReadySpot(c, r) else DoneSpot(s, c, r - 1)
  }

  /** The place in the turn that a later process finds. */
  function SpotOf(c: nat, p: Progress): Spot
  {
    Spot(c, p.rounds, Working, p.rounds, if p.metered then Metered else Returned, p.capabilities)
  }

  lemma StandsInTurn(s: Script, d: Disk, c: nat, p: Progress)
    requires Stands(s, d, c, p) && p.ingested && !p.applied
    ensures Sits(s, d, SpotOf(c, p)) && p.rounds <= s.rounds(c) && s.rounds(c) >= 1
    ensures p.rounds > 0 ==> Entry(s, SpotOf(c, p), c)
    ensures p.rounds == 0 ==> SpotOf(c, p) == Spot(c, 0, Working, 0, Metered, 0)
  {
    OpenAt(s, d, c, p);
    Open(s, d, SpotOf(c, p));
  }

  /** A later process can go on from here. */
  ghost predicate Resumable(s: Script, d: Disk, c: nat)
  {
    exists p :: Stands(s, d, c, p)
  }

  lemma SpotResumes(s: Script, d: Disk, w: Spot, id: Id)
    requires Sits(s, d, w) && ToApply(s, w, id)
    ensures Resumable(s, d, w.c)
  {
    var p := Progress(true, true, w.m, w.k, w.last == Metered, false);
    Open(s, d, w);
    OpenAt(s, d, w.c, p);
    assert Stands(s, d, w.c, p);
  }

  // ------------------------------------------------------------ exchanges

  /** What an undisturbed exchange of a new request leaves. */
  ghost predicate Sent(s: Script, d: Disk, e: Disk, id: Id, cursor: nat)
  {
    && e.relay == RepliedTable(s, d.relay, id, cursor, d.generation)
    && e.known == d.known + {id} && e.outbox == d.outbox + {id} && e.provider == d.provider + [id]
    && SealedAt(e)
    && e == d.(relay := e.relay, known := e.known, outbox := e.outbox, provider := e.provider, inbox := e.inbox,
               proofs := e.proofs, barrier := e.barrier, sealed := e.sealed, generation := e.generation)
  }

  /** The request is the next one of the turn. */
  predicate IsNextRequest(w: Spot, id: Id, cursor: nat)
  {
    w.level == Working && id == RequestOf(w.c, w.m) && cursor == w.c
  }

  lemma SentAt(s: Script, d: Disk, e: Disk, w: Spot, id: Id, cursor: nat)
    requires Sits(s, d, w) && IsNextRequest(w, id, cursor) && Sent(s, d, e, id, cursor)
    ensures Sits(s, e, w.(m := w.m + 1, level := Replied))
  {
    Open(s, d, w);
    ReplyAt(s, d.relay, w.c, w.m, d.generation);
    SentParts(s, d, e, w, id);
    Open(s, e, w.(m := w.m + 1, level := Replied));
  }

  lemma SentParts(s: Script, d: Disk, e: Disk, w: Spot, id: Id)
    requires InTurn(s, d, w) && w.level == Working && id == RequestOf(w.c, w.m)
    requires RelayAt(s, e.relay, w.c, w.m + 1, Replied)
    requires e.known == d.known + {id} && e.outbox == d.outbox + {id} && e.provider == d.provider + [id]
    requires e == d.(relay := e.relay, known := e.known, outbox := e.outbox, provider := e.provider, inbox := e.inbox,
                     proofs := e.proofs, barrier := e.barrier, sealed := e.sealed, generation := e.generation)
    ensures InTurn(s, e, w.(m := w.m + 1, level := Replied))
  {
    KeysGrow(s, d.relay, e.relay, w.c, w.m);
    MailGrows(s, d, e, w.c, w.m, id);
    RestKept(s, d, e, w.c, w.n, w.last, w.k);
  }

  lemma MailGrows(s: Script, d: Disk, e: Disk, c: nat, m: nat, id: Id)
    requires MailAt(s, d, c, m, m) && id == RequestOf(c, m)
    requires e.known == d.known + {id} && e.outbox == d.outbox + {id} && e.provider == d.provider + [id]
    requires e.receipts == d.receipts && e.relay.rows.Keys == d.relay.rows.Keys + {id}
    ensures MailAt(s, e, c, m + 1, m)
  {
  }

  lemma RestKept(s: Script, d: Disk, e: Disk, c: nat, n: nat, last: Attempt, k: nat)
    requires LedgersAt(d, c, true, true, false) && CoreAt(d, c, n, last) && CapabilitiesAt(s, d, c, k)
    requires e == d.(relay := e.relay, known := e.known, outbox := e.outbox, provider := e.provider, inbox := e.inbox,
                     proofs := e.proofs, receipts := e.receipts, barrier := e.barrier, sealed := e.sealed, generation := e.generation)
    ensures LedgersAt(e, c, true, true, false) && CoreAt(e, c, n, last) && CapabilitiesAt(s, e, c, k)
  {
  }

  lemma KeysGrow(s: Script, t: Table<Id>, u: Table<Id>, c: nat, m: nat)
    requires RelayAt(s, t, c, m, Working) && RelayAt(s, u, c, m + 1, Replied)
    ensures u.rows.Keys == t.rows.Keys + {RequestOf(c, m)}
  {
    forall id ensures id in u.rows <==> id in t.rows || id == RequestOf(c, m) {
      assert Present(s, id, c, m + 1) <==> Present(s, id, c, m) || id == RequestOf(c, m);
    }
  }

  /** The next request of the turn is new everywhere, and the journal takes it. */
  lemma NewRequest(s: Script, d: Disk, w: Spot, id: Id, cursor: nat)
    requires Sits(s, d, w) && IsNextRequest(w, id, cursor)
    ensures id !in d.known && id !in d.outbox && id !in d.provider
    ensures Exchangeable(s, d.relay, id, cursor, d.generation)
  {
    Open(s, d, w);
    assert !Present(s, id, w.c, w.m);
    RowsMembers(w.c, w.m, id);
    EarlierRows(s, w.c, id);
    ReplyAt(s, d.relay, w.c, w.m, d.generation);
  }

  lemma {:induction false} EarlierRows(s: Script, c: nat, id: Id)
    ensures id in AllRows(s, c) ==> id.turn < c
    ensures id in AllCapabilities(s, c) ==> id.turn < c
  {
    if c > 1 {
      EarlierRows(s, c - 1, id);
      RowsMembers(c - 1, s.rounds(c - 1), id);
      RowsMembers(c - 1, if s.rounds(c - 1) > 0 then s.rounds(c - 1) - 1 else 0, id);
    }
  }

  /** A request of the turn that has its reply is shown again without any change but an audit line. */
  lemma KnownRequest(s: Script, d: Disk, w: Spot, id: Id)
    requires Sits(s, d, w) && id.turn == w.c && id.round < w.m
    ensures id in d.known && id in d.outbox && id in d.relay.rows && Rank(d.relay.rows[id].state) >= Rank(ReplyStaged)
    ensures Sits(s, d.(relay := After(d.relay, s.owner, Outstanding(id))), w)
  {
    Open(s, d, w);
    Open(s, d.(relay := After(d.relay, s.owner, Outstanding(id))), w);
    assert Present(s, id, w.c, w.m);
    OutstandingAt(s, d.relay, id, w.c, w.m, w.level);
    assert RowAt(s, d.relay.rows[id], id, w.c, w.m, w.level);
  }

  // ------------------------------------------------------------ Core's steps

  lemma AttemptAdded(s: Script, d: Disk, w: Spot, a: Attempt)
    requires Sits(s, d, w) && (w.n > 0 ==> w.last == Metered)
    ensures AttemptOf(d, RequestOf(w.c, w.n)).None? && |AttemptsOf(d, w.c)| == w.n
    ensures Sits(s, SetAttempt(d, RequestOf(w.c, w.n), a), w.(n := w.n + 1, last := a))
  {
    Open(s, d, w);
    Open(s, SetAttempt(d, RequestOf(w.c, w.n), a), w.(n := w.n + 1, last := a));
  }

  lemma AttemptMoves(s: Script, d: Disk, w: Spot, a: Attempt)
    requires Sits(s, d, w) && w.n > 0
    ensures AttemptOf(d, RequestOf(w.c, w.n - 1)) == Some(w.last)
    ensures Sits(s, SetAttempt(d, RequestOf(w.c, w.n - 1), a), w.(last := a))
  {
    Open(s, d, w);
    Open(s, SetAttempt(d, RequestOf(w.c, w.n - 1), a), w.(last := a));
  }

  /** A new attempt, admitted and dispatched. */
  lemma AttemptBegins(s: Script, d: Disk, id: Id, e: Disk)
    requires Sits(s, d, ReadySpot(id.turn, id.round))
    requires e == SetAttempt(SetAttempt(d, id, Admitted), id, Dispatching).(contexts := e.contexts)
    ensures Sits(s, e, AskedSpot(id))
  {
    var w := ReadySpot(id.turn, id.round);
    AttemptAdded(s, d, w, Admitted);
    AttemptMoves(s, SetAttempt(d, id, Admitted), w.(n := w.n + 1, last := Admitted), Dispatching);
    Open(s, SetAttempt(SetAttempt(d, id, Admitted), id, Dispatching), AskedSpot(id));
    Open(s, e, AskedSpot(id));
  }

  /** A capability key is in the ledger exactly when the call was made. */
  lemma CapabilityKnown(s: Script, d: Disk, w: Spot, id: Id)
    requires Sits(s, d, w) && id.turn == w.c
    ensures id in d.capabilities <==> id.round < w.k
  {
    Open(s, d, w);
    RowsMembers(w.c, w.k, id);
    EarlierRows(s, w.c, id);
  }

  lemma CapabilityAdded(s: Script, d: Disk, w: Spot, id: Id)
    requires Sits(s, d, w) && id == RequestOf(w.c, w.k)
    ensures Sits(s, d.(capabilities := d.capabilities + [id]), w.(k := w.k + 1))
  {
    Open(s, d, w);
    Open(s, d.(capabilities := d.capabilities + [id]), w.(k := w.k + 1));
  }

  lemma SameKeys(s: Script, t: Table<Id>, u: Table<Id>, c: nat, m: nat, level: Level, next: Level)
    requires RelayAt(s, t, c, m, level) && RelayAt(s, u, c, m, next)
    ensures t.rows.Keys == u.rows.Keys
  {
  }

  /** What taking a trusted return leaves. */
  ghost predicate Taken(s: Script, d: Disk, e: Disk, id: Id)
  {
    e == SetAttempt(d, id, Returned).(receipts := d.receipts + {id},
           relay := After(d.relay, s.owner, MarkAuthenticated(id, "receipt")), inbox := e.inbox, proofs := e.proofs)
  }

  lemma TakenAt(s: Script, d: Disk, e: Disk, id: Id)
    requires Sits(s, d, SentSpot(id)) && Taken(s, d, e, id)
    ensures Sits(s, e, ReturnedSpot(id))
  {
    var f := SetAttempt(d, id, Returned);
    AttemptMoves(s, d, SentSpot(id), Returned);
    Open(s, f, SentSpot(id).(last := Returned));
    AuthenticateAt(s, d.relay, id.turn, id.round, "receipt");
    TakenParts(s, f, e, id);
    Open(s, e, ReturnedSpot(id));
  }

  lemma TakenParts(s: Script, f: Disk, e: Disk, id: Id)
    requires InTurn(s, f, SentSpot(id).(last := Returned))
    requires RelayAt(s, e.relay, id.turn, id.round + 1, Working)
    requires e == f.(receipts := f.receipts + {id}, relay := e.relay, inbox := e.inbox, proofs := e.proofs)
    ensures InTurn(s, e, ReturnedSpot(id))
  {
    var c, m := id.turn, id.round + 1;
    ReceiptAdded(s, f.receipts, e.receipts, id);
    SameKeys(s, f.relay, e.relay, c, m, Replied, Working);
    RestKept(s, f, e, c, m, Returned, id.round);
  }

  lemma ReceiptAdded(s: Script, r: set<Id>, q: set<Id>, id: Id)
    requires forall x :: x in r <==> Present(s, x, id.turn, id.round)
    requires q == r + {id}
    ensures forall x :: x in q <==> Present(s, x, id.turn, id.round + 1)
  {
  }

  /** The request whose return is not yet taken. */
  lemma LastRequest(s: Script, d: Disk, id: Id)
    requires Sits(s, d, SentSpot(id))
    ensures id in d.known && id in d.outbox && id !in d.receipts && AttemptOf(d, id) == Some(Dispatching)
    ensures id in d.relay.rows && d.relay.rows[id].state == ReplyStaged && d.relay.rows[id].reply.Some?
    ensures Step(d.relay, s.owner, MarkAuthenticated(id, "receipt")).Ok?
  {
    var c, m := id.turn, id.round + 1;
    Open(s, d, SentSpot(id));
    assert Present(s, id, c, m) && !Present(s, id, c, id.round);
    assert RowAt(s, d.relay.rows[id], id, c, m, Replied);
    AuthenticateAt(s, d.relay, c, id.round, "receipt");
  }

  lemma EntryShape(s: Script, d: Disk, w: Spot, t: nat)
    requires Sits(s, d, w) && Entry(s, w, t)
    ensures t !in d.outputs && |AttemptsOf(d, t)| == w.n
    ensures w.n > 0 ==> ToApply(s, w, RequestOf(t, w.n - 1)) && RequestOf(t, w.n - 1) in d.receipts
    ensures forall i :: 0 <= i < w.n - 1 ==> AttemptsOf(d, t)[i] == Metered
    ensures w.n == 0 ==> w == RoundSpot(s, t, 0)
    ensures w.n > 0 ==> DoneSpot(s, t, w.n - 1) == RoundSpot(s, t, w.n) && w.n <= s.rounds(t)
  {
    Open(s, d, w);
    if w.n > 0 {
      assert Present(s, RequestOf(t, w.n - 1), w.c, w.m);
    }
  }

  /** Every round is done and Core's output is stored; the run has not recorded the turn as applied. */
  ghost predicate OutputAt(s: Script, d: Disk, c: nat)
  {
    c in d.outputs && Sits(s, d.(outputs := d.outputs - {c}), RoundSpot(s, c, s.rounds(c)))
  }

  lemma OutputReached(s: Script, d: Disk, t: nat)
    requires Sits(s, d, RoundSpot(s, t, s.rounds(t)))
    ensures OutputAt(s, d.(outputs := d.outputs + {t}), t)
  {
    Open(s, d, RoundSpot(s, t, s.rounds(t)));
    assert s.rounds(t) >= 1;
    assert d.outputs + {t} - {t} == d.outputs;
  }

  // ------------------------------------------------------------ recovery

  lemma ApplyingRow(s: Script, t: Table<Id>, id: Id, c: nat, m: nat)
    requires RelayAt(s, t, c, m, Working) && id.turn == c && id in t.rows
    ensures t.rows[id].state == Authenticated || t.rows[id].state == Applying
    ensures Present(s, id, c, m) && id.round < m
    ensures t.rows[id].state == Authenticated ==>
              var u := After(t, s.owner, BeginApplying(id));
              Step(t, s.owner, BeginApplying(id)).Ok? && RelayAt(s, u, c, m, Working) && u.rows.Keys == t.rows.Keys
  {
    assert Present(s, id, c, m);
    assert RowAt(s, t.rows[id], id, c, m, Working);
    if t.rows[id].state == Authenticated {
      ApplyingAt(s, t, id, c, m);
      KeysKept(t, s.owner, BeginApplying(id));
    }
  }

  lemma RelayReplaced(s: Script, d: Disk, u: Table<Id>, w: Spot)
    requires Sits(s, d, w) && RelayAt(s, u, w.c, w.m, w.level) && u.rows.Keys == d.relay.rows.Keys
    ensures Sits(s, d.(relay := u), w)
  {
    Open(s, d, w);
    RelayMoves(s, d, d.(relay := u), w);
    Open(s, d.(relay := u), w);
  }

  lemma RelayMoves(s: Script, d: Disk, e: Disk, w: Spot)
    requires InTurn(s, d, w) && e == d.(relay := e.relay)
    requires RelayAt(s, e.relay, w.c, w.m, w.level) && e.relay.rows.Keys == d.relay.rows.Keys
    ensures InTurn(s, e, w)
  {
    MailMoves(s, d, e, w.c, w.m, if w.level == Replied && w.m > 0 then w.m - 1 else w.m);
    RestKept(s, d, e, w.c, w.n, w.last, w.k);
  }

  lemma MailMoves(s: Script, d: Disk, e: Disk, c: nat, m: nat, r: nat)
    requires MailAt(s, d, c, m, r) && e == d.(relay := e.relay) && e.relay.rows.Keys == d.relay.rows.Keys
    ensures MailAt(s, e, c, m, r)
  {
  }

  lemma RelayOf(s: Script, d: Disk, w: Spot)
    requires Sits(s, d, w)
    ensures RelayAt(s, d.relay, w.c, w.m, w.level)
    ensures w.level == Working ==> forall id :: id in d.receipts <==> Present(s, id, w.c, w.m)
    ensures |AttemptsOf(d, w.c)| == w.n
  {
    Open(s, d, w);
  }

  /** A row of the turn that recovery meets: it has a receipt, and is applying or can start to. */
  lemma ApplyingTurn(s: Script, d: Disk, w: Spot, id: Id)
    requires Sits(s, d, w) && w.level == Working && id.turn == w.c && id in d.relay.rows
    ensures d.relay.rows[id].state == Authenticated || d.relay.rows[id].state == Applying
    ensures id in d.receipts && (w.n == w.m ==> AttemptOf(d, id).Some?)
    ensures d.relay.rows[id].state == Authenticated ==>
              && Step(d.relay, s.owner, BeginApplying(id)).Ok?
              && Sits(s, d.(relay := After(d.relay, s.owner, BeginApplying(id))), w)
  {
    RelayOf(s, d, w);
    ApplyingRow(s, d.relay, id, w.c, w.m);
    if d.relay.rows[id].state == Authenticated {
      RelayReplaced(s, d, After(d.relay, s.owner, BeginApplying(id)), w);
    }
  }

  lemma TurnListing(s: Script, d: Disk, w: Spot)
    requires Sits(s, d, w)
    ensures Known(d.relay, d.relay.order)
    ensures forall id :: id in RequestIds(d.relay, Some(w.c)) ==> id.turn == w.c
  {
    Open(s, d, w);
    RequestsOfTurn(s, d.relay, w.c, w.m, w.level);
  }

  // ------------------------------------------------------------ finishing a turn

  ghost predicate FinishingParts(s: Script, d: Disk, c: nat, handled: seq<Id>)
  {
    FinalisingAt(s, d.relay, c, s.rounds(c), handled) && AroundRelay(s, d, c, d.relay.rows.Keys)
  }

  /** Everything but the relay rows of an applied turn. */
  ghost predicate AroundRelay(s: Script, d: Disk, c: nat, keys: set<Id>)
  {
    && ScriptOk(s)
    && LedgersAt(d, c, true, true, true)
    && d.known == keys && d.outbox == keys
    && d.provider == AllRows(s, c) + Rows(c, s.rounds(c))
    && (forall id :: id in d.receipts <==> Present(s, id, c, s.rounds(c)))
    && CoreAt(d, c, s.rounds(c), Metered)
    && s.rounds(c) >= 1 && CapabilitiesAt(s, d, c, s.rounds(c) - 1)
  }

  ghost predicate FinishingBehind(i: nat, s: Script, d: Disk, c: nat, handled: seq<Id>)
  {
    if i == 0 then FinishingParts(s, d, c, handled) else FinishingBehind(i - 1, s, d, c, handled)
  }

  /** Turn c is recorded as applied, and the handled rows with it. */
  ghost predicate Finishing(s: Script, d: Disk, c: nat, handled: seq<Id>)
  {
    SealedAt(d) && FinishingBehind(4, s, d, c, handled)
  }

  lemma {:induction false} FinishingOpens(i: nat, s: Script, d: Disk, c: nat, handled: seq<Id>)
    ensures FinishingBehind(i, s, d, c, handled) <==> FinishingParts(s, d, c, handled)
  {
    if i > 0 {
      FinishingOpens(i - 1, s, d, c, handled);
    }
  }

  lemma OpenFinishing(s: Script, d: Disk, c: nat, handled: seq<Id>)
    ensures Finishing(s, d, c, handled) <==> SealedAt(d) && FinishingParts(s, d, c, handled)
  {
    FinishingOpens(4, s, d, c, handled);
  }

  lemma StartFinishing(s: Script, d: Disk, c: nat)
    requires OutputAt(s, d, c)
    ensures Finishing(s, d.(applied := d.applied + {c}), c, [])
  {
    var before := d.(outputs := d.outputs - {c});
    assert before.outputs + {c} == d.outputs;
    Open(s, before, RoundSpot(s, c, s.rounds(c)));
    assert s.rounds(c) >= 1;
    FinishingStarts(s, before, d.(applied := d.applied + {c}), c);
    OpenFinishing(s, d.(applied := d.applied + {c}), c, []);
  }

  lemma FinishingStarts(s: Script, d: Disk, e: Disk, c: nat)
    requires s.rounds(c) >= 1 && InTurn(s, d, DoneSpot(s, c, s.rounds(c) - 1))
    requires e == d.(outputs := d.outputs + {c}, applied := d.applied + {c})
    ensures FinishingParts(s, e, c, [])
  {
    StartFinalising(s, d.relay, c, s.rounds(c));
  }

  lemma FinishListing(s: Script, d: Disk, c: nat)
    requires Finishing(s, d, c, [])
    ensures Known(d.relay, d.relay.order)
    ensures forall id :: id in RequestIds(d.relay, Some(c)) <==> id.turn == c && id.round < s.rounds(c)
    ensures forall id :: id in RequestIds(d.relay, Some(c)) ==> id in d.relay.rows
    ensures NoDuplicates(RequestIds(d.relay, Some(c)))
  {
    OpenFinishing(s, d, c, []);
    NothingFinalised(s, d.relay, c, s.rounds(c));
    RequestsOfTurn(s, d.relay, c, s.rounds(c), Working);
    forall id | id in RequestIds(d.relay, Some(c)) ensures id in d.relay.rows {
      assert Present(s, id, c, s.rounds(c));
    }
  }

  lemma FinishRow(s: Script, t: Table<Id>, c: nat, handled: seq<Id>, id: Id)
    requires FinalisingAt(s, t, c, s.rounds(c), handled) && id in t.rows && id.turn == c && id !in handled
    ensures Present(s, id, c, s.rounds(c)) && (t.rows[id].state == Authenticated || t.rows[id].state == Applying)
    ensures Step(t, s.owner, MarkApplied(id)).Ok?
    ensures FinalisingAt(s, After(t, s.owner, MarkApplied(id)), c, s.rounds(c), handled + [id])
    ensures After(t, s.owner, MarkApplied(id)).rows.Keys == t.rows.Keys
  {
    assert Present(s, id, c, s.rounds(c));
    assert RowAt(s, t.rows[id], id, c, s.rounds(c), Working);
    MarkAppliedAt(s, t, id, c, s.rounds(c), handled);
    KeysKept(t, s.owner, MarkApplied(id));
  }

  lemma FinishReplaced(s: Script, d: Disk, u: Table<Id>, c: nat, handled: seq<Id>, more: seq<Id>)
    requires Finishing(s, d, c, handled) && FinalisingAt(s, u, c, s.rounds(c), more) && u.rows.Keys == d.relay.rows.Keys
    ensures Finishing(s, d.(relay := u), c, more)
  {
    OpenFinishing(s, d, c, handled);
    FinishingMoves(s, d, d.(relay := u), c, handled, more);
    OpenFinishing(s, d.(relay := u), c, more);
  }

  lemma FinishingMoves(s: Script, d: Disk, e: Disk, c: nat, handled: seq<Id>, more: seq<Id>)
    requires FinishingParts(s, d, c, handled) && e == d.(relay := e.relay)
    requires FinalisingAt(s, e.relay, c, s.rounds(c), more) && e.relay.rows.Keys == d.relay.rows.Keys
    ensures FinishingParts(s, e, c, more)
  {
    AroundMoves(s, d, e, c, d.relay.rows.Keys);
  }

  lemma AroundMoves(s: Script, d: Disk, e: Disk, c: nat, keys: set<Id>)
    requires AroundRelay(s, d, c, keys) && e == d.(relay := e.relay)
    ensures AroundRelay(s, e, c, keys)
  {
  }

  lemma FinishParts(s: Script, d: Disk, c: nat, handled: seq<Id>)
    requires Finishing(s, d, c, handled)
    ensures FinalisingAt(s, d.relay, c, s.rounds(c), handled)
    ensures forall id :: id in d.receipts <==> Present(s, id, c, s.rounds(c))
  {
    OpenFinishing(s, d, c, handled);
  }

  lemma FinishStep(s: Script, d: Disk, c: nat, handled: seq<Id>, id: Id)
    requires Finishing(s, d, c, handled) && id in d.relay.rows && id.turn == c && id !in handled
    ensures id in d.receipts && (d.relay.rows[id].state == Authenticated || d.relay.rows[id].state == Applying)
    ensures Step(d.relay, s.owner, MarkApplied(id)).Ok?
    ensures Finishing(s, d.(relay := After(d.relay, s.owner, MarkApplied(id))), c, handled + [id])
  {
    FinishParts(s, d, c, handled);
    FinishRow(s, d.relay, c, handled, id);
    FinishReplaced(s, d, After(d.relay, s.owner, MarkApplied(id)), c, handled, handled + [id]);
  }

  /** The progress of an applied turn. */
  function AppliedProgress(s: Script, c: nat): Progress
    requires s.rounds(c) >= 1
  {
    Progress(true, true, s.rounds(c), s.rounds(c) - 1, true, true)
  }

  lemma FinishEnd(s: Script, d: Disk, c: nat, handled: seq<Id>)
    requires Finishing(s, d, c, handled)
    requires forall id :: id in handled <==> id.turn == c && id.round < s.rounds(c)
    ensures s.rounds(c) >= 1 && Stands(s, d, c, AppliedProgress(s, c))
  {
    OpenFinishing(s, d, c, handled);
    FinalisedAt(s, d.relay, c, s.rounds(c), handled);
    OpenAt(s, d, c, AppliedProgress(s, c));
  }

  // ------------------------------------------------------------ crashes inside a turn

  /** Round 0 has its reply and Core has not been entered. */
  lemma PrimedIsOrphaned(s: Script, d: Disk, c: nat)
    requires Sits(s, d, ReadySpot(c, 0))
    ensures d.next == c && Orphaned(d, RequestOf(c, 0))
  {
    Open(s, d, ReadySpot(c, 0));
    assert Present(s, RequestOf(c, 0), c, 1);
    assert RowAt(s, d.relay.rows[RequestOf(c, 0)], RequestOf(c, 0), c, 1, Replied);
  }

  /** The turn is recorded as applied and none of its rows is. */
  lemma UnfinishedIsHalfApplied(s: Script, d: Disk, c: nat)
    requires Finishing(s, d, c, [])
    ensures d.next == c && SealedAt(d) && HalfApplied(d) && LastUnfinished(s, d)
  {
    OpenFinishing(s, d, c, []);
    UnfinishedLast(s, d, c);
    UnfinishedLedgers(d, c);
  }

  lemma UnfinishedLast(s: Script, d: Disk, c: nat)
    requires FinalisingAt(s, d.relay, c, s.rounds(c), []) && s.rounds(c) >= 1 && d.next == c >= 1
    ensures Known(d.relay, d.relay.order) && LastUnfinished(s, d)
  {
    NothingFinalised(s, d.relay, c, s.rounds(c));
    TerminalOfTurn(s, d.relay, c, s.rounds(c), Working);
    WorkingRow(s, d.relay, RequestOf(c, s.rounds(c) - 1), c, s.rounds(c));
  }

  lemma UnfinishedLedgers(d: Disk, c: nat)
    requires LedgersAt(d, c, true, true, true) && TerminalUnapplied(d.relay, c)
    ensures HalfApplied(d)
  {
  }

  lemma NothingFinalised(s: Script, t: Table<Id>, c: nat, m: nat)
    requires FinalisingAt(s, t, c, m, [])
    ensures RelayAt(s, t, c, m, Working)
  {
  }

  lemma WorkingRow(s: Script, t: Table<Id>, id: Id, c: nat, m: nat)
    requires RelayAt(s, t, c, m, Working) && id.turn == c && id.round < m
    ensures id in t.rows && t.rows[id].metadata.cursor == c && t.rows[id].state != Applied && t.rows[id].state != Acked
  {
    assert Present(s, id, c, m);
    assert RowAt(s, t.rows[id], id, c, m, Working);
  }

  // ------------------------------------------------------------ the ack

  lemma AppliedShape(s: Script, d: Disk, c: nat, p: Progress)
    requires Stands(s, d, c, p) && p.applied
    ensures d.next == c && d.pending && c in d.observed && c in d.ingestRef && c !in d.ackReceipts
    ensures s.rounds(c) >= 1 && p == AppliedProgress(s, c)
    ensures Known(d.relay, d.relay.order) && TerminalRequestId(d.relay, Some(c)) == Some(RequestOf(c, s.rounds(c) - 1))
    ensures Step(d.relay, s.owner, MarkAcked(RequestOf(c, s.rounds(c) - 1), "acked")).Ok?
  {
    OpenAt(s, d, c, p);
    TerminalOfTurn(s, d.relay, c, s.rounds(c), Finalised);
    AckAt(s, d.relay, c, "acked");
  }

  lemma AckedAt(s: Script, d: Disk, e: Disk, c: nat)
    requires s.rounds(c) >= 1 && Stands(s, d, c, AppliedProgress(s, c)) && SealedAt(e)
    requires e == d.(next := c + 1, pending := false, ackReceipts := d.ackReceipts + {c},
                     relay := After(d.relay, s.owner, MarkAcked(RequestOf(c, s.rounds(c) - 1), "acked")))
    ensures Stands(s, e, c + 1, START)
  {
    OpenAt(s, d, c, AppliedProgress(s, c));
    AckAt(s, d.relay, c, "acked");
    NextTurn(s, d, e, c);
    OpenAt(s, e, c + 1, START);
  }

  lemma NextTurn(s: Script, d: Disk, e: Disk, c: nat)
    requires s.rounds(c) >= 1 && At(s, d, c, AppliedProgress(s, c))
    requires e == d.(next := c + 1, pending := false, ackReceipts := d.ackReceipts + {c}, relay := e.relay)
    requires RelayAt(s, e.relay, c + 1, 0, Working)
    ensures At(s, e, c + 1, START)
  {
    AckKeys(s, d.relay, e.relay, c);
    RowsOfNextTurn(s, c);
    assert forall x :: Present(s, x, c + 1, 0) <==> Present(s, x, c, s.rounds(c));
  }

  lemma RowsOfNextTurn(s: Script, c: nat)
    requires s.rounds(c) >= 1 && c >= 1
    ensures AllRows(s, c + 1) + Rows(c + 1, 0) == AllRows(s, c) + Rows(c, s.rounds(c))
    ensures AllCapabilities(s, c + 1) + Rows(c + 1, 0) == AllCapabilities(s, c) + Rows(c, s.rounds(c) - 1)
  {
  }

  lemma AckKeys(s: Script, t: Table<Id>, u: Table<Id>, c: nat)
    requires RelayAt(s, t, c, s.rounds(c), Finalised) && RelayAt(s, u, c + 1, 0, Working) && c >= 1
    ensures t.rows.Keys == u.rows.Keys
  {
    forall id ensures id in t.rows <==> id in u.rows {
      assert Present(s, id, c, s.rounds(c)) <==> Present(s, id, c + 1, 0);
    }
  }

  // ------------------------------------------------------------ whole runs

  lemma InitialStands(s: Script)
    requires ScriptOk(s)
    ensures Stands(s, FIRST, 1, START)
  {
    assert AllRows(s, 1) + Rows(1, 0) == [] && AllCapabilities(s, 1) + Rows(1, 0) == [];
    OpenAt(s, FIRST, 1, START);
  }

  /** Two runs that reached the same cursor revealed, ingested, dispatched, called, applied and acked the
      same, with the same replies. */
  lemma SameEnd(s: Script, d: Disk, e: Disk, c: nat)
    requires Stands(s, d, c, START) && Stands(s, e, c, START)
    ensures d.next == e.next == c && d.pending == e.pending
    ensures d.revealed == e.revealed && d.ingestRef == e.ingestRef && d.observed == e.observed
    ensures d.provider == e.provider && d.capabilities == e.capabilities
    ensures d.applied == e.applied && d.outputs == e.outputs && d.ackReceipts == e.ackReceipts && d.receipts == e.receipts
    ensures d.relay.rows.Keys == e.relay.rows.Keys
    ensures forall id :: id in d.relay.rows ==>
              d.relay.rows[id].state == e.relay.rows[id].state && d.relay.rows[id].reply == e.relay.rows[id].reply
  {
    OpenAt(s, d, c, START);
    OpenAt(s, e, c, START);
    SameRelay(s, d.relay, e.relay, c);
    assert forall id :: id in d.receipts <==> id in e.receipts;
  }

  lemma SameRelay(s: Script, t: Table<Id>, u: Table<Id>, c: nat)
    requires RelayAt(s, t, c, 0, Working) && RelayAt(s, u, c, 0, Working)
    ensures t.rows.Keys == u.rows.Keys
    ensures forall id :: id in t.rows ==> t.rows[id].state == u.rows[id].state && t.rows[id].reply == u.rows[id].reply
  {
    forall id ensures id in t.rows <==> id in u.rows {
      assert id in t.rows <==> Present(s, id, c, 0);
    }
    forall id | id in t.rows ensures t.rows[id].state == u.rows[id].state && t.rows[id].reply == u.rows[id].reply {
      assert Present(s, id, c, 0);
      assert RowAt(s, t.rows[id], id, c, 0, Working) && RowAt(s, u.rows[id], id, c, 0, Working);
    }
  }

  /** What the end of a run looks like: every event revealed, ingested, applied and acked once; one
      dispatch per round and one capability call per round but the last, in order; the terminal request
      of every turn acked and its lower rounds applied. */
  lemma AtEnd(s: Script, d: Disk, c: nat)
    requires Stands(s, d, c, START)
    ensures d.next == c >= 1 && !d.pending
    ensures forall x :: x in d.ackReceipts <==> 1 <= x < c
    ensures forall x :: x in d.applied <==> 1 <= x < c
    ensures forall x :: x in d.revealed <==> 1 <= x < c
    ensures d.observed == Numbers(c - 1)
    ensures d.provider == AllRows(s, c) && d.capabilities == AllCapabilities(s, c)
    ensures forall id :: id in d.relay.rows <==> 1 <= id.turn < c && id.round < s.rounds(id.turn)
    ensures forall id :: id in d.relay.rows ==>
              d.relay.rows[id].state == if id.round + 1 == s.rounds(id.turn) then Acked else Applied
  {
    OpenAt(s, d, c, START);
    assert AllRows(s, c) + Rows(c, 0) == AllRows(s, c) && AllCapabilities(s, c) + Rows(c, 0) == AllCapabilities(s, c);
    EndRelay(s, d.relay, c);
  }

  lemma EndRelay(s: Script, t: Table<Id>, c: nat)
    requires RelayAt(s, t, c, 0, Working)
    ensures forall id :: id in t.rows <==> 1 <= id.turn < c && id.round < s.rounds(id.turn)
    ensures forall id :: id in t.rows ==> t.rows[id].state == if id.round + 1 == s.rounds(id.turn) then Acked else Applied
  {
    forall id | id in t.rows ensures t.rows[id].state == if id.round + 1 == s.rounds(id.turn) then Acked else Applied {
      assert Present(s, id, c, 0);
      assert RowAt(s, t.rows[id], id, c, 0, Working);
    }
    forall id ensures id in t.rows <==> 1 <= id.turn < c && id.round < s.rounds(id.turn) {
      assert id in t.rows <==> Present(s, id, c, 0);
    }
  }
}
