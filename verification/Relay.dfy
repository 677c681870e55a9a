/** The operator's relay journal: one row per model request, moved forward one transaction at a
    time, with an audit line for every move. Identifiers are values of an abstract type; the
    texts they stand for are never blank. */
module Relay {
  import opened Common

  datatype State = Staged | Exposed | ReplyStaged | Authenticated | Applying | Applied | Acked

  function Rank(s: State): nat
  {
    match s
    case Staged => 0
    case Exposed => 1
    case ReplyStaged => 2
    case Authenticated => 3
    case Applying => 4
    case Applied => 5
    case Acked => 6
  }

  /** The labels are the event, nonce, request fingerprint, binding digest, provider and model. */
  datatype Metadata<Id> = Metadata(
    requestId: Id, attemptId: Id, round: int, cursor: int,
    run: string, session: string, labels: seq<string>)

  datatype Row<Id> = Row(
    metadata: Metadata<Id>, generation: int, request: string, state: State,
    reply: Option<string>, coreReceipt: Option<string>, ackReceipt: Option<string>,
    exposures: nat, dispatches: nat)

  /** The relay and audit tables; order lists the request ids by rowid. */
  datatype Table<Id> = Table(rows: map<Id, Row<Id>>, order: seq<Id>, audit: seq<(Id, State)>)

  datatype Owner = Owner(run: string, session: string)

  datatype Operation<Id> =
    | Stage(metadata: Metadata<Id>, request: string, generation: int)
    | Expose(id: Id)
    | Outstanding(id: Id)
    | StageReply(id: Id, reply: string)
    | MarkAuthenticated(id: Id, receipt: string)
    | BeginApplying(id: Id)
    | MarkApplied(id: Id)
    | MarkAcked(id: Id, receipt: string)

  predicate HasText(s: string)
  {
    exists i :: 0 <= i < |s| && !Blank(s[i])
  }

  predicate Admissible<Id(!new)>(m: Metadata<Id>, request: string, owner: Owner)
  {
    && m.cursor > 0 && m.round >= 0
    && HasText(m.run) && HasText(m.session)
    && (forall i :: 0 <= i < |m.labels| ==> HasText(m.labels[i]))
    && request != "" && m.run == owner.run && m.session == owner.session
  }

  predicate Clash<Id(==, !new)>(t: Table<Id>, m: Metadata<Id>)
  {
    exists id :: id in t.rows && t.rows[id].metadata.attemptId == m.attemptId && t.rows[id].metadata.round == m.round
  }

  function NewRow<Id(!new)>(m: Metadata<Id>, request: string, generation: int): Row<Id>
  {
    Row(m, generation, request, Staged, None, None, None, 0, 0)
  }

  function Transition<Id(==, !new)>(t: Table<Id>, id: Id, row: Row<Id>, state: State): Table<Id>
  {
    t.(rows := t.rows[id := row.(state := state)], audit := t.audit + [(id, state)])
  }

  /** The effect of one transaction. A refusal rolls back, so it has no table of its own. */
  function Step<Id(==, !new)>(t: Table<Id>, owner: Owner, op: Operation<Id>): Result<Table<Id>>
  {
    match op
    case Stage(m, request, generation) =>
      if !Admissible(m, request, owner) then Refused("metadata")
      else if m.requestId in t.rows then Refused("relay request identity already exists")
      else if Clash(t, m) then Refused("no restaging and no second dispatch")
      else Ok(Transition(t.(order := t.order + [m.requestId]), m.requestId, NewRow(m, request, generation), Staged))
    case _ =>
      if op.id !in t.rows then Refused("unknown relay request") else MoveRow(t, t.rows[op.id], op)
  }

  function MoveRow<Id(==, !new)>(t: Table<Id>, row: Row<Id>, op: Operation<Id>): Result<Table<Id>>
    requires !op.Stage?
  {
    match op
    case Expose(id) =>
      if row.state != Staged then Refused("request is not staged; refusing second exposure")
      else Ok(Transition(t, id, row.(exposures := row.exposures + 1, dispatches := row.dispatches + 1), Exposed))
    case Outstanding(id) =>
      if row.state == Staged then Refused("request was never exposed")
      else Ok(t.(audit := t.audit + [(id, row.state)]))
    case StageReply(id, reply) =>
      if reply == "" then Refused("reply must be exact bytes")
      else if row.reply.Some? then if row.reply.value == reply then Ok(t) else Refused("conflicting reply bytes")
      else if row.state != Exposed then Refused("reply arrived before exposure")
      else Ok(Transition(t, id, row.(reply := Some(reply)), ReplyStaged))
    case MarkAuthenticated(id, receipt) =>
      if row.state != ReplyStaged then Refused("authentication requires a staged reply")
      else if row.coreReceipt.Some? then
        if row.coreReceipt.value == receipt then Ok(t) else Refused("conflicting Core authenticity receipt")
      else Ok(Transition(t, id, row.(coreReceipt := Some(receipt)), Authenticated))
    case BeginApplying(id) =>
      if row.state != Authenticated then Refused("application requires an authenticated reply")
      else Ok(Transition(t, id, row, Applying))
    case MarkApplied(id) =>
      if row.state !in {ReplyStaged, Authenticated, Applying, Applied} then Refused("application was not authorised")
      else if row.state == Applied then Ok(t)
      else Ok(Transition(t, id, row, Applied))
    case MarkAcked(id, receipt) =>
      if row.state != Applied then Refused("ack requires a durable application")
      else if row.ackReceipt.Some? then
        if row.ackReceipt.value == receipt then Ok(t) else Refused("conflicting ack receipt")
      else Ok(Transition(t, id, row.(ackReceipt := Some(receipt)), Acked))
  }

  function After<Id(==, !new)>(t: Table<Id>, owner: Owner, op: Operation<Id>): Table<Id>
  {
    match Step(t, owner, op)
    case Ok(next) => next
    case Refused(_) => t
  }

  function Run<Id(==, !new)>(t: Table<Id>, owner: Owner, ops: seq<Operation<Id>>): Table<Id>
    decreases |ops|
  {
    if ops == [] then t else Run(After(t, owner, ops[0]), owner, ops[1..])
  }

  function Empty<Id(!new)>(): Table<Id>
  {
    Table(map[], [], [])
  }

  // ------------------------------------------------------------ what every run keeps

  predicate RowOk<Id(!new)>(row: Row<Id>)
  {
    && row.request != ""
    && (row.reply.Some? <==> Rank(row.state) >= Rank(ReplyStaged))
    && (row.state in {Authenticated, Applying} ==> row.coreReceipt.Some?)
    && (Rank(row.state) < Rank(Authenticated) ==> row.coreReceipt.None?)
    && (row.ackReceipt.Some? <==> row.state == Acked)
    && row.exposures == row.dispatches == (if row.state == Staged then 0 else 1)
  }

  /** The state of the last audit line of a request. */
  function LastAudit<Id(==, !new)>(audit: seq<(Id, State)>, id: Id): Option<State>
  {
    if audit == [] then None
    else if audit[|audit| - 1].0 == id then Some(audit[|audit| - 1].1)
    else LastAudit(audit[..|audit| - 1], id)
  }

  /** One audit line more: the request it names must not move backwards, and starts staged. */
  ghost predicate AuditForward<Id(!new)>(audit: seq<(Id, State)>)
  {
    audit == [] ||
    var before, (id, state) := audit[..|audit| - 1], audit[|audit| - 1];
    && AuditForward(before)
    && match LastAudit(before, id)
       case None => state == Staged
       case Some(s) => Rank(state) > Rank(s) || (state == s && state != Staged)
  }

  ghost predicate RowsOk<Id(!new)>(t: Table<Id>)
  {
    forall id :: id in t.rows ==> RowOk(t.rows[id]) && t.rows[id].metadata.requestId == id
  }

  ghost predicate AuditOk<Id(!new)>(t: Table<Id>)
  {
    && AuditForward(t.audit)
    && forall id :: LastAudit(t.audit, id) == if id in t.rows then Some(t.rows[id].state) else None
  }

  ghost predicate OrderOk<Id(!new)>(t: Table<Id>)
  {
    && (forall i, j :: 0 <= i < j < |t.order| ==> t.order[i] != t.order[j])
    && (forall id :: id in t.order <==> id in t.rows)
  }

  /** No two requests share an attempt and a round. */
  ghost predicate RoundsDistinct<Id(!new)>(t: Table<Id>)
  {
    forall x, y :: x in t.rows && y in t.rows && x != y ==>
      !(t.rows[x].metadata.attemptId == t.rows[y].metadata.attemptId && t.rows[x].metadata.round == t.rows[y].metadata.round)
  }

  ghost predicate WellFormed<Id(!new)>(t: Table<Id>)
  {
    RowsOk(t) && AuditOk(t) && OrderOk(t) && RoundsDistinct(t)
  }

  /** What one table keeps of an earlier one. */
  ghost predicate Onward<Id(!new)>(t: Table<Id>, u: Table<Id>)
  {
    && (forall id :: id in t.rows ==> id in u.rows && RowOnward(t.rows[id], u.rows[id]))
    && |t.audit| <= |u.audit| && u.audit[..|t.audit|] == t.audit
    && |t.order| <= |u.order| && u.order[..|t.order|] == t.order
  }

  predicate RowOnward<Id(==, !new)>(a: Row<Id>, b: Row<Id>)
  {
    && Rank(a.state) <= Rank(b.state)
    && a.metadata == b.metadata && a.request == b.request && a.generation == b.generation
    && (a.reply.Some? ==> b.reply == a.reply)
    && (a.coreReceipt.Some? ==> b.coreReceipt == a.coreReceipt)
    && (a.ackReceipt.Some? ==> b.ackReceipt == a.ackReceipt)
  }

  lemma LastAuditAppend<Id(!new)>(audit: seq<(Id, State)>, id: Id, state: State)
    ensures forall x :: LastAudit(audit + [(id, state)], x) == if x == id then Some(state) else LastAudit(audit, x)
    ensures AuditForward(audit + [(id, state)]) <==>
              AuditForward(audit) && match LastAudit(audit, id)
                                     case None => state == Staged
                                     case Some(s) => Rank(state) > Rank(s) || (state == s && state != Staged)
  {
    var more := audit + [(id, state)];
    assert more[..|more| - 1] == audit;
  }

  /** Rows that a transaction may replace: the same request, moved forward. */
  ghost predicate Replaces<Id(!new)>(t: Table<Id>, id: Id, row: Row<Id>, state: State)
  {
    && id in t.rows && RowOk(row.(state := state)) && RowOnward(t.rows[id], row.(state := state))
    && Rank(state) > Rank(t.rows[id].state)
  }

  lemma TransitionKeeps<Id(!new)>(t: Table<Id>, id: Id, row: Row<Id>, state: State)
    requires WellFormed(t) && Replaces(t, id, row, state)
    ensures WellFormed(Transition(t, id, row, state)) && Onward(t, Transition(t, id, row, state))
  {
    LastAuditAppend(t.audit, id, state);
  }

  /** An accepted move that changes a row changes it to this one. */
  function Moved<Id(==, !new)>(row: Row<Id>, op: Operation<Id>): (Row<Id>, State)
  {
    match op
    case Expose(id) => (row.(exposures := row.exposures + 1, dispatches := row.dispatches + 1), Exposed)
    case StageReply(id, reply) => (row.(reply := Some(reply)), ReplyStaged)
    case MarkAuthenticated(id, receipt) => (row.(coreReceipt := Some(receipt)), Authenticated)
    case BeginApplying(id) => (row, Applying)
    case MarkAcked(id, receipt) => (row.(ackReceipt := Some(receipt)), Acked)
    case _ => (row, Applied)
  }

  lemma MoveCases<Id(!new)>(t: Table<Id>, row: Row<Id>, op: Operation<Id>)
    requires !op.Stage? && MoveRow(t, row, op).Ok? && RowOk(row)
    ensures var (row', state) := Moved(row, op);
            var u := MoveRow(t, row, op).value;
            || u == t
            || (u == t.(audit := t.audit + [(op.id, row.state)]) && row.state != Staged)
            || (u == Transition(t, op.id, row', state) && RowOk(row'.(state := state))
                && RowOnward(row, row'.(state := state)) && Rank(state) > Rank(row.state))
  {
  }

  lemma RepresentKeeps<Id(!new)>(t: Table<Id>, id: Id)
    requires WellFormed(t) && id in t.rows && t.rows[id].state != Staged
    ensures var u := t.(audit := t.audit + [(id, t.rows[id].state)]);
            WellFormed(u) && Onward(t, u)
  {
    LastAuditAppend(t.audit, id, t.rows[id].state);
  }

  lemma MovesKeep<Id(!new)>(t: Table<Id>, u: Table<Id>, id: Id, row: Row<Id>, state: State)
    requires WellFormed(t) && id in t.rows
    requires
      || u == t
      || (u == t.(audit := t.audit + [(id, t.rows[id].state)]) && t.rows[id].state != Staged)
      || (u == Transition(t, id, row, state) && Replaces(t, id, row, state))
    ensures WellFormed(u) && Onward(t, u)
  {
    if u == t {
    } else if u.rows == t.rows {
      if t.rows[id].state != Staged {
        RepresentKeeps(t, id);
      }
    } else {
      TransitionKeeps(t, id, row, state);
    }
  }

  lemma MoveKeeps<Id(!new)>(t: Table<Id>, owner: Owner, op: Operation<Id>)
    requires WellFormed(t) && !op.Stage? && Step(t, owner, op).Ok?
    ensures WellFormed(After(t, owner, op)) && Onward(t, After(t, owner, op))
  {
    var row := t.rows[op.id];
    var (row', state) := Moved(row, op);
    MoveCases(t, row, op);
    MovesKeep(t, MoveRow(t, row, op).value, op.id, row', state);
  }

  lemma StageRounds<Id(!new)>(t: Table<Id>, u: Table<Id>, m: Metadata<Id>, row: Row<Id>)
    requires RoundsDistinct(t) && !Clash(t, m) && row.metadata == m
    requires u.rows == t.rows[m.requestId := row]
    ensures RoundsDistinct(u)
  {
  }

  lemma StageOrder<Id(!new)>(t: Table<Id>, u: Table<Id>, id: Id)
    requires OrderOk(t) && id !in t.rows && u.order == t.order + [id] && u.rows.Keys == t.rows.Keys + {id}
    ensures OrderOk(u)
  {
    assert forall x :: x in u.order <==> x in t.order || x == id;
  }

  lemma StageKeeps<Id(!new)>(t: Table<Id>, owner: Owner, op: Operation<Id>)
    requires WellFormed(t) && op.Stage? && Step(t, owner, op).Ok?
    ensures WellFormed(After(t, owner, op)) && Onward(t, After(t, owner, op))
  {
    var id, u := op.metadata.requestId, After(t, owner, op);
    LastAuditAppend(t.audit, id, Staged);
    StageOrder(t, u, id);
    StageRounds(t, u, op.metadata, u.rows[id]);
  }

  lemma StepKeeps<Id(!new)>(t: Table<Id>, owner: Owner, op: Operation<Id>)
    requires WellFormed(t)
    ensures WellFormed(After(t, owner, op)) && Onward(t, After(t, owner, op))
  {
    if Step(t, owner, op).Ok? {
      if op.Stage? {
        StageKeeps(t, owner, op);
      } else {
        MoveKeeps(t, owner, op);
      }
    }
  }

  /** Every sequence of operations keeps every row well formed and only ever moves forward. */
  lemma {:induction false} RunKeeps<Id(!new)>(t: Table<Id>, owner: Owner, ops: seq<Operation<Id>>)
    requires WellFormed(t)
    ensures WellFormed(Run(t, owner, ops)) && Onward(t, Run(t, owner, ops))
    decreases |ops|
  {
    if ops != [] {
      var u := After(t, owner, ops[0]);
      StepKeeps(t, owner, ops[0]);
      RunKeeps(u, owner, ops[1..]);
      OnwardTransitive(t, u, Run(t, owner, ops));
    }
  }

  lemma OnwardTransitive<Id(!new)>(t: Table<Id>, u: Table<Id>, v: Table<Id>)
    requires Onward(t, u) && Onward(u, v)
    ensures Onward(t, v)
  {
    assert u.audit[..|t.audit|] == v.audit[..|u.audit|][..|t.audit|] == v.audit[..|t.audit|];
    assert u.order[..|t.order|] == v.order[..|u.order|][..|t.order|] == v.order[..|t.order|];
  }

  lemma ReachableOk<Id(!new)>(owner: Owner, ops: seq<Operation<Id>>)
    ensures WellFormed(Run(Empty(), owner, ops))
  {
    assert WellFormed(Empty<Id>());
    RunKeeps(Empty(), owner, ops);
  }

  /** The branches that compare with a stored receipt are never taken, so an authentication or
      ack that is accepted always writes its receipt and moves the row. */
  lemma ReceiptsWrittenOnce<Id(!new)>(owner: Owner, ops: seq<Operation<Id>>, op: Operation<Id>)
    requires op.MarkAuthenticated? || op.MarkAcked?
    ensures var t := Run(Empty(), owner, ops);
            Step(t, owner, op).Ok? <==>
              op.id in t.rows && t.rows[op.id].state == if op.MarkAuthenticated? then ReplyStaged else Applied
    ensures var t := Run(Empty(), owner, ops);
            var u := After(t, owner, op);
            Step(t, owner, op).Ok? ==>
              && u.audit == t.audit + [(op.id, u.rows[op.id].state)]
              && (op.MarkAuthenticated? ==> u.rows[op.id].state == Authenticated && u.rows[op.id].coreReceipt == Some(op.receipt))
              && (op.MarkAcked? ==> u.rows[op.id].state == Acked && u.rows[op.id].ackReceipt == Some(op.receipt))
  {
    ReachableOk(owner, ops);
  }

  /** One row over any further run. */
  lemma RowLater<Id(!new)>(t: Table<Id>, owner: Owner, ops: seq<Operation<Id>>, id: Id)
    requires WellFormed(t) && id in t.rows
    ensures id in Run(t, owner, ops).rows
    ensures RowOk(Run(t, owner, ops).rows[id]) && RowOnward(t.rows[id], Run(t, owner, ops).rows[id])
  {
    RunKeeps(t, owner, ops);
  }

  lemma NoSecondExposure<Id(!new)>(t: Table<Id>, owner: Owner, ops: seq<Operation<Id>>, id: Id)
    requires WellFormed(t) && id in t.rows && t.rows[id].state != Staged
    ensures Step(Run(t, owner, ops), owner, Expose(id)).Refused?
  {
    RowLater(t, owner, ops, id);
  }

  /** An exposure is accepted at most once per request, in any run and whatever comes between. */
  lemma ExposedOnce<Id(!new)>(t: Table<Id>, owner: Owner, ops: seq<Operation<Id>>, id: Id)
    requires WellFormed(t) && Step(t, owner, Expose(id)).Ok?
    ensures Step(Run(After(t, owner, Expose(id)), owner, ops), owner, Expose(id)).Refused?
  {
    StepKeeps(t, owner, Expose(id));
    NoSecondExposure(After(t, owner, Expose(id)), owner, ops, id);
  }

  /** A staged request can never be staged again, neither under its id nor for its round. */
  lemma NeverRestaged<Id(!new)>(t: Table<Id>, owner: Owner, ops: seq<Operation<Id>>, id: Id, op: Operation<Id>)
    requires WellFormed(t) && id in t.rows && op.Stage?
    requires op.metadata.requestId == id ||
             (op.metadata.attemptId == t.rows[id].metadata.attemptId && op.metadata.round == t.rows[id].metadata.round)
    ensures Step(Run(t, owner, ops), owner, op).Refused?
  {
    RowLater(t, owner, ops, id);
  }

  lemma ReplyStays<Id(!new)>(t: Table<Id>, owner: Owner, ops: seq<Operation<Id>>, id: Id, reply: string, other: string)
    requires WellFormed(t) && id in t.rows && t.rows[id].reply == Some(reply) && reply != "" && other != reply
    ensures Step(Run(t, owner, ops), owner, StageReply(id, reply)) == Ok(Run(t, owner, ops))
    ensures Step(Run(t, owner, ops), owner, StageReply(id, other)).Refused?
  {
    RowLater(t, owner, ops, id);
  }

  /** Redelivering the staged reply changes nothing; any other reply is refused, ever after. */
  lemma ReplyRedelivery<Id(!new)>(t: Table<Id>, owner: Owner, ops: seq<Operation<Id>>, id: Id, reply: string, other: string)
    requires WellFormed(t) && Step(t, owner, StageReply(id, reply)).Ok? && other != reply
    ensures var u := Run(After(t, owner, StageReply(id, reply)), owner, ops);
            Step(u, owner, StageReply(id, reply)) == Ok(u) && Step(u, owner, StageReply(id, other)).Refused?
  {
    StepKeeps(t, owner, StageReply(id, reply));
    ReplyStays(After(t, owner, StageReply(id, reply)), owner, ops, id, reply, other);
  }

  // ------------------------------------------------------------ reading by round

  function RoundOf<Id(==, !new)>(t: Table<Id>, id: Id): int
    requires id in t.rows
  {
    t.rows[id].metadata.round
  }

  predicate Known<Id(==, !new)>(t: Table<Id>, ids: seq<Id>)
  {
    forall i :: 0 <= i < |ids| ==> ids[i] in t.rows
  }

  /** Insertion behind every row of the same or a lower round. */
  function InsertUp<Id(==, !new)>(t: Table<Id>, sorted: seq<Id>, id: Id): (r: seq<Id>)
    requires Known(t, sorted) && id in t.rows
    ensures Known(t, r)
  {
    if sorted == [] || RoundOf(t, sorted[|sorted| - 1]) <= RoundOf(t, id) then sorted + [id]
    else InsertUp(t, sorted[..|sorted| - 1], id) + [sorted[|sorted| - 1]]
  }

  /** ORDER BY round_index, rowid */
  function Ascending<Id(==, !new)>(t: Table<Id>, ids: seq<Id>): (r: seq<Id>)
    requires Known(t, ids)
    ensures Known(t, r)
  {
    if ids == [] then [] else InsertUp(t, Ascending(t, ids[..|ids| - 1]), ids[|ids| - 1])
  }

  function InsertDown<Id(==, !new)>(t: Table<Id>, sorted: seq<Id>, id: Id): (r: seq<Id>)
    requires Known(t, sorted) && id in t.rows
    ensures Known(t, r)
  {
    if sorted == [] || RoundOf(t, sorted[0]) <= RoundOf(t, id) then [id] + sorted
    else [sorted[0]] + InsertDown(t, sorted[1..], id)
  }

  /** ORDER BY round_index DESC, rowid DESC */
  function Descending<Id(==, !new)>(t: Table<Id>, ids: seq<Id>): (r: seq<Id>)
    requires Known(t, ids)
    ensures Known(t, r)
  {
    if ids == [] then [] else InsertDown(t, Descending(t, ids[..|ids| - 1]), ids[|ids| - 1])
  }

  function Reverse<Id(!new)>(s: seq<Id>): (r: seq<Id>)
    ensures |r| == |s|
    ensures forall i :: 0 <= i < |s| ==> r[i] == s[|s| - 1 - i]
  {
    if s == [] then [] else [s[|s| - 1]] + Reverse(s[..|s| - 1])
  }

  lemma {:induction false} InsertMirrors<Id(!new)>(t: Table<Id>, sorted: seq<Id>, id: Id)
    requires Known(t, sorted) && id in t.rows && Known(t, Reverse(sorted))
    ensures InsertDown(t, Reverse(sorted), id) == Reverse(InsertUp(t, sorted, id))
    decreases |sorted|
  {
    var down := Reverse(sorted);
    if sorted == [] || RoundOf(t, sorted[|sorted| - 1]) <= RoundOf(t, id) {
      assert (sorted + [id])[..|sorted|] == sorted;
    } else {
      var front, last := sorted[..|sorted| - 1], sorted[|sorted| - 1];
      assert down == [last] + Reverse(front);
      assert down[1..] == Reverse(front);
      InsertMirrors(t, front, id);
      var up := InsertUp(t, front, id);
      assert (up + [last])[..|up|] == up;
    }
  }

  lemma {:induction false} SortMirrors<Id(!new)>(t: Table<Id>, ids: seq<Id>)
    requires Known(t, ids)
    ensures Descending(t, ids) == Reverse(Ascending(t, ids))
  {
    if ids != [] {
      SortMirrors(t, ids[..|ids| - 1]);
      InsertMirrors(t, Ascending(t, ids[..|ids| - 1]), ids[|ids| - 1]);
    }
  }

  predicate OfCursor<Id(==, !new)>(t: Table<Id>, id: Id, cursor: Option<int>)
    requires id in t.rows
  {
    cursor.None? || t.rows[id].metadata.cursor == cursor.value
  }

  function OnlyCursor<Id(==, !new)>(t: Table<Id>, ids: seq<Id>, cursor: Option<int>): (r: seq<Id>)
    requires Known(t, ids)
    ensures forall i :: 0 <= i < |r| ==> r[i] in ids && OfCursor(t, r[i], cursor)
    ensures forall id :: id in ids && OfCursor(t, id, cursor) ==> id in r
  {
    if ids == [] then []
    else
      var front, last := OnlyCursor(t, ids[..|ids| - 1], cursor), ids[|ids| - 1];
      assert forall id :: id in ids <==> id in ids[..|ids| - 1] || id == last;
      if OfCursor(t, last, cursor) then front + [last] else front
  }

  function RequestIds<Id(==, !new)>(t: Table<Id>, cursor: Option<int>): seq<Id>
    requires Known(t, t.order)
  {
    OnlyCursor(t, Ascending(t, t.order), cursor)
  }

  /** The first row of a listing that belongs to the cursor. */
  function FirstOf<Id(==, !new)>(t: Table<Id>, ids: seq<Id>, cursor: Option<int>): Option<Id>
    requires Known(t, ids)
  {
    if ids == [] then None
    else if OfCursor(t, ids[0], cursor) then Some(ids[0])
    else FirstOf(t, ids[1..], cursor)
  }

  function TerminalRequestId<Id(==, !new)>(t: Table<Id>, cursor: Option<int>): Option<Id>
    requires Known(t, t.order)
  {
    FirstOf(t, Descending(t, t.order), cursor)
  }

  lemma {:induction false} FirstOfReverse<Id(!new)>(t: Table<Id>, ids: seq<Id>, cursor: Option<int>)
    requires Known(t, ids) && Known(t, Reverse(ids))
    ensures var kept := OnlyCursor(t, ids, cursor);
            FirstOf(t, Reverse(ids), cursor) == if kept == [] then None else Some(kept[|kept| - 1])
  {
    if ids != [] {
      assert Reverse(ids)[1..] == Reverse(ids[..|ids| - 1]);
      FirstOfReverse(t, ids[..|ids| - 1], cursor);
    }
  }

  /** The terminal request of a cursor is the last of its requests; there is none iff there are none. */
  lemma TerminalIsLast<Id(!new)>(t: Table<Id>, cursor: Option<int>)
    requires Known(t, t.order)
    ensures var ids := RequestIds(t, cursor);
            TerminalRequestId(t, cursor) == if ids == [] then None else Some(ids[|ids| - 1])
  {
    SortMirrors(t, t.order);
    FirstOfReverse(t, Ascending(t, t.order), cursor);
  }

  predicate Sorted<Id(==, !new)>(t: Table<Id>, ids: seq<Id>)
  {
    && Known(t, ids)
    && forall i, j :: 0 <= i < j < |ids| ==> RoundOf(t, ids[i]) <= RoundOf(t, ids[j])
  }

  lemma {:induction false} InsertUpSorted<Id(!new)>(t: Table<Id>, sorted: seq<Id>, id: Id)
    requires Sorted(t, sorted) && id in t.rows
    ensures Sorted(t, InsertUp(t, sorted, id))
    ensures forall r :: Below(t, sorted, r) && RoundOf(t, id) <= r ==> Below(t, InsertUp(t, sorted, id), r)
    decreases |sorted|
  {
    if sorted != [] && RoundOf(t, sorted[|sorted| - 1]) > RoundOf(t, id) {
      var front, last := sorted[..|sorted| - 1], sorted[|sorted| - 1];
      InsertUpSorted(t, front, id);
      assert Below(t, front, RoundOf(t, last));
    }
  }

  predicate Below<Id(==, !new)>(t: Table<Id>, ids: seq<Id>, r: int)
  {
    forall i :: 0 <= i < |ids| ==> ids[i] in t.rows && RoundOf(t, ids[i]) <= r
  }

  lemma {:induction false} InsertUpContents<Id(!new)>(t: Table<Id>, sorted: seq<Id>, id: Id)
    requires Known(t, sorted) && id in t.rows
    ensures multiset(InsertUp(t, sorted, id)) == multiset(sorted) + multiset{id}
    decreases |sorted|
  {
    if sorted != [] && RoundOf(t, sorted[|sorted| - 1]) > RoundOf(t, id) {
      var front, last := sorted[..|sorted| - 1], sorted[|sorted| - 1];
      assert sorted == front + [last];
      InsertUpContents(t, front, id);
    }
  }

  lemma {:induction false} AscendingSorted<Id(!new)>(t: Table<Id>, ids: seq<Id>)
    requires Known(t, ids)
    ensures Sorted(t, Ascending(t, ids))
    ensures multiset(Ascending(t, ids)) == multiset(ids)
  {
    if ids != [] {
      AscendingSorted(t, ids[..|ids| - 1]);
      InsertUpSorted(t, Ascending(t, ids[..|ids| - 1]), ids[|ids| - 1]);
      InsertUpContents(t, Ascending(t, ids[..|ids| - 1]), ids[|ids| - 1]);
      assert ids == ids[..|ids| - 1] + [ids[|ids| - 1]];
    }
  }

  lemma {:induction false} OnlyCursorSorted<Id(!new)>(t: Table<Id>, ids: seq<Id>, cursor: Option<int>)
    requires Sorted(t, ids)
    ensures Sorted(t, OnlyCursor(t, ids, cursor))
    ensures forall r :: Below(t, ids, r) ==> Below(t, OnlyCursor(t, ids, cursor), r)
  {
    if ids != [] {
      var front, last := ids[..|ids| - 1], ids[|ids| - 1];
      OnlyCursorSorted(t, front, cursor);
      assert Below(t, front, RoundOf(t, last));
    }
  }

  lemma {:induction false} OnlyCursorOnce<Id(!new)>(t: Table<Id>, ids: seq<Id>, cursor: Option<int>)
    requires Known(t, ids)
    ensures forall id :: multiset(OnlyCursor(t, ids, cursor))[id] <= multiset(ids)[id]
  {
    if ids != [] {
      OnlyCursorOnce(t, ids[..|ids| - 1], cursor);
      assert ids == ids[..|ids| - 1] + [ids[|ids| - 1]];
    }
  }

  /** In every reachable table the listing of a cursor holds exactly its requests, each once, by round. */
  lemma RequestIdsExact<Id(!new)>(t: Table<Id>, cursor: Option<int>)
    requires WellFormed(t)
    ensures Known(t, t.order)
    ensures Sorted(t, RequestIds(t, cursor))
    ensures forall id :: id in RequestIds(t, cursor) <==> id in t.rows && OfCursor(t, id, cursor)
    ensures forall id :: multiset(RequestIds(t, cursor))[id] <= 1
  {
    var up := Ascending(t, t.order);
    AscendingSorted(t, t.order);
    OnlyCursorSorted(t, up, cursor);
    OnlyCursorOnce(t, up, cursor);
    DistinctOnce(t.order);
    forall id ensures id in up <==> id in t.order {
      assert id in multiset(up) <==> id in multiset(t.order);
    }
  }

  lemma {:induction false} DistinctOnce<Id(!new)>(ids: seq<Id>)
    requires forall i, j :: 0 <= i < j < |ids| ==> ids[i] != ids[j]
    ensures forall id :: multiset(ids)[id] <= 1
  {
    if ids != [] {
      var front, last := ids[..|ids| - 1], ids[|ids| - 1];
      assert ids == front + [last];
      DistinctOnce(front);
      assert last !in multiset(front);
    }
  }

  // ------------------------------------------------------------ the journal

  /** The journal file of one backend. Every method is one transaction. */
  class RelayJournal<Id(==, !new)> {
    const owner: Owner
    var rows: map<Id, Row<Id>>
    var order: seq<Id>
    var audit: seq<(Id, State)>

    function Contents(): Table<Id>
      reads this
    {
      Table(rows, order, audit)
    }

    constructor (owner: Owner)
      ensures Contents() == Empty() && this.owner == owner
    {
      this.owner := owner;
      rows, order, audit := map[], [], [];
    }

    method Move(id: Id, row: Row<Id>, state: State)
      modifies this
      ensures Contents() == Transition(old(Contents()), id, row, state)
    {
      rows := rows[id := row.(state := state)];
      audit := audit + [(id, state)];
    }

    method Stage(metadata: Metadata<Id>, request: string, generation: int) returns (r: Result<()>)
      modifies this
      ensures r.Ok? <==> Step(old(Contents()), owner, Operation.Stage(metadata, request, generation)).Ok?
      ensures Contents() == After(old(Contents()), owner, Operation.Stage(metadata, request, generation))
    {
      if !Admissible(metadata, request, owner) {
        return Refused("metadata");
      }
      if metadata.requestId in rows {
        return Refused("relay request identity already exists");
      }
      if exists id :: id in rows && rows[id].metadata.attemptId == metadata.attemptId && rows[id].metadata.round == metadata.round {
        return Refused("no restaging and no second dispatch");
      }
      order := order + [metadata.requestId];
      Move(metadata.requestId, NewRow(metadata, request, generation), Staged);
      return Ok(());
    }

    method Expose(id: Id) returns (r: Result<string>)
      modifies this
      ensures r.Ok? <==> Step(old(Contents()), owner, Operation.Expose(id)).Ok?
      ensures r.Ok? ==> r.value == old(rows[id].request)
      ensures Contents() == After(old(Contents()), owner, Operation.Expose(id))
    {
      if id !in rows || rows[id].state != Staged {
        return Refused("request is not staged; refusing second exposure");
      }
      var row := rows[id];
      Move(id, row.(exposures := row.exposures + 1, dispatches := row.dispatches + 1), Exposed);
      return Ok(row.request);
    }

    method OutstandingRequest(id: Id) returns (r: Result<string>)
      modifies this
      ensures r.Ok? <==> Step(old(Contents()), owner, Outstanding(id)).Ok?
      ensures r.Ok? ==> r.value == old(rows[id].request)
      ensures Contents() == After(old(Contents()), owner, Outstanding(id))
    {
      if id !in rows || rows[id].state !in {Exposed, ReplyStaged, Authenticated, Applying, Applied, Acked} {
        return Refused("request was never exposed");
      }
      audit := audit + [(id, rows[id].state)];
      return Ok(rows[id].request);
    }

    method StageReply(id: Id, reply: string) returns (r: Result<()>)
      modifies this
      ensures r.Ok? <==> Step(old(Contents()), owner, Operation.StageReply(id, reply)).Ok?
      ensures Contents() == After(old(Contents()), owner, Operation.StageReply(id, reply))
    {
      if reply == "" || id !in rows {
        return Refused("reply must be exact bytes");
      }
      var row := rows[id];
      if row.reply.Some? {
        return if row.reply.value == reply then Ok(()) else Refused("conflicting reply bytes");
      }
      if row.state != Exposed {
        return Refused("reply arrived before exposure");
      }
      Move(id, row.(reply := Some(reply)), ReplyStaged);
      return Ok(());
    }

    method MarkAuthenticated(id: Id, receipt: string) returns (r: Result<()>)
      modifies this
      ensures r.Ok? <==> Step(old(Contents()), owner, Operation.MarkAuthenticated(id, receipt)).Ok?
      ensures Contents() == After(old(Contents()), owner, Operation.MarkAuthenticated(id, receipt))
    {
      if id !in rows || rows[id].state != ReplyStaged {
        return Refused("authentication requires a staged reply");
      }
      var row := rows[id];
      if row.coreReceipt.Some? {
        return if row.coreReceipt.value == receipt then Ok(()) else Refused("conflicting Core authenticity receipt");
      }
      Move(id, row.(coreReceipt := Some(receipt)), Authenticated);
      return Ok(());
    }

    method BeginApplying(id: Id) returns (r: Result<Option<string>>)
      modifies this
      ensures r.Ok? <==> Step(old(Contents()), owner, Operation.BeginApplying(id)).Ok?
      ensures r.Ok? ==> r.value == old(rows[id].reply)
      ensures Contents() == After(old(Contents()), owner, Operation.BeginApplying(id))
    {
      if id !in rows || rows[id].state != Authenticated {
        return Refused("application requires an authenticated reply");
      }
      var row := rows[id];
      Move(id, row, Applying);
      return Ok(row.reply);
    }

    method MarkApplied(id: Id) returns (r: Result<()>)
      modifies this
      ensures r.Ok? <==> Step(old(Contents()), owner, Operation.MarkApplied(id)).Ok?
      ensures Contents() == After(old(Contents()), owner, Operation.MarkApplied(id))
    {
      if id !in rows || rows[id].state !in {ReplyStaged, Authenticated, Applying, Applied} {
        return Refused("application was not authorised");
      }
      if rows[id].state != Applied {
        Move(id, rows[id], Applied);
      }
      return Ok(());
    }

    method MarkAcked(id: Id, receipt: string) returns (r: Result<()>)
      modifies this
      ensures r.Ok? <==> Step(old(Contents()), owner, Operation.MarkAcked(id, receipt)).Ok?
      ensures Contents() == After(old(Contents()), owner, Operation.MarkAcked(id, receipt))
    {
      if id !in rows || rows[id].state != Applied {
        return Refused("ack requires a durable application");
      }
      var row := rows[id];
      if row.ackReceipt.Some? {
        return if row.ackReceipt.value == receipt then Ok(()) else Refused("conflicting ack receipt");
      }
      Move(id, row.(ackReceipt := Some(receipt)), Acked);
      return Ok(());
    }

    /** Walks the rows from the highest round down. */
    method Terminal(cursor: Option<int>) returns (r: Option<Id>)
      requires Known(Contents(), order)
      ensures var ids := RequestIds(Contents(), cursor);
              r == if ids == [] then None else Some(ids[|ids| - 1])
    {
      TerminalIsLast(Contents(), cursor);
      var listing := Descending(Contents(), order);
      for i := 0 to |listing|
        invariant FirstOf(Contents(), listing, cursor) == FirstOf(Contents(), listing[i..], cursor)
      {
        if OfCursor(Contents(), listing[i], cursor) {
          return Some(listing[i]);
        }
        assert listing[i..][1..] == listing[i + 1..];
      }
      return None;
    }
  }
}
