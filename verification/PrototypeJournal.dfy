/** The synthetic prototype journal: checkpoints of artifacts and one outstanding request at a time. */
module PrototypeJournal {
  import opened Common

  const BINDING := "binding/current-event-binding.json"
  const REQUIRED: set<string> := {
    "runtime/world.sqlite", "runtime/index.sqlite", "runtime/release_state.json", "current-event.json",
    BINDING, "evidence/projection.json", "evidence/failures.jsonl", "mailbox/archive.jsonl"}

  datatype State = Staged | Exposed | ReplyStaged | Applying | Applied

  function Rank(s: State): nat
  {
    match s
    case Staged => 0
    case Exposed => 1
    case ReplyStaged => 2
    case Applying => 3
    case Applied => 4
  }

  datatype Metadata = Metadata(
    cursor: int, eventId: string, round: int, requestId: string, nonce: string,
    requestDigest: string, bindingDigest: string)

  datatype Row = Row(
    metadata: Metadata, checkpoint: int, request: string, state: State,
    reply: Option<string>, receipt: Option<string>)

  /** Stored bytes with the digest recorded beside them. */
  datatype Artifact = Artifact(body: string, sha: string)

  datatype Checkpoint = Checkpoint(manifest: map<string, string>, artifacts: map<string, Artifact>)

  datatype Store = Store(checkpoints: seq<Checkpoint>, rows: map<string, Row>, audit: seq<(string, State)>)

  datatype Operation =
    | TakeCheckpoint(bodies: map<string, string>)
    | Stage(metadata: Metadata, request: string, checkpoint: int)
    | Expose(id: string)
    | StageReply(id: string, raw: string)
    | BeginApplication(id: string)
    | RecordApplication(id: string, receipt: string)

  const SYNTHETIC := "synthetic-"

  predicate Synthetic(id: string)
  {
    SYNTHETIC < id
  }

  // ------------------------------------------------------------ checkpoints

  function Shas(artifacts: map<string, Artifact>): map<string, string>
  {
    map name | name in artifacts :: artifacts[name].sha
  }

  function Bodies(artifacts: map<string, Artifact>): map<string, string>
  {
    map name | name in artifacts :: artifacts[name].body
  }

  predicate Bundleable(bodies: map<string, string>)
  {
    REQUIRED <= bodies.Keys && forall name :: name in bodies ==> SafePath(name)
  }

  function Seal(bodies: map<string, string>, digest: string -> string): Checkpoint
  {
    var artifacts := map name | name in bodies :: Artifact(bodies[name], digest(bodies[name]));
    Checkpoint(Shas(artifacts), artifacts)
  }

  /** The verified artifacts of a checkpoint. */
  function Bundle(checkpoints: seq<Checkpoint>, id: int, digest: string -> string): Result<map<string, string>>
  {
    if !(1 <= id <= |checkpoints|) then Refused("checkpoint missing")
    else
      var c := checkpoints[id - 1];
      if exists name :: name in c.artifacts && digest(c.artifacts[name].body) != c.artifacts[name].sha
      then Refused("artifact corruption")
      else if Shas(c.artifacts) != c.manifest then Refused("checkpoint artifact set mismatch")
      else if !(REQUIRED <= c.artifacts.Keys) then Refused("required evidence missing")
      else Ok(Bodies(c.artifacts))
  }

  ghost predicate Injective(digest: string -> string)
  {
    forall a, b :: digest(a) == digest(b) ==> a == b
  }

  /** Whatever is done to stored artifacts, a bundle that still matches its manifest is the original. */
  lemma TamperedBundleRefused(a: seq<Checkpoint>, b: seq<Checkpoint>, id: int, digest: string -> string)
    requires Injective(digest) && Bundle(a, id, digest).Ok? && Bundle(b, id, digest).Ok?
    requires a[id - 1].manifest == b[id - 1].manifest
    ensures Bundle(a, id, digest) == Bundle(b, id, digest)
  {
    var x, y := a[id - 1].artifacts, b[id - 1].artifacts;
    assert x.Keys == Shas(x).Keys == Shas(y).Keys == y.Keys;
    forall name | name in x ensures x[name].body == y[name].body {
      assert Shas(x)[name] == Shas(y)[name];
    }
    assert Bodies(x) == Bodies(y);
  }

  // ------------------------------------------------------------ transactions

  predicate Outstanding(rows: map<string, Row>)
  {
    exists id :: id in rows && rows[id].state != Applied
  }

  predicate MetadataOk(m: Metadata)
  {
    && Synthetic(m.requestId) && m.cursor > 0 && m.round > 0
    && m.eventId != "" && m.nonce != "" && m.requestDigest != "" && m.bindingDigest != ""
  }

  function Transition(s: Store, id: string, row: Row, state: State): Store
  {
    s.(rows := s.rows[id := row.(state := state)], audit := s.audit + [(id, state)])
  }

  function Step(s: Store, digest: string -> string, op: Operation): Result<Store>
  {
    match op
    case TakeCheckpoint(bodies) =>
      if !Bundleable(bodies) then Refused("missing required evidence or unsafe artifact name")
      else Ok(s.(checkpoints := s.checkpoints + [Seal(bodies, digest)]))
    case Stage(m, request, checkpoint) =>
      if !MetadataOk(m) || request == "" then Refused("relay metadata")
      else if Bundle(s.checkpoints, checkpoint, digest).Refused? then Refused("checkpoint")
      else if m.bindingDigest != digest(BindingOf(s.checkpoints, checkpoint)) then Refused("binding digest mismatch")
      else if Outstanding(s.rows) then Refused("outstanding request; no restaging or second dispatch")
      else if m.requestId in s.rows then Refused("request id not unique")
      else Ok(Transition(s, m.requestId, Row(m, checkpoint, request, Staged, None, None), Staged))
    case _ =>
      if op.id !in s.rows then Refused("unknown request")
      else if Bundle(s.checkpoints, s.rows[op.id].checkpoint, digest).Refused? then Refused("checkpoint")
      else MoveRow(s, s.rows[op.id], op)
  }

  function BindingOf(checkpoints: seq<Checkpoint>, id: int): string
  {
    if 1 <= id <= |checkpoints| && BINDING in checkpoints[id - 1].artifacts
    then checkpoints[id - 1].artifacts[BINDING].body else ""
  }

  function MoveRow(s: Store, row: Row, op: Operation): Result<Store>
    requires !op.Stage? && !op.TakeCheckpoint?
  {
    match op
    case Expose(id) =>
      if row.state != Staged then Refused("do not resend") else Ok(Transition(s, id, row, Exposed))
    case StageReply(id, raw) =>
      if raw == "" then Refused("reply must be exact bytes")
      else if row.reply.Some? then if row.reply.value == raw then Ok(s) else Refused("conflicting reply")
      else if row.state != Exposed then Refused("reply before exposure")
      else Ok(Transition(s, id, row.(reply := Some(raw)), ReplyStaged))
    case BeginApplication(id) =>
      if row.state != ReplyStaged then Refused("application in doubt or already applied; STOP")
      else Ok(Transition(s, id, row, Applying))
    case RecordApplication(id, receipt) =>
      if receipt == "" then Refused("receipt required")
      else if row.state != Applying then Refused("application was not started")
      else Ok(Transition(s, id, row.(receipt := Some(receipt)), Applied))
  }

  function After(s: Store, digest: string -> string, op: Operation): Store
  {
    match Step(s, digest, op)
    case Ok(next) => next
    case Refused(_) => s
  }

  function Run(s: Store, digest: string -> string, ops: seq<Operation>): Store
    decreases |ops|
  {
    if ops == [] then s else Run(After(s, digest, ops[0]), digest, ops[1..])
  }

  const EMPTY: Store := Store([], map[], [])

  // ------------------------------------------------------------ the shape of the log

  function Chain(id: string): seq<(string, State)>
  {
    [(id, Staged), (id, Exposed), (id, ReplyStaged), (id, Applying), (id, Applied)]
  }

  function Chains(ids: seq<string>): seq<(string, State)>
  {
    if ids == [] then [] else Chains(ids[..|ids| - 1]) + Chain(ids[|ids| - 1])
  }

  predicate RowOk(row: Row)
  {
    && (row.reply.Some? <==> Rank(row.state) >= Rank(ReplyStaged))
    && (row.receipt.Some? <==> row.state == Applied)
  }

  predicate Distinct(ids: seq<string>)
  {
    forall i, j :: 0 <= i < j < |ids| ==> ids[i] != ids[j]
  }

  /** The finished requests in order of completion, and the one under way. */
  datatype Progress = Progress(done: seq<string>, current: Option<string>)

  /** The log is the full chains of the finished requests, then a proper prefix of one chain. */
  ghost predicate Shaped(s: Store, p: Progress)
  {
    && Distinct(p.done)
    && (forall id :: id in s.rows <==> id in p.done || p.current == Some(id))
    && (forall id :: id in p.done ==> id in s.rows && s.rows[id].state == Applied)
    && (forall id :: id in s.rows ==> RowOk(s.rows[id]))
    && match p.current
       case None => s.audit == Chains(p.done)
       case Some(id) =>
         && id in s.rows && id !in p.done && s.rows[id].state != Applied
         && s.audit == Chains(p.done) + Chain(id)[..Rank(s.rows[id].state) + 1]
  }

  ghost predicate CheckpointsOk(s: Store, digest: string -> string)
  {
    forall i :: 1 <= i <= |s.checkpoints| ==> Bundle(s.checkpoints, i, digest).Ok?
  }

  lemma ChainsAppend(ids: seq<string>, id: string)
    ensures Chains(ids + [id]) == Chains(ids) + Chain(id)
  {
    assert (ids + [id])[..|ids|] == ids;
  }

  lemma ChainStep(front: seq<(string, State)>, id: string, state: State)
    ensures Rank(state) > 0 ==> front + Chain(id)[..Rank(state)] + [(id, state)] == front + Chain(id)[..Rank(state) + 1]
    ensures front + [(id, Staged)] == front + Chain(id)[..1]
    ensures front + Chain(id)[..Rank(Applied) + 1] == front + Chain(id)
  {
    assert Chain(id)[Rank(state)] == (id, state);
  }

  lemma SealedBundle(checkpoints: seq<Checkpoint>, bodies: map<string, string>, digest: string -> string)
    requires Bundleable(bodies)
    ensures Bundle(checkpoints + [Seal(bodies, digest)], |checkpoints| + 1, digest) == Ok(bodies)
  {
    var c := Seal(bodies, digest);
    assert (checkpoints + [c])[|checkpoints|] == c;
    assert Bodies(c.artifacts) == bodies;
  }

  lemma CheckpointsKept(s: Store, digest: string -> string, op: Operation)
    requires CheckpointsOk(s, digest)
    ensures CheckpointsOk(After(s, digest, op), digest)
    ensures s.checkpoints <= After(s, digest, op).checkpoints
  {
    if op.TakeCheckpoint? && Bundleable(op.bodies) {
      SealedBundle(s.checkpoints, op.bodies, digest);
      var more := After(s, digest, op).checkpoints;
      forall i | 1 <= i <= |more| ensures Bundle(more, i, digest).Ok? {
        if i <= |s.checkpoints| {
          assert Bundle(s.checkpoints, i, digest).Ok? && more[i - 1] == s.checkpoints[i - 1];
        }
      }
    }
  }

  /** An accepted move of a row takes the request under way to the next state. */
  lemma MoveNext(s: Store, row: Row, op: Operation, p: Progress)
    requires Shaped(s, p) && !op.Stage? && !op.TakeCheckpoint? && op.id in s.rows && row == s.rows[op.id]
    requires MoveRow(s, row, op).Ok? && MoveRow(s, row, op).value != s
    ensures exists row', state :: MoveRow(s, row, op).value == Transition(s, op.id, row', state)
              && Rank(state) == Rank(row.state) + 1 && RowOk(row'.(state := state))
    ensures p.current == Some(op.id)
  {
    assert row.state != Applied;
    match op
    case Expose(id) => assert MoveRow(s, row, op).value == Transition(s, id, row, Exposed);
    case StageReply(id, raw) => assert MoveRow(s, row, op).value == Transition(s, id, row.(reply := Some(raw)), ReplyStaged);
    case BeginApplication(id) => assert MoveRow(s, row, op).value == Transition(s, id, row, Applying);
    case RecordApplication(id, receipt) =>
      assert MoveRow(s, row, op).value == Transition(s, id, row.(receipt := Some(receipt)), Applied);
  }

  function Advance(p: Progress, id: string, state: State): Progress
  {
    if state == Applied then Progress(p.done + [id], None) else Progress(p.done, Some(id))
  }

  lemma TransitionShape(s: Store, p: Progress, id: string, row: Row, state: State)
    requires Shaped(s, p) && p.current == Some(id) && Rank(state) == Rank(s.rows[id].state) + 1
    requires RowOk(row.(state := state))
    ensures Shaped(Transition(s, id, row, state), Advance(p, id, state))
  {
    ChainStep(Chains(p.done), id, state);
    if state == Applied {
      ChainsAppend(p.done, id);
      assert forall x :: x in p.done + [id] <==> x in p.done || x == id;
    }
  }

  lemma StageShape(s: Store, p: Progress, id: string, row: Row)
    requires Shaped(s, p) && !Outstanding(s.rows) && id !in s.rows && RowOk(row.(state := Staged))
    ensures Shaped(Transition(s, id, row, Staged), Progress(p.done, Some(id)))
  {
    ChainStep(Chains(p.done), id, Staged);
  }

  lemma StepShape(s: Store, digest: string -> string, op: Operation, p: Progress) returns (q: Progress)
    requires Shaped(s, p)
    ensures Shaped(After(s, digest, op), q)
    ensures p.done <= q.done
  {
    q := p;
    var u := After(s, digest, op);
    if Step(s, digest, op).Ok? && !op.TakeCheckpoint? && u != s {
      if op.Stage? {
        StageShape(s, p, op.metadata.requestId, Row(op.metadata, op.checkpoint, op.request, Staged, None, None));
        q := Progress(p.done, Some(op.metadata.requestId));
      } else {
        MoveNext(s, s.rows[op.id], op, p);
        var row, state :| u == Transition(s, op.id, row, state)
          && Rank(state) == Rank(s.rows[op.id].state) + 1 && RowOk(row.(state := state));
        TransitionShape(s, p, op.id, row, state);
        q := Advance(p, op.id, state);
      }
    }
  }

  lemma {:induction false} RunShape(s: Store, digest: string -> string, ops: seq<Operation>, p: Progress) returns (q: Progress)
    requires Shaped(s, p) && CheckpointsOk(s, digest)
    ensures Shaped(Run(s, digest, ops), q) && CheckpointsOk(Run(s, digest, ops), digest)
    ensures p.done <= q.done
    ensures s.checkpoints <= Run(s, digest, ops).checkpoints
    decreases |ops|
  {
    q := p;
    if ops != [] {
      var next := StepShape(s, digest, ops[0], p);
      CheckpointsKept(s, digest, ops[0]);
      q := RunShape(After(s, digest, ops[0]), digest, ops[1..], next);
    }
  }

  /** The log of every run is full chains of distinct requests, then a proper prefix of one chain. */
  lemma LogShape(digest: string -> string, ops: seq<Operation>) returns (done: seq<string>, id: string, k: nat)
    ensures Distinct(done) && k < |Chain(id)| && (k > 0 ==> id !in done)
    ensures Run(EMPTY, digest, ops).audit == Chains(done) + Chain(id)[..k]
    ensures forall x :: x in Run(EMPTY, digest, ops).rows <==> x in done || (x == id && k > 0)
  {
    assert Shaped(EMPTY, Progress([], None));
    var p := RunShape(EMPTY, digest, ops, Progress([], None));
    done := p.done;
    match p.current {
      case Some(current) =>
        id, k := current, Rank(Run(EMPTY, digest, ops).rows[current].state) + 1;
      case None =>
        id, k := "", 0;
    }
  }

  /** At most one request is ever outstanding, and while one is, none can be staged beside it. */
  lemma OneOutstanding(digest: string -> string, ops: seq<Operation>, x: string, y: string, beside: Operation)
    requires x in Run(EMPTY, digest, ops).rows && Run(EMPTY, digest, ops).rows[x].state != Applied
    ensures y in Run(EMPTY, digest, ops).rows && Run(EMPTY, digest, ops).rows[y].state != Applied ==> x == y
    ensures beside.Stage? ==> Step(Run(EMPTY, digest, ops), digest, beside).Refused?
  {
    var p := RunShape(EMPTY, digest, ops, Progress([], None));
    assert Outstanding(Run(EMPTY, digest, ops).rows);
  }

  /** A checkpoint is recovered byte for byte after any further run. */
  lemma CheckpointRoundTrip(s: Store, digest: string -> string, bodies: map<string, string>, ops: seq<Operation>, p: Progress)
    requires Shaped(s, p) && CheckpointsOk(s, digest) && Bundleable(bodies)
    ensures var t := Run(After(s, digest, TakeCheckpoint(bodies)), digest, ops);
            Bundle(t.checkpoints, |s.checkpoints| + 1, digest) == Ok(bodies)
  {
    var u := After(s, digest, TakeCheckpoint(bodies));
    SealedBundle(s.checkpoints, bodies, digest);
    CheckpointsKept(s, digest, TakeCheckpoint(bodies));
    var q := RunShape(u, digest, ops, p);
    assert Run(u, digest, ops).checkpoints[|s.checkpoints|] == u.checkpoints[|s.checkpoints|];
  }

  /** Redelivery of the accepted reply adds nothing, not even a log line. */
  lemma RedeliveryAddsNothing(digest: string -> string, ops: seq<Operation>, id: string, raw: string)
    requires id in Run(EMPTY, digest, ops).rows && raw != ""
    requires Run(EMPTY, digest, ops).rows[id].reply == Some(raw)
    ensures After(Run(EMPTY, digest, ops), digest, StageReply(id, raw)) == Run(EMPTY, digest, ops)
  {
  }

  // ------------------------------------------------------------ the journal

  class Journal {
    const digest: string -> string
    var checkpoints: seq<Checkpoint>
    var rows: map<string, Row>
    var audit: seq<(string, State)>

    function Contents(): Store
      reads this
    {
      Store(checkpoints, rows, audit)
    }

    constructor (digest: string -> string)
      ensures Contents() == EMPTY && this.digest == digest
    {
      this.digest := digest;
      checkpoints, rows, audit := [], map[], [];
    }

    method TakeCheckpoint(bodies: map<string, string>) returns (r: Result<nat>)
      modifies this
      ensures r.Ok? <==> Bundleable(bodies)
      ensures r.Ok? ==> r.value == |checkpoints| && Bundle(checkpoints, r.value, digest) == Ok(bodies)
      ensures Contents() == After(old(Contents()), digest, Operation.TakeCheckpoint(bodies))
    {
      if !Bundleable(bodies) {
        return Refused("missing required evidence or unsafe artifact name");
      }
      SealedBundle(checkpoints, bodies, digest);
      checkpoints := checkpoints + [Seal(bodies, digest)];
      return Ok(|checkpoints|);
    }

    method Move(id: string, row: Row, state: State)
      modifies this
      ensures Contents() == Transition(old(Contents()), id, row, state)
    {
      rows := rows[id := row.(state := state)];
      audit := audit + [(id, state)];
    }

    method Stage(m: Metadata, request: string, checkpoint: int) returns (r: Result<()>)
      modifies this
      ensures r.Ok? <==> Step(old(Contents()), digest, Operation.Stage(m, request, checkpoint)).Ok?
      ensures Contents() == After(old(Contents()), digest, Operation.Stage(m, request, checkpoint))
    {
      if !MetadataOk(m) || request == "" {
        return Refused("relay metadata");
      }
      var bundle :- Bundle(checkpoints, checkpoint, digest);
      if m.bindingDigest != digest(bundle[BINDING]) {
        return Refused("binding digest mismatch");
      }
      if exists id :: id in rows && rows[id].state != Applied {
        return Refused("outstanding request; no restaging or second dispatch");
      }
      if m.requestId in rows {
        return Refused("request id not unique");
      }
      Move(m.requestId, Row(m, checkpoint, request, Staged, None, None), Staged);
      return Ok(());
    }

    /** The row of a request, with its checkpoint verified. */
    method Lookup(id: string) returns (r: Result<Row>)
      ensures r.Ok? <==> id in rows && Bundle(checkpoints, rows[id].checkpoint, digest).Ok?
      ensures r.Ok? ==> r.value == rows[id]
    {
      if id !in rows {
        return Refused("unknown request");
      }
      var _ :- Bundle(checkpoints, rows[id].checkpoint, digest);
      return Ok(rows[id]);
    }

    method Expose(id: string) returns (r: Result<string>)
      modifies this
      ensures r.Ok? <==> Step(old(Contents()), digest, Operation.Expose(id)).Ok?
      ensures r.Ok? ==> r.value == old(rows[id].request)
      ensures Contents() == After(old(Contents()), digest, Operation.Expose(id))
    {
      var row :- Lookup(id);
      if row.state != Staged {
        return Refused("do not resend");
      }
      Move(id, row, Exposed);
      return Ok(row.request);
    }

    method StageReply(id: string, raw: string) returns (r: Result<()>)
      modifies this
      ensures r.Ok? <==> Step(old(Contents()), digest, Operation.StageReply(id, raw)).Ok?
      ensures Contents() == After(old(Contents()), digest, Operation.StageReply(id, raw))
    {
      if raw == "" {
        return Refused("reply must be exact bytes");
      }
      var row :- Lookup(id);
      if row.reply.Some? {
        return if row.reply.value == raw then Ok(()) else Refused("conflicting reply");
      }
      if row.state != Exposed {
        return Refused("reply before exposure");
      }
      Move(id, row.(reply := Some(raw)), ReplyStaged);
      return Ok(());
    }

    method BeginApplication(id: string) returns (r: Result<Option<string>>)
      modifies this
      ensures r.Ok? <==> Step(old(Contents()), digest, Operation.BeginApplication(id)).Ok?
      ensures r.Ok? ==> r.value == old(rows[id].reply)
      ensures Contents() == After(old(Contents()), digest, Operation.BeginApplication(id))
    {
      var row :- Lookup(id);
      if row.state != ReplyStaged {
        return Refused("application in doubt or already applied; STOP");
      }
      Move(id, row, Applying);
      return Ok(row.reply);
    }

    method RecordSyntheticApplication(id: string, receipt: string) returns (r: Result<()>)
      modifies this
      ensures r.Ok? <==> Step(old(Contents()), digest, RecordApplication(id, receipt)).Ok?
      ensures Contents() == After(old(Contents()), digest, RecordApplication(id, receipt))
    {
      if receipt == "" {
        return Refused("receipt required");
      }
      var row :- Lookup(id);
      if row.state != Applying {
        return Refused("application was not started");
      }
      Move(id, row.(receipt := Some(receipt)), Applied);
      return Ok(());
    }
  }
}
