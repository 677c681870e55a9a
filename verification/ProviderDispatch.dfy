/** The provider's side of a dispatch: the command handlers over the mailboxes they read and write.
    A command names a target mailbox; the service also keeps its own. */
module ProviderDispatch {
  import opened Common

  /** A request envelope: the attempt it belongs to and the rest of its bytes. */
  datatype Request = Request(attempt: string, body: string)

  datatype Entry = Entry(id: string, request: Request)

  datatype Mailbox = Mailbox(
    outbox: map<string, Request>, contexts: map<string, string>, ledger: seq<Entry>,
    inbox: map<string, string>, proofs: map<string, string>)

  type Boxes = map<string, Mailbox>

  /** The provider's own mailbox, the reply it builds for a request, and its signature over a
      request in a dispatch context. */
  datatype Service = Service(home: string, reply: Request -> string, sign: (Request, string) -> string)

  /** Mirrored says whether the extra writes to the provider's own mailbox succeed. */
  datatype Command =
    | PutRequest(id: string, target: string, request: Request)
    | PutContext(target: string, attempt: string, context: string)
    | Dispatch(id: string, target: string, reattach: bool, mirrored: bool)
    | Collect(id: string, target: string, mirrored: bool)

  datatype Report = NoRequest | Dispatched | Reattached(count: nat) | Collected(reply: string) | Done

  function Box(boxes: Boxes, name: string): Mailbox
  {
    if name in boxes then boxes[name] else Mailbox(map[], map[], [], map[], map[])
  }

  function Count(ledger: seq<Entry>, id: string): nat
  {
    if ledger == [] then 0
    else Count(ledger[..|ledger| - 1], id) + if ledger[|ledger| - 1].id == id then 1 else 0
  }

  lemma CountAppend(ledger: seq<Entry>, e: Entry)
    ensures forall id :: Count(ledger + [e], id) == Count(ledger, id) + if e.id == id then 1 else 0
  {
    assert (ledger + [e])[..|ledger|] == ledger;
  }

  /** The request file of the target, or else of the provider's own mailbox. */
  function Find(s: Service, boxes: Boxes, id: string, target: string): Option<Request>
  {
    if id in Box(boxes, target).outbox then Some(Box(boxes, target).outbox[id])
    else if id in Box(boxes, s.home).outbox then Some(Box(boxes, s.home).outbox[id])
    else None
  }

  function Previous(s: Service, boxes: Boxes, id: string, target: string): nat
  {
    var here := Count(Box(boxes, target).ledger, id);
    if here > 0 then here else Count(Box(boxes, s.home).ledger, id)
  }

  function Append(boxes: Boxes, name: string, e: Entry): Boxes
  {
    boxes[name := Box(boxes, name).(ledger := Box(boxes, name).ledger + [e])]
  }

  function PutReply(boxes: Boxes, name: string, id: string, reply: string): Boxes
  {
    boxes[name := Box(boxes, name).(inbox := Box(boxes, name).inbox[id := reply])]
  }

  function PutProof(boxes: Boxes, name: string, id: string, proof: string): Boxes
  {
    boxes[name := Box(boxes, name).(proofs := Box(boxes, name).proofs[id := proof])]
  }

  function Context(s: Service, boxes: Boxes, attempt: string, target: string): Option<string>
  {
    if attempt in Box(boxes, target).contexts then Some(Box(boxes, target).contexts[attempt])
    else if attempt in Box(boxes, s.home).contexts then Some(Box(boxes, s.home).contexts[attempt])
    else None
  }

  function AfterReply(s: Service, boxes: Boxes, id: string, target: string, mirrored: bool, request: Request): Boxes
  {
    if id in Box(boxes, target).inbox then boxes
    else
      var written := PutReply(boxes, target, id, s.reply(request));
      if target != s.home && mirrored then PutReply(written, s.home, id, s.reply(request)) else written
  }

  function AfterProof(s: Service, boxes: Boxes, id: string, target: string, mirrored: bool, request: Request): Boxes
  {
    var context := Context(s, boxes, request.attempt, target);
    if id in Box(boxes, target).proofs || context.None? then boxes
    else
      var proof := s.sign(request, context.value);
      var written := PutProof(boxes, target, id, proof);
      if target != s.home && mirrored then PutProof(written, s.home, id, proof) else written
  }

  /** What one command leaves behind. */
  function After(s: Service, boxes: Boxes, c: Command): Boxes
  {
    match c
    case PutRequest(id, target, request) =>
      boxes[target := Box(boxes, target).(outbox := Box(boxes, target).outbox[id := request])]
    case PutContext(target, attempt, context) =>
      boxes[target := Box(boxes, target).(contexts := Box(boxes, target).contexts[attempt := context])]
    case Dispatch(id, target, reattach, mirrored) =>
      var request := Find(s, boxes, id, target);
      if request.None? || Previous(s, boxes, id, target) > 0 || reattach then boxes
      else
        var written := Append(boxes, target, Entry(id, request.value));
        if target != s.home && mirrored then Append(written, s.home, Entry(id, request.value)) else written
    case Collect(id, target, mirrored) =>
      var request := Find(s, boxes, id, target);
      if request.None? then boxes
      else AfterProof(s, AfterReply(s, boxes, id, target, mirrored, request.value), id, target, mirrored, request.value)
  }

  predicate Submits(s: Service, boxes: Boxes, c: Command, id: string)
  {
    c.Dispatch? && c.id == id && Find(s, boxes, id, c.target).Some? && Previous(s, boxes, id, c.target) == 0 && !c.reattach
  }

  function Run(s: Service, boxes: Boxes, commands: seq<Command>): Boxes
    decreases |commands|
  {
    if commands == [] then boxes else Run(s, After(s, boxes, commands[0]), commands[1..])
  }

  /** How often the run crosses the submission boundary for a request. */
  function Submissions(s: Service, boxes: Boxes, commands: seq<Command>, id: string): nat
    decreases |commands|
  {
    if commands == [] then 0
    else (if Submits(s, boxes, commands[0], id) then 1 else 0) + Submissions(s, After(s, boxes, commands[0]), commands[1..], id)
  }

  // ------------------------------------------------------------ at most once

  /** No ledger has two rows for one request. */
  ghost predicate Once(boxes: Boxes)
  {
    forall name, id :: Count(Box(boxes, name).ledger, id) <= 1
  }

  lemma StepOnce(s: Service, boxes: Boxes, c: Command)
    requires Once(boxes)
    ensures Once(After(s, boxes, c)) && Grows(boxes, After(s, boxes, c))
  {
    if c.Dispatch? && Submits(s, boxes, c, c.id) {
      SubmitOnce(s, boxes, c);
    } else {
      LedgersKept(s, boxes, c);
    }
  }

  lemma LedgersKept(s: Service, boxes: Boxes, c: Command)
    requires !(c.Dispatch? && Submits(s, boxes, c, c.id))
    ensures forall name :: Box(After(s, boxes, c), name).ledger == Box(boxes, name).ledger
  {
    if c.Collect? && Find(s, boxes, c.id, c.target).Some? {
      var request := Find(s, boxes, c.id, c.target).value;
      CollectLedgers(s, boxes, c.id, c.target, c.mirrored, request);
      CollectLedgers(s, AfterReply(s, boxes, c.id, c.target, c.mirrored, request), c.id, c.target, c.mirrored, request);
    }
  }

  lemma CollectLedgers(s: Service, boxes: Boxes, id: string, target: string, mirrored: bool, request: Request)
    ensures forall name :: Box(AfterReply(s, boxes, id, target, mirrored, request), name).ledger == Box(boxes, name).ledger
    ensures forall name :: Box(AfterProof(s, boxes, id, target, mirrored, request), name).ledger == Box(boxes, name).ledger
  {
  }

  lemma SubmitOnce(s: Service, boxes: Boxes, c: Command)
    requires Once(boxes) && c.Dispatch? && Submits(s, boxes, c, c.id)
    ensures Once(After(s, boxes, c)) && Grows(boxes, After(s, boxes, c))
  {
    var e := Entry(c.id, Find(s, boxes, c.id, c.target).value);
    var written := Append(boxes, c.target, e);
    AppendOnce(boxes, c.target, e);
    if c.target != s.home && c.mirrored {
      AppendOnce(written, s.home, e);
      GrowsTransitive(boxes, written, Append(written, s.home, e));
    }
  }

  lemma GrowsTransitive(a: Boxes, b: Boxes, c: Boxes)
    requires Grows(a, b) && Grows(b, c)
    ensures Grows(a, c)
  {
    forall name, id ensures Count(Box(c, name).ledger, id) >= Count(Box(a, name).ledger, id) {
      assert Count(Box(b, name).ledger, id) >= Count(Box(a, name).ledger, id);
    }
  }

  ghost predicate Grows(boxes: Boxes, next: Boxes)
  {
    forall name, id :: Count(Box(next, name).ledger, id) >= Count(Box(boxes, name).ledger, id)
  }

  lemma AppendOnce(boxes: Boxes, name: string, e: Entry)
    requires Once(boxes) && Count(Box(boxes, name).ledger, e.id) == 0
    ensures Once(Append(boxes, name, e)) && Grows(boxes, Append(boxes, name, e))
  {
    CountAppend(Box(boxes, name).ledger, e);
    forall other, id ensures Count(Box(Append(boxes, name, e), other).ledger, id) <= 1 {
      assert Count(Box(boxes, other).ledger, id) <= 1;
    }
  }

  lemma {:induction false} RunOnce(s: Service, boxes: Boxes, commands: seq<Command>)
    requires Once(boxes)
    ensures Once(Run(s, boxes, commands))
    decreases |commands|
  {
    if commands != [] {
      StepOnce(s, boxes, commands[0]);
      RunOnce(s, After(s, boxes, commands[0]), commands[1..]);
    }
  }

  /** The provider can write its own ledger for every dispatch of the request. */
  ghost predicate Mirrored(commands: seq<Command>, id: string)
  {
    forall i :: 0 <= i < |commands| && commands[i].Dispatch? && commands[i].id == id ==> commands[i].mirrored
  }

  ghost predicate OneTarget(commands: seq<Command>, id: string, target: string)
  {
    forall i :: 0 <= i < |commands| && commands[i].Dispatch? && commands[i].id == id ==> commands[i].target == target
  }

  /** Over any commands for any mailboxes a request is submitted at most once, and not at all once
      the provider's own ledger has it, provided the provider can write that ledger. */
  lemma {:induction false} SubmittedAtMostOnce(s: Service, boxes: Boxes, commands: seq<Command>, id: string)
    requires Once(boxes) && Mirrored(commands, id)
    ensures Submissions(s, boxes, commands, id) + Count(Box(boxes, s.home).ledger, id) <= 1
    decreases |commands|
  {
    if commands != [] {
      StepOnce(s, boxes, commands[0]);
      if Submits(s, boxes, commands[0], id) {
        SubmitRecorded(s, boxes, commands[0], id);
      }
      SubmittedAtMostOnce(s, After(s, boxes, commands[0]), commands[1..], id);
    }
  }

  /** A submission is recorded in the target's ledger, and in the provider's own when that is writable. */
  lemma SubmitRecorded(s: Service, boxes: Boxes, c: Command, id: string)
    requires Submits(s, boxes, c, id)
    ensures Count(Box(boxes, s.home).ledger, id) == Count(Box(boxes, c.target).ledger, id) == 0
    ensures Count(Box(After(s, boxes, c), c.target).ledger, id) == 1
    ensures c.mirrored ==> Count(Box(After(s, boxes, c), s.home).ledger, id) == 1
  {
    var e := Entry(id, Find(s, boxes, id, c.target).value);
    CountAppend(Box(boxes, c.target).ledger, e);
    CountAppend(Box(boxes, s.home).ledger, e);
  }

  /** The same for one mailbox, even when the provider's own ledger cannot be written. */
  lemma {:induction false} SubmittedAtMostOncePerTarget(s: Service, boxes: Boxes, commands: seq<Command>, id: string, target: string)
    requires Once(boxes) && OneTarget(commands, id, target)
    ensures Submissions(s, boxes, commands, id) + Count(Box(boxes, target).ledger, id) <= 1
    decreases |commands|
  {
    if commands != [] {
      StepOnce(s, boxes, commands[0]);
      if Submits(s, boxes, commands[0], id) {
        SubmitRecorded(s, boxes, commands[0], id);
      }
      SubmittedAtMostOncePerTarget(s, After(s, boxes, commands[0]), commands[1..], id, target);
    }
  }

  ghost predicate RowFree(boxes: Boxes, id: string)
  {
    forall name :: Count(Box(boxes, name).ledger, id) == 0
  }

  /** The provider's own ledger gets a row: it is the target, or the copy succeeds. */
  predicate ReachesHome(s: Service, c: Command)
    requires c.Dispatch?
  {
    c.target == s.home || c.mirrored
  }

  /** The request has a row in the target's ledger, maybe one in the provider's, and no other. */
  ghost predicate RowsAt(s: Service, boxes: Boxes, id: string, target: string, home: bool)
  {
    forall name :: Count(Box(boxes, name).ledger, id) == if name == target || (name == s.home && home) then 1 else 0
  }

  /** Where a first submission leaves rows. */
  lemma RowsOfSubmission(s: Service, boxes: Boxes, c: Command, id: string)
    requires RowFree(boxes, id) && Submits(s, boxes, c, id)
    ensures RowsAt(s, After(s, boxes, c), id, c.target, ReachesHome(s, c))
  {
    var e := Entry(id, Find(s, boxes, id, c.target).value);
    var written := Append(boxes, c.target, e);
    CountAppend(Box(boxes, c.target).ledger, e);
    CountAppend(Box(written, s.home).ledger, e);
    forall name
      ensures Count(Box(After(s, boxes, c), name).ledger, id) ==
                if name == c.target || (name == s.home && ReachesHome(s, c)) then 1 else 0
    {
      assert Count(Box(boxes, name).ledger, id) == 0;
    }
  }

  /** A command that does not submit the request leaves its rows alone. */
  lemma RowsKept(s: Service, boxes: Boxes, c: Command, id: string)
    requires !Submits(s, boxes, c, id)
    ensures forall name :: Count(Box(After(s, boxes, c), name).ledger, id) == Count(Box(boxes, name).ledger, id)
  {
    if c.Dispatch? && Submits(s, boxes, c, c.id) {
      var e := Entry(c.id, Find(s, boxes, c.id, c.target).value);
      CountAppend(Box(boxes, c.target).ledger, e);
      CountAppend(Box(Append(boxes, c.target, e), s.home).ledger, e);
    } else {
      LedgersKept(s, boxes, c);
    }
  }

  lemma {:induction false} RowsKeptBetween(s: Service, boxes: Boxes, commands: seq<Command>, id: string)
    requires Submissions(s, boxes, commands, id) == 0
    ensures forall name :: Count(Box(Run(s, boxes, commands), name).ledger, id) == Count(Box(boxes, name).ledger, id)
    decreases |commands|
  {
    if commands != [] {
      RowsKept(s, boxes, commands[0], id);
      RowsKeptBetween(s, After(s, boxes, commands[0]), commands[1..], id);
    }
  }

  /** Exactly when a request is submitted again: after a first submission, and anything in between that
      does not submit it, a dispatch submits it once more iff it could have been the first one and
      goes to another mailbox while the first one left no row in the provider's own. */
  lemma SubmittedAgain(s: Service, boxes: Boxes, first: Command, between: seq<Command>, second: Command, id: string)
    requires RowFree(boxes, id) && Submits(s, boxes, first, id)
    requires Submissions(s, After(s, boxes, first), between, id) == 0
    ensures var later := Run(s, After(s, boxes, first), between);
            Submits(s, later, second, id) <==>
              && second.Dispatch? && second.id == id && !second.reattach && Find(s, later, id, second.target).Some?
              && second.target != first.target && first.target != s.home && !first.mirrored
  {
    RowsOfSubmission(s, boxes, first, id);
    RowsKeptBetween(s, After(s, boxes, first), between, id);
  }

  /** The whole run: with rows nowhere, a request is submitted at most once by every continuation iff
      its first submission reaches the provider's own ledger, or no later dispatch of it names
      another mailbox where the request is found. */
  lemma {:induction false} NeverAgain(s: Service, boxes: Boxes, first: Command, rest: seq<Command>, id: string)
    requires RowFree(boxes, id) && Submits(s, boxes, first, id)
    ensures Submissions(s, After(s, boxes, first), rest, id) == 0 <==>
              ReachesHome(s, first) || !Escapes(s, After(s, boxes, first), rest, first.target, id)
  {
    RowsOfSubmission(s, boxes, first, id);
    EscapeExact(s, After(s, boxes, first), rest, first.target, ReachesHome(s, first), id);
  }

  /** Some dispatch of the request, not a reattaching one, names another mailbox and finds the request. */
  predicate Escapes(s: Service, boxes: Boxes, commands: seq<Command>, target: string, id: string)
    decreases |commands|
  {
    commands != [] &&
    (|| Leaves(s, boxes, commands[0], target, id)
     || Escapes(s, After(s, boxes, commands[0]), commands[1..], target, id))
  }

  predicate Leaves(s: Service, boxes: Boxes, c: Command, target: string, id: string)
  {
    c.Dispatch? && c.id == id && !c.reattach && c.target != target && Find(s, boxes, id, c.target).Some?
  }

  lemma {:induction false} EscapeExact(s: Service, boxes: Boxes, commands: seq<Command>, target: string, home: bool, id: string)
    requires RowsAt(s, boxes, id, target, home) && (target == s.home ==> home)
    ensures Submissions(s, boxes, commands, id) == 0 <==> home || !Escapes(s, boxes, commands, target, id)
    decreases |commands|
  {
    if commands != [] {
      var c := commands[0];
      assert Submits(s, boxes, c, id) <==> !home && Leaves(s, boxes, c, target, id);
      if !Submits(s, boxes, c, id) {
        RowsKept(s, boxes, c, id);
        EscapeExact(s, After(s, boxes, c), commands[1..], target, home, id);
      }
    }
  }

  /** Two targets and a provider mailbox that cannot be written: the request is submitted twice. */
  lemma TwoTargetsUnmirrored(s: Service, request: Request)
    requires s.home == "home"
    ensures var boxes := map["a" := Mailbox(map["r" := request], map[], [], map[], map[]),
                             "b" := Mailbox(map["r" := request], map[], [], map[], map[])];
            Submissions(s, boxes, [Dispatch("r", "a", false, false), Dispatch("r", "b", false, false)], "r") == 2
  {
    var boxes := map["a" := Mailbox(map["r" := request], map[], [], map[], map[]),
                     "b" := Mailbox(map["r" := request], map[], [], map[], map[])];
    var first, second := Dispatch("r", "a", false, false), Dispatch("r", "b", false, false);
    assert Submits(s, boxes, first, "r");
    var next := After(s, boxes, first);
    assert Box(next, "b") == Box(boxes, "b") && Box(next, "home") == Box(boxes, "home");
    assert Submits(s, next, second, "r");
    assert [first, second][1..] == [second];
    assert [second][1..] == [];
    assert Submissions(s, After(s, next, second), [], "r") == 0;
    assert Submissions(s, next, [second], "r") == 1;
  }

  /** Repeating a dispatch, reattaching or not, leaves everything as it is. */
  lemma DuplicateDispatch(s: Service, boxes: Boxes, id: string, target: string, reattach: bool, m: bool, n: bool)
    ensures var once := After(s, boxes, Dispatch(id, target, false, m));
            After(s, once, Dispatch(id, target, reattach, n)) == once
    ensures After(s, boxes, Dispatch(id, target, true, m)) == boxes
  {
    var once := After(s, boxes, Dispatch(id, target, false, m));
    if Submits(s, boxes, Dispatch(id, target, false, m), id) {
      var e := Entry(id, Find(s, boxes, id, target).value);
      CountAppend(Box(boxes, target).ledger, e);
      CountAppend(Box(Append(boxes, target, e), s.home).ledger, e);
    }
  }

  // ------------------------------------------------------------ replies and proofs

  /** The reply and the proof in a mailbox are written once; the requests of a run are not rewritten. */
  ghost predicate Faithful(s: Service, boxes: Boxes, requests: string -> Request)
  {
    forall name :: name in boxes ==> BoxFaithful(s, boxes[name], requests)
  }

  ghost predicate BoxFaithful(s: Service, box: Mailbox, requests: string -> Request)
  {
    && (forall id :: id in box.outbox ==> box.outbox[id] == requests(id))
    && (forall id :: id in box.inbox ==> box.inbox[id] == s.reply(requests(id)))
  }

  ghost predicate Exact(commands: seq<Command>, requests: string -> Request)
  {
    forall i :: 0 <= i < |commands| && commands[i].PutRequest? ==> commands[i].request == requests(commands[i].id)
  }

  ghost predicate Keeps(boxes: Boxes, next: Boxes)
  {
    forall name :: name in boxes ==> name in next && BoxKeeps(boxes[name], next[name])
  }

  ghost predicate BoxKeeps(box: Mailbox, next: Mailbox)
  {
    && (forall id :: id in box.inbox ==> id in next.inbox && next.inbox[id] == box.inbox[id])
    && box.proofs.Keys <= next.proofs.Keys && box.contexts.Keys <= next.contexts.Keys
  }

  lemma OneBoxChanges(s: Service, boxes: Boxes, name: string, box: Mailbox, requests: string -> Request)
    requires Faithful(s, boxes, requests) && BoxFaithful(s, box, requests) && BoxKeeps(Box(boxes, name), box)
    ensures Faithful(s, boxes[name := box], requests) && Keeps(boxes, boxes[name := box])
  {
  }

  lemma ReplyFaithful(s: Service, boxes: Boxes, name: string, id: string, requests: string -> Request)
    requires Faithful(s, boxes, requests)
    ensures Faithful(s, PutReply(boxes, name, id, s.reply(requests(id))), requests)
    ensures Keeps(boxes, PutReply(boxes, name, id, s.reply(requests(id))))
  {
    assert BoxFaithful(s, Box(boxes, name), requests);
    OneBoxChanges(s, boxes, name, Box(boxes, name).(inbox := Box(boxes, name).inbox[id := s.reply(requests(id))]), requests);
  }

  lemma ProofFaithful(s: Service, boxes: Boxes, name: string, id: string, proof: string, requests: string -> Request)
    requires Faithful(s, boxes, requests)
    ensures Faithful(s, PutProof(boxes, name, id, proof), requests) && Keeps(boxes, PutProof(boxes, name, id, proof))
  {
    assert BoxFaithful(s, Box(boxes, name), requests);
    OneBoxChanges(s, boxes, name, Box(boxes, name).(proofs := Box(boxes, name).proofs[id := proof]), requests);
  }

  lemma AppendFaithful(s: Service, boxes: Boxes, name: string, e: Entry, requests: string -> Request)
    requires Faithful(s, boxes, requests)
    ensures Faithful(s, Append(boxes, name, e), requests) && Keeps(boxes, Append(boxes, name, e))
  {
    assert BoxFaithful(s, Box(boxes, name), requests);
    OneBoxChanges(s, boxes, name, Box(boxes, name).(ledger := Box(boxes, name).ledger + [e]), requests);
  }

  lemma KeepsTransitive(a: Boxes, b: Boxes, c: Boxes)
    requires Keeps(a, b) && Keeps(b, c)
    ensures Keeps(a, c)
  {
    forall name | name in a ensures name in c && BoxKeeps(a[name], c[name]) {
      assert BoxKeeps(a[name], b[name]) && BoxKeeps(b[name], c[name]);
    }
  }

  lemma AfterReplyFaithful(s: Service, boxes: Boxes, id: string, target: string, mirrored: bool, requests: string -> Request)
    requires Faithful(s, boxes, requests)
    ensures var next := AfterReply(s, boxes, id, target, mirrored, requests(id));
            Faithful(s, next, requests) && Keeps(boxes, next)
  {
    var written := PutReply(boxes, target, id, s.reply(requests(id)));
    var copied := PutReply(written, s.home, id, s.reply(requests(id)));
    ReplyFaithful(s, boxes, target, id, requests);
    ReplyFaithful(s, written, s.home, id, requests);
    KeepsTransitive(boxes, written, copied);
  }

  lemma AfterProofFaithful(s: Service, boxes: Boxes, id: string, target: string, mirrored: bool, requests: string -> Request)
    requires Faithful(s, boxes, requests)
    ensures var next := AfterProof(s, boxes, id, target, mirrored, requests(id));
            Faithful(s, next, requests) && Keeps(boxes, next)
  {
    var context := Context(s, boxes, requests(id).attempt, target);
    if context.Some? {
      var proof := s.sign(requests(id), context.value);
      var written := PutProof(boxes, target, id, proof);
      ProofFaithful(s, boxes, target, id, proof, requests);
      ProofFaithful(s, written, s.home, id, proof, requests);
      KeepsTransitive(boxes, written, PutProof(written, s.home, id, proof));
    }
  }

  lemma DispatchFaithful(s: Service, boxes: Boxes, c: Command, requests: string -> Request)
    requires Faithful(s, boxes, requests) && c.Dispatch? && Submits(s, boxes, c, c.id)
    ensures Faithful(s, After(s, boxes, c), requests) && Keeps(boxes, After(s, boxes, c))
  {
    var e := Entry(c.id, Find(s, boxes, c.id, c.target).value);
    var written := Append(boxes, c.target, e);
    AppendFaithful(s, boxes, c.target, e, requests);
    AppendFaithful(s, written, s.home, e, requests);
    KeepsTransitive(boxes, written, Append(written, s.home, e));
  }

  lemma CollectFaithful(s: Service, boxes: Boxes, c: Command, requests: string -> Request)
    requires Faithful(s, boxes, requests) && c.Collect? && Find(s, boxes, c.id, c.target).Some?
    ensures Faithful(s, After(s, boxes, c), requests) && Keeps(boxes, After(s, boxes, c))
  {
    FindFaithful(s, boxes, c.id, c.target, requests);
    var replied := AfterReply(s, boxes, c.id, c.target, c.mirrored, requests(c.id));
    AfterReplyFaithful(s, boxes, c.id, c.target, c.mirrored, requests);
    AfterProofFaithful(s, replied, c.id, c.target, c.mirrored, requests);
    KeepsTransitive(boxes, replied, After(s, boxes, c));
  }

  lemma FindFaithful(s: Service, boxes: Boxes, id: string, target: string, requests: string -> Request)
    requires Faithful(s, boxes, requests) && Find(s, boxes, id, target).Some?
    ensures Find(s, boxes, id, target).value == requests(id)
  {
    assert BoxFaithful(s, Box(boxes, target), requests);
    assert BoxFaithful(s, Box(boxes, s.home), requests);
  }

  lemma PutFaithful(s: Service, boxes: Boxes, c: Command, requests: string -> Request)
    requires Faithful(s, boxes, requests) && (c.PutRequest? || c.PutContext?)
    requires c.PutRequest? ==> c.request == requests(c.id)
    ensures Faithful(s, After(s, boxes, c), requests) && Keeps(boxes, After(s, boxes, c))
  {
    assert BoxFaithful(s, Box(boxes, c.target), requests);
    OneBoxChanges(s, boxes, c.target, Box(After(s, boxes, c), c.target), requests);
  }

  lemma StepFaithful(s: Service, boxes: Boxes, c: Command, requests: string -> Request)
    requires Faithful(s, boxes, requests) && (c.PutRequest? ==> c.request == requests(c.id))
    ensures Faithful(s, After(s, boxes, c), requests) && Keeps(boxes, After(s, boxes, c))
  {
    if c.PutRequest? || c.PutContext? {
      PutFaithful(s, boxes, c, requests);
    } else if c.Dispatch? && Submits(s, boxes, c, c.id) {
      DispatchFaithful(s, boxes, c, requests);
    } else if c.Collect? && Find(s, boxes, c.id, c.target).Some? {
      CollectFaithful(s, boxes, c, requests);
    }
  }

  /** Over any commands every stored reply is the provider's answer to the exact request bytes, and
      once stored it never changes. */
  lemma {:induction false} RepliesExact(s: Service, boxes: Boxes, commands: seq<Command>, requests: string -> Request)
    requires Faithful(s, boxes, requests) && Exact(commands, requests)
    ensures Faithful(s, Run(s, boxes, commands), requests) && Keeps(boxes, Run(s, boxes, commands))
    decreases |commands|
  {
    if commands != [] {
      assert commands[0].PutRequest? ==> commands[0].request == requests(commands[0].id);
      StepFaithful(s, boxes, commands[0], requests);
      forall i | 0 <= i < |commands[1..]| && commands[1..][i].PutRequest?
        ensures commands[1..][i].request == requests(commands[1..][i].id)
      {
        assert commands[1..][i] == commands[i + 1];
      }
      RepliesExact(s, After(s, boxes, commands[0]), commands[1..], requests);
    }
  }

  /** A collect stores a proof exactly when the dispatch context of the attempt is registered, and
      stores a reply whether or not the request was ever dispatched. */
  lemma CollectWrites(s: Service, boxes: Boxes, id: string, target: string, mirrored: bool)
    requires Find(s, boxes, id, target).Some?
    ensures var request := Find(s, boxes, id, target).value;
            var next := After(s, boxes, Collect(id, target, mirrored));
            && id in Box(next, target).inbox
            && (id !in Box(boxes, target).inbox ==> Box(next, target).inbox[id] == s.reply(request))
            && (id in Box(next, target).proofs <==>
                  id in Box(boxes, target).proofs || Context(s, boxes, request.attempt, target).Some?)
            && Box(next, target).ledger == Box(boxes, target).ledger
  {
    var request := Find(s, boxes, id, target).value;
    var replied := AfterReply(s, boxes, id, target, mirrored, request);
    assert Context(s, replied, request.attempt, target) == Context(s, boxes, request.attempt, target);
  }

  // ------------------------------------------------------------ the service

  class ProviderService {
    const service: Service
    var boxes: Boxes

    constructor (service: Service)
      ensures this.service == service && boxes == map[]
    {
      this.service := service;
      boxes := map[];
    }

    method CountRows(name: string, id: string) returns (n: nat)
      ensures n == Count(Box(boxes, name).ledger, id)
    {
      var ledger := Box(boxes, name).ledger;
      n := 0;
      for i := 0 to |ledger|
        invariant n == Count(ledger[..i], id)
      {
        assert ledger[..i + 1][..i] == ledger[..i];
        if ledger[i].id == id {
          n := n + 1;
        }
      }
      assert ledger[..|ledger|] == ledger;
    }

    method Dispatch(id: string, target: string, reattach: bool, mirrored: bool) returns (r: Report)
      modifies this
      ensures boxes == After(service, old(boxes), Command.Dispatch(id, target, reattach, mirrored))
      ensures r == Dispatched <==> Submits(service, old(boxes), Command.Dispatch(id, target, reattach, mirrored), id)
      ensures r == NoRequest <==> Find(service, old(boxes), id, target).None?
      ensures r.Reattached? ==> r.count >= 1 && (r.count > 1 ==> r.count == Previous(service, old(boxes), id, target))
    {
      var request := Find(service, boxes, id, target);
      if request.None? {
        return NoRequest;
      }
      var previous := CountRows(target, id);
      if previous == 0 && target != service.home {
        previous := CountRows(service.home, id);
      }
      if previous > 0 || reattach {
        return Reattached(if previous > 1 then previous else 1);
      }
      boxes := Append(boxes, target, Entry(id, request.value));
      if target != service.home && mirrored {
        boxes := Append(boxes, service.home, Entry(id, request.value));
      }
      return Dispatched;
    }

    method Collect(id: string, target: string, mirrored: bool) returns (r: Report)
      modifies this
      ensures boxes == After(service, old(boxes), Command.Collect(id, target, mirrored))
      ensures r == NoRequest <==> Find(service, old(boxes), id, target).None?
      ensures r != NoRequest ==> id in Box(boxes, target).inbox && r == Collected(Box(boxes, target).inbox[id])
    {
      var request := Find(service, boxes, id, target);
      if request.None? {
        return NoRequest;
      }
      if id !in Box(boxes, target).inbox {
        var reply := service.reply(request.value);
        boxes := PutReply(boxes, target, id, reply);
        if target != service.home && mirrored {
          boxes := PutReply(boxes, service.home, id, reply);
        }
      }
      if id !in Box(boxes, target).proofs {
        var context := Context(service, boxes, request.value.attempt, target);
        if context.Some? {
          var proof := service.sign(request.value, context.value);
          boxes := PutProof(boxes, target, id, proof);
          if target != service.home && mirrored {
            boxes := PutProof(boxes, service.home, id, proof);
          }
        }
      }
      return Collected(Box(boxes, target).inbox[id]);
    }
  }
}
