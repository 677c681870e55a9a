/** Entities and relations over an append-only store: proposals, revisions and upserts with request
    replay, and the provenance they record. */
module WorldGraph {
  import opened Common

  datatype Pin = Pin(id: string, revision: int)

  /** A reference as a request carries it; it need not name a revision. */
  datatype Ref = Ref(id: string, revision: Option<int>)

  datatype Body =
    | Entity(key: string, kind: string, name: Option<string>, aliases: seq<string>, claims: seq<Ref>, evidence: Pin)
    | Relation(left: Ref, relationType: string, right: Ref, evidence: Pin, detail: string)
    | EvidenceSet(members: seq<Ref>)
    | Dependency(dependent: Pin, dependency: Pin, dependencyType: string)
    | Claim
    | Other

  datatype Object = Object(id: string, revision: int, subject: string, body: Body)

  /** What makes two operations the same request under one idempotency key. */
  datatype OperationKey =
    | ProposeKey(entityId: string)
    | ReviseKey(entityId: string, revision: int)
    | UpsertKey(relationId: string, identity: string)

  datatype Operation = Operation(key: OperationKey, scope: string, requestSha: string, reason: string)

  datatype Graph = Graph(
    objects: map<Pin, Object>, latest: map<string, int>, born: map<Pin, nat>, world: nat,
    operations: map<OperationKey, (Operation, nat)>)

  datatype Proposal = Proposal(
    key: string, kind: string, name: Option<string>, aliases: seq<string>, evidence: seq<Ref>, claims: seq<Ref>)

  datatype Revision = Revision(
    entity: Ref, reason: string, evidence: seq<Ref>,
    name: Option<string>, aliases: Option<seq<string>>, claims: Option<seq<Ref>>)

  /** Detail stands for the valid time and the confidence. */
  datatype Upsert = Upsert(left: Ref, relationType: string, right: Ref, detail: string, evidence: seq<Ref>, reason: string)

  /** The derived identifiers. Nothing is assumed of these functions, not even that they are injective. */
  datatype Names = Names(
    entityId: (string, string) -> string,
    relationId: (string, string, string, string) -> string,
    evidenceId: (string, Pin, seq<Ref>, string) -> string,
    dependencyId: (Pin, Pin, string) -> string,
    proposalSha: (Proposal, string) -> string,
    revisionSha: (Revision, string) -> string,
    upsertSha: (Upsert, string) -> string)

  datatype Receipt = Receipt(id: string, revision: int, world: nat)

  // ------------------------------------------------------------ the store's contract

  function PinOf(o: Object): Pin
  {
    Pin(o.id, o.revision)
  }

  function Latest(g: Graph, id: string): int
  {
    if id in g.latest then g.latest[id] else 0
  }

  /** The kind of an object never changes. */
  predicate SameKind(a: Body, b: Body)
  {
    match a
    case Entity(_, _, _, _, _, _) => b.Entity?
    case Relation(_, _, _, _, _) => b.Relation?
    case EvidenceSet(_) => b.EvidenceSet?
    case Dependency(_, _, _) => b.Dependency?
    case Claim => b.Claim?
    case Other => b.Other?
  }

  predicate KindFits(g: Graph, current: Pin, body: Body)
  {
    current in g.objects && SameKind(g.objects[current].body, body)
  }

  /** Appends one revision: the next one of its object, of the same kind. */
  function Put(g: Graph, o: Object): Result<Graph>
  {
    if o.revision != Latest(g, o.id) + 1 then Refused("revision is not the next one")
    else if o.id in g.latest && !KindFits(g, Pin(o.id, g.latest[o.id]), o.body) then Refused("object kind changes")
    else
      Ok(g.(objects := g.objects[PinOf(o) := o], latest := g.latest[o.id := o.revision],
            born := g.born[PinOf(o) := g.world + 1]))
  }

  function PutAll(g: Graph, objects: seq<Object>): Result<Graph>
  {
    if objects == [] then Ok(g)
    else
      match PutAll(g, objects[..|objects| - 1])
      case Refused(reason) => Refused(reason)
      case Ok(h) => Put(h, objects[|objects| - 1])
  }

  /** replay_exact_operation: the world revision of an identical earlier request. */
  function Replay(g: Graph, op: Operation): Result<Option<nat>>
  {
    if op.key !in g.operations then Ok(None)
    else if g.operations[op.key].0 == op then Ok(Some(g.operations[op.key].1))
    else Refused("IDEMPOTENCY_CONFLICT")
  }

  /** One atomic commit. Veto stands for every other reason the store may have to refuse. */
  function Commit(g: Graph, objects: seq<Object>, op: Operation, veto: bool): Result<Graph>
  {
    if op.key in g.operations then Refused("IDEMPOTENCY_CONFLICT")
    else if veto then Refused("store")
    else
      match PutAll(g, objects)
      case Refused(reason) => Refused(reason)
      case Ok(h) => Ok(h.(world := g.world + 1, operations := h.operations[op.key := (op, g.world + 1)]))
  }

  // ------------------------------------------------------------ validation

  predicate AllPinned(refs: seq<Ref>)
  {
    forall i :: 0 <= i < |refs| ==> refs[i].revision.Some?
  }

  predicate NoBlanks(texts: seq<string>)
  {
    forall i :: 0 <= i < |texts| ==> Strip(texts[i]) != ""
  }

  const ENTITY_PREFIX := "entity:"

  predicate ProposalOk(q: Proposal)
  {
    && ENTITY_PREFIX <= q.key && Strip(q.kind) != ""
    && (q.name.Some? ==> Strip(q.name.value) != "") && NoBlanks(q.aliases)
    && (q.name.Some? || q.aliases != []) && q.evidence != []
    && AllPinned(q.evidence) && AllPinned(q.claims)
  }

  predicate RevisionOk(q: Revision)
  {
    && q.entity.revision.Some? && Strip(q.reason) != "" && q.evidence != []
    && AllPinned(q.evidence) && (q.claims.Some? ==> AllPinned(q.claims.value))
    && (q.name.Some? ==> Strip(q.name.value) != "") && (q.aliases.Some? ==> NoBlanks(q.aliases.value))
  }

  predicate UpsertOk(q: Upsert)
  {
    && Strip(q.relationType) != "" && Strip(q.reason) != "" && q.evidence != []
    && q.left.revision.Some? && q.right.revision.Some? && AllPinned(q.evidence)
    && q.left.id != q.right.id
  }

  predicate Found(g: Graph, ref: Ref, subject: string)
  {
    && ref.revision.Some? && Pin(ref.id, ref.revision.value) in g.objects
    && g.objects[Pin(ref.id, ref.revision.value)].subject == subject
  }

  predicate AllFound(g: Graph, refs: seq<Ref>, subject: string)
  {
    forall i :: 0 <= i < |refs| ==> Found(g, refs[i], subject)
  }

  predicate AllClaims(g: Graph, refs: seq<Ref>, subject: string)
  {
    forall i :: 0 <= i < |refs| ==> Found(g, refs[i], subject) && g.objects[Pin(refs[i].id, refs[i].revision.value)].body.Claim?
  }

  predicate CurrentEntity(g: Graph, ref: Ref, subject: string)
  {
    && Found(g, ref, subject) && g.objects[Pin(ref.id, ref.revision.value)].body.Entity?
    && Latest(g, ref.id) == ref.revision.value
  }

  /** find_entity_by_key over the current entities of the subject. */
  predicate HasKey(g: Graph, subject: string, key: string)
  {
    exists id :: id in g.latest && CurrentHasKey(g, id, subject, key)
  }

  predicate CurrentHasKey(g: Graph, id: string, subject: string, key: string)
  {
    && id in g.latest && Pin(id, g.latest[id]) in g.objects
    && var o := g.objects[Pin(id, g.latest[id])];
       o.subject == subject && o.body.Entity? && o.body.key == key
  }

  // ------------------------------------------------------------ what is written

  /** list(dict.fromkeys(...)): each text once, in order of first appearance. */
  function Dedup(texts: seq<string>): (r: seq<string>)
    ensures forall t :: t in r <==> t in texts
    ensures texts != [] ==> r != []
  {
    if texts == [] then []
    else
      var front, last := Dedup(texts[..|texts| - 1]), texts[|texts| - 1];
      assert forall t :: t in texts <==> t in texts[..|texts| - 1] || t == last;
      if last in front then front else front + [last]
  }

  function StripAll(texts: seq<string>): (r: seq<string>)
    ensures |r| == |texts| && forall i :: 0 <= i < |r| ==> r[i] == Strip(texts[i])
  {
    if texts == [] then [] else StripAll(texts[..|texts| - 1]) + [Strip(texts[|texts| - 1])]
  }

  function ToPin(ref: Ref): Pin
    requires ref.revision.Some?
  {
    Pin(ref.id, ref.revision.value)
  }

  function NewDependency(n: Names, subject: string, dependent: Pin, dependency: Pin, prefix: string): Object
  {
    Object(n.dependencyId(dependent, dependency, prefix), 1, subject, Dependency(dependent, dependency, prefix))
  }

  /** The dependencies of an evidence set on its sources. */
  function SourceDependencies(n: Names, subject: string, evidence: Pin, refs: seq<Ref>, prefix: string): (r: seq<Object>)
    requires AllPinned(refs)
    ensures |r| == |refs|
    ensures forall i :: 0 <= i < |r| ==> r[i] == NewDependency(n, subject, evidence, ToPin(refs[i]), prefix)
  {
    if refs == [] then []
    else
      var front, last := refs[..|refs| - 1], refs[|refs| - 1];
      SourceDependencies(n, subject, evidence, front, prefix) + [NewDependency(n, subject, evidence, ToPin(last), prefix)]
  }

  /** _deps: the object on its evidence set, the evidence set on its sources. */
  function Dependencies(n: Names, subject: string, dependent: Pin, evidence: Pin, refs: seq<Ref>, prefix: string): seq<Object>
    requires AllPinned(refs)
  {
    [NewDependency(n, subject, dependent, evidence, prefix)] + SourceDependencies(n, subject, evidence, refs, prefix)
  }

  function ProposeOperation(n: Names, subject: string, q: Proposal, at: string): Operation
  {
    var key := Strip(q.key);
    Operation(ProposeKey(n.entityId(subject, key)), key, n.proposalSha(q, at), key)
  }

  function ProposalObjects(n: Names, subject: string, q: Proposal, at: string): seq<Object>
    requires ProposalOk(q)
  {
    var key := Strip(q.key);
    var entity := Pin(n.entityId(subject, key), 1);
    var evidence := Pin(n.evidenceId(subject, entity, q.evidence, at), 1);
    [Object(evidence.id, 1, subject, EvidenceSet(q.evidence)),
     Object(entity.id, 1, subject,
            Entity(key, Strip(q.kind), if q.name.Some? then Some(Strip(q.name.value)) else None,
                   Dedup(StripAll(q.aliases)), q.claims, evidence))]
    + Dependencies(n, subject, entity, evidence, q.evidence, "entity")
  }

  function Propose(g: Graph, n: Names, subject: string, q: Proposal, at: string, veto: bool): Result<(Graph, Receipt)>
  {
    var op := ProposeOperation(n, subject, q, at);
    var id := n.entityId(subject, Strip(q.key));
    if !ProposalOk(q) then Refused("request")
    else if Replay(g, op).Ok? && Replay(g, op).value.Some? then Ok((g, Receipt(id, 1, Replay(g, op).value.value)))
    else if HasKey(g, subject, Strip(q.key)) then Refused("entity_key already exists")
    else if !AllFound(g, q.evidence, subject) || !AllClaims(g, q.claims, subject) then Refused("evidence")
    else
      match Commit(g, ProposalObjects(n, subject, q, at), op, veto)
      case Refused(reason) => Refused(reason)
      case Ok(h) => Ok((h, Receipt(id, 1, h.world)))
  }

  function ReviseOperation(n: Names, q: Revision, at: string): Operation
    requires q.entity.revision.Some?
  {
    Operation(ReviseKey(q.entity.id, q.entity.revision.value + 1), q.entity.id, n.revisionSha(q, at), Strip(q.reason))
  }

  function RevisedBody(current: Body, q: Revision, evidence: Pin): Body
    requires current.Entity?
  {
    current.(name := if q.name.Some? then Some(Strip(q.name.value)) else current.name,
             aliases := if q.aliases.Some? then Dedup(StripAll(q.aliases.value)) else current.aliases,
             claims := if q.claims.Some? then q.claims.value else current.claims,
             evidence := evidence)
  }

  function RevisionObjects(n: Names, subject: string, current: Object, q: Revision, at: string): seq<Object>
    requires RevisionOk(q) && current.body.Entity?
  {
    var entity := Pin(current.id, current.revision + 1);
    var evidence := Pin(n.evidenceId(subject, entity, q.evidence, at), 1);
    [Object(evidence.id, 1, subject, EvidenceSet(q.evidence)),
     Object(entity.id, entity.revision, current.subject, RevisedBody(current.body, q, evidence))]
    + Dependencies(n, subject, entity, evidence, q.evidence, "entity_revision")
  }

  predicate Named(b: Body)
    requires b.Entity?
  {
    b.name.Some? || b.aliases != []
  }

  function Revise(g: Graph, n: Names, subject: string, q: Revision, at: string, veto: bool): Result<(Graph, Receipt)>
  {
    if !RevisionOk(q) then Refused("request")
    else if ToPin(q.entity) !in g.objects || !g.objects[ToPin(q.entity)].body.Entity? then Refused("entity_ref must point to an Entity")
    else
      var op := ReviseOperation(n, q, at);
      var next := q.entity.revision.value + 1;
      match Replay(g, op)
      case Refused(reason) => Refused(reason)
      case Ok(Some(world)) => Ok((g, Receipt(q.entity.id, next, world)))
      case Ok(None) =>
        if !CurrentEntity(g, q.entity, subject) then Refused("not the current revision")
        else if !AllFound(g, q.evidence, subject) || (q.claims.Some? && !AllClaims(g, q.claims.value, subject)) then Refused("evidence")
        else
          var objects := RevisionObjects(n, subject, g.objects[ToPin(q.entity)], q, at);
          if !Named(objects[1].body) then Refused("entity revision cannot remove all names")
          else
            match Commit(g, objects, op, veto)
            case Refused(reason) => Refused(reason)
            case Ok(h) => Ok((h, Receipt(q.entity.id, next, h.world)))
  }

  function UpsertOperation(n: Names, id: string, q: Upsert, at: string): Operation
  {
    Operation(UpsertKey(id, n.upsertSha(q, at)), Strip(q.relationType), n.upsertSha(q, at), Strip(q.reason))
  }

  function UpsertObjects(n: Names, subject: string, id: string, revision: int, q: Upsert, at: string): seq<Object>
    requires UpsertOk(q)
  {
    var relation := Pin(id, revision);
    var evidence := Pin(n.evidenceId(subject, relation, q.evidence, at), 1);
    [Object(evidence.id, 1, subject, EvidenceSet(q.evidence)),
     Object(id, revision, subject, Relation(q.left, Strip(q.relationType), q.right, evidence, q.detail))]
    + Dependencies(n, subject, relation, evidence, q.evidence, "relation")
    + [NewDependency(n, subject, relation, ToPin(q.left), "relation_left_entity"),
       NewDependency(n, subject, relation, ToPin(q.right), "relation_right_entity")]
  }

  /** Endpoints current, evidence found, and no foreign object under the relation's id. */
  predicate UpsertAllowed(g: Graph, subject: string, id: string, q: Upsert)
  {
    && UpsertOk(q)
    && CurrentEntity(g, q.left, subject) && CurrentEntity(g, q.right, subject)
    && AllFound(g, q.evidence, subject)
    && (id in g.latest ==> RelationOf(g, Pin(id, g.latest[id]), subject))
  }

  predicate RelationOf(g: Graph, pin: Pin, subject: string)
  {
    pin in g.objects && g.objects[pin].body.Relation? && g.objects[pin].subject == subject
  }

  function UpsertUnder(g: Graph, n: Names, subject: string, id: string, q: Upsert, at: string, veto: bool)
    : Result<(Graph, Receipt)>
  {
    if !UpsertAllowed(g, subject, id, q) then Refused("request, endpoint, evidence or relation identity")
    else
      var op := UpsertOperation(n, id, q, at);
      match Replay(g, op)
      case Refused(reason) => Refused(reason)
      case Ok(Some(world)) => Ok((g, Receipt(id, Latest(g, id), world)))
      case Ok(None) =>
        match Commit(g, UpsertObjects(n, subject, id, Latest(g, id) + 1, q, at), op, veto)
        case Refused(reason) => Refused(reason)
        case Ok(h) => Ok((h, Receipt(id, Latest(g, id) + 1, h.world)))
  }

  function RelationId(n: Names, subject: string, q: Upsert): string
  {
    n.relationId(subject, q.left.id, Strip(q.relationType), q.right.id)
  }

  function UpsertRelation(g: Graph, n: Names, subject: string, q: Upsert, at: string, veto: bool): Result<(Graph, Receipt)>
  {
    UpsertUnder(g, n, subject, RelationId(n, subject, q), q, at, veto)
  }

  // ------------------------------------------------------------ what every run keeps

  /** Every object has revisions 1..k without gaps. */
  ghost predicate Contiguous(g: Graph)
  {
    && (forall pin :: pin in g.objects <==> pin.id in g.latest && 1 <= pin.revision <= g.latest[pin.id])
    && (forall pin :: pin in g.objects ==> PinOf(g.objects[pin]) == pin)
    && (forall id :: id in g.latest ==> g.latest[id] >= 1)
  }

  ghost predicate KindsKept(g: Graph)
  {
    forall a, b :: a in g.objects && b in g.objects && a.id == b.id ==> SameKind(g.objects[a].body, g.objects[b].body)
  }

  ghost predicate BornBy(g: Graph, world: nat)
  {
    g.born.Keys == g.objects.Keys && forall pin :: pin in g.born ==> g.born[pin] <= world
  }

  predicate NamesOk(b: Body)
    requires b.Entity?
  {
    Named(b) && (b.name.Some? ==> b.name.value != "") && forall i :: 0 <= i < |b.aliases| ==> b.aliases[i] != ""
  }

  /** Every entity revision has a name, and no blank one. */
  ghost predicate AllNamed(g: Graph)
  {
    forall pin :: pin in g.objects && g.objects[pin].body.Entity? ==> NamesOk(g.objects[pin].body)
  }

  predicate SameIdentity(a: Object, b: Object)
  {
    a.body.Entity? && b.body.Entity? && a.subject == b.subject && a.body.key == b.body.key
  }

  /** One entity per key and subject, and an entity keeps both. */
  ghost predicate KeysUnique(g: Graph)
  {
    forall a, b :: a in g.objects && b in g.objects && g.objects[a].body.Entity? && g.objects[b].body.Entity? ==>
      (a.id == b.id <==> SameIdentity(g.objects[a], g.objects[b]))
  }

  /** Objects of a later commit rank higher; within a commit the evidence set ranks lowest. */
  ghost function Rank(g: Graph, pin: Pin): int
    requires pin in g.objects && pin in g.born
  {
    2 * g.born[pin] + if g.objects[pin].body.EvidenceSet? then 0 else 1
  }

  /** A dependency between stored revisions, from higher to lower rank. */
  ghost predicate Descends(g: Graph, dependent: Pin, dependency: Pin)
  {
    && dependent in g.objects && dependency in g.objects && dependent in g.born && dependency in g.born
    && Rank(g, dependency) < Rank(g, dependent)
  }

  ghost predicate Provenance(g: Graph)
  {
    forall pin :: pin in g.objects && g.objects[pin].body.Dependency? ==>
      Descends(g, g.objects[pin].body.dependent, g.objects[pin].body.dependency)
  }

  ghost predicate Sound(g: Graph)
  {
    Contiguous(g) && KindsKept(g) && BornBy(g, g.world) && AllNamed(g) && KeysUnique(g) && Provenance(g)
  }

  /** h holds the objects of g and of the batch, and nothing else. */
  ghost predicate Extends(g: Graph, h: Graph, batch: seq<Object>)
  {
    && (forall pin :: pin in g.objects ==> pin in h.objects && h.objects[pin] == g.objects[pin])
    && (forall pin :: pin in g.born ==> pin in h.born && h.born[pin] == g.born[pin])
    && (forall i :: 0 <= i < |batch| ==> PinOf(batch[i]) !in g.objects && PinOf(batch[i]) in h.objects
                                         && h.objects[PinOf(batch[i])] == batch[i])
    && (forall pin :: pin in h.objects && pin !in g.objects ==>
          InBatch(batch, h.objects[pin]) && pin in h.born && h.born[pin] == g.world + 1)
  }

  predicate InBatch(batch: seq<Object>, o: Object)
  {
    exists i :: 0 <= i < |batch| && batch[i] == o
  }

  lemma PutKinds(g: Graph, o: Object)
    requires Contiguous(g) && KindsKept(g) && Put(g, o).Ok?
    ensures KindsKept(Put(g, o).value)
  {
    var h := Put(g, o).value;
    forall a, b | a in h.objects && b in h.objects && a.id == b.id
      ensures SameKind(h.objects[a].body, h.objects[b].body)
    {
      if o.id in g.latest {
        var top := Pin(o.id, g.latest[o.id]);
        assert SameKind(g.objects[top].body, o.body);
        assert a != PinOf(o) && a.id == o.id ==> SameKind(g.objects[a].body, g.objects[top].body);
        assert b != PinOf(o) && b.id == o.id ==> SameKind(g.objects[top].body, g.objects[b].body);
      }
    }
  }

  lemma PutContiguous(g: Graph, o: Object)
    requires Contiguous(g) && Put(g, o).Ok?
    ensures Contiguous(Put(g, o).value) && PinOf(o) !in g.objects
  {
  }

  /** A half-written batch: what holds between two puts of one commit. */
  ghost predicate Building(g: Graph, h: Graph, batch: seq<Object>)
  {
    && Contiguous(h) && KindsKept(h) && BornBy(h, g.world + 1) && Extends(g, h, batch)
    && h.world == g.world && h.operations == g.operations
  }

  lemma {:induction false} PutAllShape(g: Graph, batch: seq<Object>)
    requires Contiguous(g) && KindsKept(g) && BornBy(g, g.world) && PutAll(g, batch).Ok?
    ensures Building(g, PutAll(g, batch).value, batch)
  {
    if batch != [] {
      var front, last := batch[..|batch| - 1], batch[|batch| - 1];
      PutAllShape(g, front);
      BuildingStep(g, PutAll(g, front).value, front, last);
      assert batch == front + [last];
    }
  }

  lemma BuildingStep(g: Graph, m: Graph, front: seq<Object>, last: Object)
    requires Building(g, m, front) && Put(m, last).Ok? && g.born.Keys == g.objects.Keys
    ensures Building(g, Put(m, last).value, front + [last])
  {
    PutKinds(m, last);
    PutContiguous(m, last);
    ExtendsMore(g, m, Put(m, last).value, front, last);
  }

  lemma ExtendsMore(g: Graph, m: Graph, h: Graph, front: seq<Object>, last: Object)
    requires Extends(g, m, front) && PinOf(last) !in m.objects && g.born.Keys == g.objects.Keys
    requires h.objects == m.objects[PinOf(last) := last] && h.born == m.born[PinOf(last) := g.world + 1]
    ensures Extends(g, h, front + [last])
  {
    var batch := front + [last];
    forall pin | pin in h.objects && pin !in g.objects ensures InBatch(batch, h.objects[pin]) {
      if pin == PinOf(last) {
        assert batch[|front|] == last;
      } else {
        var i :| 0 <= i < |front| && front[i] == m.objects[pin];
        assert batch[i] == front[i];
      }
    }
  }

  // ------------------------------------------------------------ one commit

  /** A new entity revision fits: named, and of the same identity exactly as its own earlier revisions. */
  ghost predicate EntityFits(g: Graph, o: Object)
  {
    && o.body.Entity? && NamesOk(o.body)
    && forall pin :: pin in g.objects && g.objects[pin].body.Entity? ==> (pin.id == o.id <==> SameIdentity(g.objects[pin], o))
  }

  /** A new dependency fits: from the batch's object to its evidence set, or from either to something
      stored by an earlier commit. */
  ghost predicate DependencyFits(g: Graph, batch: seq<Object>, o: Object)
    requires |batch| >= 2
  {
    && o.body.Dependency?
    && (o.body.dependent == PinOf(batch[0]) || o.body.dependent == PinOf(batch[1]))
    && (o.body.dependency in g.objects || (o.body.dependent == PinOf(batch[1]) && o.body.dependency == PinOf(batch[0])))
  }

  /** An evidence set, one object that uses it, and dependencies. */
  ghost predicate GraphBatch(g: Graph, batch: seq<Object>)
  {
    && |batch| >= 2 && batch[0].body.EvidenceSet?
    && (EntityFits(g, batch[1]) || batch[1].body.Relation?)
    && forall i :: 2 <= i < |batch| ==> DependencyFits(g, batch, batch[i])
  }

  lemma NamedAfter(g: Graph, h: Graph, batch: seq<Object>)
    requires AllNamed(g) && Extends(g, h, batch) && GraphBatch(g, batch)
    ensures AllNamed(h)
  {
    forall pin | pin in h.objects && h.objects[pin].body.Entity? ensures NamesOk(h.objects[pin].body) {
      if pin !in g.objects {
        var i :| 0 <= i < |batch| && batch[i] == h.objects[pin];
        assert i >= 2 ==> DependencyFits(g, batch, batch[i]);
      }
    }
  }

  lemma NewEntityIs(g: Graph, h: Graph, batch: seq<Object>, pin: Pin)
    requires Extends(g, h, batch) && GraphBatch(g, batch) && Contiguous(h)
    requires pin in h.objects && pin !in g.objects && h.objects[pin].body.Entity?
    ensures pin == PinOf(batch[1]) && h.objects[pin] == batch[1] && EntityFits(g, batch[1])
  {
    var i :| 0 <= i < |batch| && batch[i] == h.objects[pin];
    assert i >= 2 ==> DependencyFits(g, batch, batch[i]);
  }

  lemma KeysAfter(g: Graph, h: Graph, batch: seq<Object>)
    requires Contiguous(g) && Contiguous(h) && KeysUnique(g) && Extends(g, h, batch) && GraphBatch(g, batch)
    ensures KeysUnique(h)
  {
    forall a, b | a in h.objects && b in h.objects && h.objects[a].body.Entity? && h.objects[b].body.Entity?
      ensures a.id == b.id <==> SameIdentity(h.objects[a], h.objects[b])
    {
      if a !in g.objects {
        NewEntityIs(g, h, batch, a);
      }
      if b !in g.objects {
        NewEntityIs(g, h, batch, b);
      }
    }
  }

  lemma ProvenanceAfter(g: Graph, h: Graph, batch: seq<Object>)
    requires BornBy(g, g.world) && Provenance(g) && Extends(g, h, batch) && GraphBatch(g, batch) && BornBy(h, g.world + 1)
    ensures Provenance(h)
  {
    forall pin | pin in h.objects && h.objects[pin].body.Dependency?
      ensures Descends(h, h.objects[pin].body.dependent, h.objects[pin].body.dependency)
    {
      if pin in g.objects {
        var b := g.objects[pin].body;
        assert Descends(g, b.dependent, b.dependency);
        assert h.objects[b.dependent] == g.objects[b.dependent] && h.objects[b.dependency] == g.objects[b.dependency];
      } else {
        var i :| 0 <= i < |batch| && batch[i] == h.objects[pin];
        assert i >= 2;
        DependencyDescends(g, h, batch, batch[i]);
      }
    }
  }

  lemma DependencyDescends(g: Graph, h: Graph, batch: seq<Object>, o: Object)
    requires BornBy(g, g.world) && Extends(g, h, batch) && GraphBatch(g, batch) && BornBy(h, g.world + 1)
    requires DependencyFits(g, batch, o)
    ensures Descends(h, o.body.dependent, o.body.dependency)
  {
    var e, m := PinOf(batch[0]), PinOf(batch[1]);
    assert e !in g.objects && e in h.objects && h.objects[e] == batch[0] && h.born[e] == g.world + 1;
    assert m !in g.objects && m in h.objects && h.objects[m] == batch[1] && h.born[m] == g.world + 1;
    if o.body.dependency in g.objects {
      assert h.born[o.body.dependency] == g.born[o.body.dependency] <= g.world;
    }
  }

  lemma CommitSound(g: Graph, batch: seq<Object>, op: Operation, veto: bool)
    requires Sound(g) && Commit(g, batch, op, veto).Ok? && GraphBatch(g, batch)
    ensures Sound(Commit(g, batch, op, veto).value)
  {
    var h := PutAll(g, batch).value;
    BatchSound(g, h, batch);
    SameObjects(h, Commit(g, batch, op, veto).value);
  }

  lemma BatchSound(g: Graph, h: Graph, batch: seq<Object>)
    requires Sound(g) && PutAll(g, batch) == Ok(h) && GraphBatch(g, batch)
    ensures Contiguous(h) && KindsKept(h) && BornBy(h, h.world + 1) && AllNamed(h) && KeysUnique(h) && Provenance(h)
    ensures h.world == g.world && h.operations == g.operations
  {
    PutAllShape(g, batch);
    NamedAfter(g, h, batch);
    KeysAfter(g, h, batch);
    ProvenanceAfter(g, h, batch);
  }

  lemma SameObjects(h: Graph, k: Graph)
    requires Contiguous(h) && KindsKept(h) && BornBy(h, h.world + 1) && AllNamed(h) && KeysUnique(h) && Provenance(h)
    requires k == h.(world := h.world + 1, operations := k.operations)
    ensures Sound(k)
  {
    forall pin | pin in k.objects && k.objects[pin].body.Dependency?
      ensures Descends(k, k.objects[pin].body.dependent, k.objects[pin].body.dependency)
    {
      assert Descends(h, h.objects[pin].body.dependent, h.objects[pin].body.dependency);
    }
  }

  // ------------------------------------------------------------ the three operations

  /** Any call on the store: the three of this service, and commits of other services, which store
      claims and other objects only. */
  datatype Call =
    | ProposeEntity(subject: string, proposal: Proposal, at: string, veto: bool)
    | ReviseEntity(subject: string, revision: Revision, at: string, veto: bool)
    | Upserting(subject: string, upsert: Upsert, at: string, veto: bool)
    | Elsewhere(batch: seq<Object>)

  predicate Foreign(batch: seq<Object>)
  {
    forall i :: 0 <= i < |batch| ==> batch[i].body.Claim? || batch[i].body.Other?
  }

  function Perform(g: Graph, n: Names, c: Call): Result<(Graph, Receipt)>
  {
    match c
    case ProposeEntity(subject, q, at, veto) => Propose(g, n, subject, q, at, veto)
    case ReviseEntity(subject, q, at, veto) => Revise(g, n, subject, q, at, veto)
    case Upserting(subject, q, at, veto) => UpsertRelation(g, n, subject, q, at, veto)
    case Elsewhere(batch) =>
      if !Foreign(batch) then Refused("not a foreign batch")
      else
        match PutAll(g, batch)
        case Refused(reason) => Refused(reason)
        case Ok(h) => Ok((h.(world := g.world + 1), Receipt("", 0, g.world + 1)))
  }

  function After(g: Graph, n: Names, c: Call): Graph
  {
    match Perform(g, n, c)
    case Ok(r) => r.0
    case Refused(_) => g
  }

  function Run(g: Graph, n: Names, calls: seq<Call>): Graph
    decreases |calls|
  {
    if calls == [] then g else Run(After(g, n, calls[0]), n, calls[1..])
  }

  const EMPTY: Graph := Graph(map[], map[], map[], 0, map[])

  /** The dependencies of a batch that stand from position 2 on. */
  predicate Listed(batch: seq<Object>, deps: seq<Object>)
  {
    2 + |deps| <= |batch| && forall i :: 0 <= i < |deps| ==> batch[2 + i] == deps[i]
  }

  lemma DependencyShape(n: Names, subject: string, dependent: Pin, evidence: Pin, refs: seq<Ref>, prefix: string, i: nat)
    requires AllPinned(refs) && i <= |refs|
    ensures var deps := Dependencies(n, subject, dependent, evidence, refs, prefix);
            && |deps| == 1 + |refs| && deps[i].body.Dependency?
            && (i == 0 ==> deps[i].body.dependent == dependent && deps[i].body.dependency == evidence)
            && (i > 0 ==> deps[i].body.dependent == evidence && deps[i].body.dependency == ToPin(refs[i - 1]))
  {
    if i > 0 {
      var sources := SourceDependencies(n, subject, evidence, refs, prefix);
      assert Dependencies(n, subject, dependent, evidence, refs, prefix)[i] == sources[i - 1];
    }
  }

  lemma DependenciesFit(g: Graph, batch: seq<Object>, n: Names, subject: string, refs: seq<Ref>, prefix: string)
    requires |batch| >= 2 && AllPinned(refs) && AllFound(g, refs, subject)
    requires Listed(batch, Dependencies(n, subject, PinOf(batch[1]), PinOf(batch[0]), refs, prefix))
    ensures forall i :: 2 <= i < 3 + |refs| ==> DependencyFits(g, batch, batch[i])
  {
    forall i | 2 <= i < 3 + |refs| ensures DependencyFits(g, batch, batch[i]) {
      DependencyShape(n, subject, PinOf(batch[1]), PinOf(batch[0]), refs, prefix, i - 2);
      assert batch[2 + (i - 2)] == Dependencies(n, subject, PinOf(batch[1]), PinOf(batch[0]), refs, prefix)[i - 2];
      if i > 2 {
        assert Found(g, refs[i - 3], subject);
      }
    }
  }

  lemma CleanAliases(texts: seq<string>)
    requires NoBlanks(texts)
    ensures forall i :: 0 <= i < |Dedup(StripAll(texts))| ==> Dedup(StripAll(texts))[i] != ""
  {
    var d := Dedup(StripAll(texts));
    forall i | 0 <= i < |d| ensures d[i] != "" {
      assert d[i] in StripAll(texts);
    }
  }

  /** An entity with the key of a stored one has the id of a stored one. */
  lemma KeyIsCurrent(g: Graph, pin: Pin, subject: string)
    requires Contiguous(g) && KeysUnique(g) && KindsKept(g) && pin in g.objects && g.objects[pin].body.Entity?
    requires g.objects[pin].subject == subject
    ensures HasKey(g, subject, g.objects[pin].body.key)
  {
    var top := Pin(pin.id, g.latest[pin.id]);
    assert top in g.objects && SameKind(g.objects[pin].body, g.objects[top].body);
    assert SameIdentity(g.objects[pin], g.objects[top]);
    assert CurrentHasKey(g, pin.id, subject, g.objects[pin].body.key);
  }

  /** A proposed entity is new, and so is its key. */
  lemma ProposedIdentity(g: Graph, o: Object)
    requires Contiguous(g) && KeysUnique(g) && KindsKept(g) && o.body.Entity? && o.revision == 1
    requires PinOf(o) !in g.objects && !HasKey(g, o.subject, o.body.key)
    ensures forall pin :: pin in g.objects && g.objects[pin].body.Entity? ==> (pin.id == o.id <==> SameIdentity(g.objects[pin], o))
  {
    forall pin | pin in g.objects && g.objects[pin].body.Entity? ensures pin.id == o.id <==> SameIdentity(g.objects[pin], o) {
      if g.objects[pin].subject == o.subject {
        KeyIsCurrent(g, pin, o.subject);
      }
      assert pin.id == o.id ==> Pin(o.id, 1) in g.objects;
    }
  }

  lemma ProposalFits(g: Graph, n: Names, subject: string, q: Proposal, at: string)
    requires Sound(g) && ProposalOk(q) && !HasKey(g, subject, Strip(q.key)) && AllFound(g, q.evidence, subject)
    requires Pin(n.entityId(subject, Strip(q.key)), 1) !in g.objects
    ensures GraphBatch(g, ProposalObjects(n, subject, q, at))
  {
    var batch := ProposalObjects(n, subject, q, at);
    CleanAliases(q.aliases);
    ProposedIdentity(g, batch[1]);
    assert NamesOk(batch[1].body);
    var deps := Dependencies(n, subject, PinOf(batch[1]), PinOf(batch[0]), q.evidence, "entity");
    assert Listed(batch, deps);
    DependenciesFit(g, batch, n, subject, q.evidence, "entity");
  }

  lemma RevisionFits(g: Graph, n: Names, subject: string, q: Revision, at: string)
    requires Sound(g) && RevisionOk(q) && CurrentEntity(g, q.entity, subject) && AllFound(g, q.evidence, subject)
    requires Named(RevisionObjects(n, subject, g.objects[ToPin(q.entity)], q, at)[1].body)
    ensures GraphBatch(g, RevisionObjects(n, subject, g.objects[ToPin(q.entity)], q, at))
  {
    var current := g.objects[ToPin(q.entity)];
    var batch := RevisionObjects(n, subject, current, q, at);
    var o := batch[1];
    if q.aliases.Some? {
      CleanAliases(q.aliases.value);
    }
    assert NamesOk(current.body) && NamesOk(o.body);
    forall pin | pin in g.objects && g.objects[pin].body.Entity? ensures pin.id == o.id <==> SameIdentity(g.objects[pin], o) {
      assert pin.id == current.id <==> SameIdentity(g.objects[pin], current);
    }
    var deps := Dependencies(n, subject, PinOf(batch[1]), PinOf(batch[0]), q.evidence, "entity_revision");
    assert Listed(batch, deps);
    DependenciesFit(g, batch, n, subject, q.evidence, "entity_revision");
  }

  lemma UpsertFits(g: Graph, n: Names, subject: string, id: string, revision: int, q: Upsert, at: string)
    requires UpsertOk(q) && CurrentEntity(g, q.left, subject) && CurrentEntity(g, q.right, subject) && AllFound(g, q.evidence, subject)
    ensures GraphBatch(g, UpsertObjects(n, subject, id, revision, q, at))
  {
    var batch := UpsertObjects(n, subject, id, revision, q, at);
    var deps := Dependencies(n, subject, PinOf(batch[1]), PinOf(batch[0]), q.evidence, "relation");
    assert |deps| == 1 + |q.evidence| && |batch| == 5 + |q.evidence|;
    assert Listed(batch, deps);
    DependenciesFit(g, batch, n, subject, q.evidence, "relation");
    assert DependencyFits(g, batch, batch[3 + |q.evidence|]) && DependencyFits(g, batch, batch[4 + |q.evidence|]);
  }

  // ------------------------------------------------------------ whole runs

  /** An accepted call replays an earlier request without storing anything, or commits a fitting batch. */
  lemma ProposeCases(g: Graph, n: Names, subject: string, q: Proposal, at: string, veto: bool)
    requires Sound(g) && Propose(g, n, subject, q, at, veto).Ok?
    ensures var h := Propose(g, n, subject, q, at, veto).value.0;
            var op := ProposeOperation(n, subject, q, at);
            && ProposalOk(q)
            && (h == g || (Commit(g, ProposalObjects(n, subject, q, at), op, veto) == Ok(h)
                           && GraphBatch(g, ProposalObjects(n, subject, q, at))))
            && op.key in h.operations && h.operations[op.key].0 == op
  {
    var op := ProposeOperation(n, subject, q, at);
    if !(Replay(g, op).Ok? && Replay(g, op).value.Some?) {
      var batch := ProposalObjects(n, subject, q, at);
      CommitIsNew(g, batch, op, veto);
      ProposalFits(g, n, subject, q, at);
    }
  }

  /** A commit records its operation, and its objects were not stored before. */
  lemma CommitIsNew(g: Graph, batch: seq<Object>, op: Operation, veto: bool)
    requires Sound(g) && Commit(g, batch, op, veto).Ok? && |batch| >= 2
    ensures PinOf(batch[1]) !in g.objects
    ensures Recorded(Commit(g, batch, op, veto).value, Some(op))
  {
    PutAllShape(g, batch);
  }

  lemma ReviseCases(g: Graph, n: Names, subject: string, q: Revision, at: string, veto: bool)
    requires Sound(g) && Revise(g, n, subject, q, at, veto).Ok?
    ensures var h := Revise(g, n, subject, q, at, veto).value.0;
            && RevisionOk(q) && ToPin(q.entity) in g.objects && g.objects[ToPin(q.entity)].body.Entity?
            && var op, batch := ReviseOperation(n, q, at), RevisionObjects(n, subject, g.objects[ToPin(q.entity)], q, at);
               && (h == g || (Commit(g, batch, op, veto) == Ok(h) && GraphBatch(g, batch)))
               && op.key in h.operations && h.operations[op.key].0 == op
  {
    var op := ReviseOperation(n, q, at);
    if op.key !in g.operations {
      RevisionFits(g, n, subject, q, at);
    }
  }

  lemma UpsertCases(g: Graph, n: Names, subject: string, id: string, q: Upsert, at: string, veto: bool)
    requires Sound(g) && UpsertUnder(g, n, subject, id, q, at, veto).Ok?
    ensures var h := UpsertUnder(g, n, subject, id, q, at, veto).value.0;
            && UpsertOk(q)
            && var op, batch := UpsertOperation(n, id, q, at), UpsertObjects(n, subject, id, Latest(g, id) + 1, q, at);
               && (h == g || (Commit(g, batch, op, veto) == Ok(h) && GraphBatch(g, batch)))
               && Recorded(h, Some(op))
  {
    var op := UpsertOperation(n, id, q, at);
    if op.key !in g.operations {
      UpsertFits(g, n, subject, id, Latest(g, id) + 1, q, at);
      CommitIsNew(g, UpsertObjects(n, subject, id, Latest(g, id) + 1, q, at), op, veto);
    }
  }

  lemma ForeignSound(g: Graph, batch: seq<Object>, h: Graph)
    requires Sound(g) && Foreign(batch) && PutAll(g, batch) == Ok(h)
    ensures Sound(h.(world := g.world + 1))
  {
    PutAllShape(g, batch);
    ForeignNew(g, batch, h);
    ForeignKeeps(g, h);
    SameObjects(h, h.(world := g.world + 1));
  }

  lemma PutAllKeeps(g: Graph, batch: seq<Object>)
    requires Sound(g) && PutAll(g, batch).Ok?
    ensures Keeps(g, PutAll(g, batch).value)
  {
    PutAllShape(g, batch);
  }

  lemma ForeignNew(g: Graph, batch: seq<Object>, h: Graph)
    requires Extends(g, h, batch) && Foreign(batch)
    ensures forall pin :: pin in h.objects && pin !in g.objects ==> h.objects[pin].body.Claim? || h.objects[pin].body.Other?
  {
    forall pin | pin in h.objects && pin !in g.objects ensures h.objects[pin].body.Claim? || h.objects[pin].body.Other? {
      var i :| 0 <= i < |batch| && batch[i] == h.objects[pin];
    }
  }

  lemma ForeignKeeps(g: Graph, h: Graph)
    requires AllNamed(g) && KeysUnique(g) && Provenance(g) && BornBy(h, g.world + 1)
    requires forall pin :: pin in g.objects ==> pin in h.objects && h.objects[pin] == g.objects[pin]
    requires forall pin :: pin in g.born ==> pin in h.born && h.born[pin] == g.born[pin]
    requires forall pin :: pin in h.objects && pin !in g.objects ==> h.objects[pin].body.Claim? || h.objects[pin].body.Other?
    ensures AllNamed(h) && KeysUnique(h) && Provenance(h)
  {
    forall a, b | a in h.objects && b in h.objects && h.objects[a].body.Entity? && h.objects[b].body.Entity?
      ensures a.id == b.id <==> SameIdentity(h.objects[a], h.objects[b])
    {
      assert a in g.objects && b in g.objects;
    }
    forall pin | pin in h.objects && h.objects[pin].body.Dependency?
      ensures Descends(h, h.objects[pin].body.dependent, h.objects[pin].body.dependency)
    {
      var b := g.objects[pin].body;
      assert Descends(g, b.dependent, b.dependency);
      assert h.objects[b.dependent] == g.objects[b.dependent] && h.objects[b.dependency] == g.objects[b.dependency];
    }
  }

  /** What an accepted call of this service that stores something commits. */
  lemma StepCommits(g: Graph, n: Names, c: Call) returns (batch: seq<Object>, op: Operation, veto: bool)
    requires Sound(g) && !c.Elsewhere? && Perform(g, n, c).Ok? && After(g, n, c) != g
    ensures Commit(g, batch, op, veto) == Ok(After(g, n, c)) && GraphBatch(g, batch)
  {
    match c
    case ProposeEntity(subject, q, at, v) =>
      ProposeCases(g, n, subject, q, at, v);
      batch, op, veto := ProposalObjects(n, subject, q, at), ProposeOperation(n, subject, q, at), v;
    case ReviseEntity(subject, q, at, v) =>
      ReviseCases(g, n, subject, q, at, v);
      batch, op, veto := RevisionObjects(n, subject, g.objects[ToPin(q.entity)], q, at), ReviseOperation(n, q, at), v;
    case Upserting(subject, q, at, v) =>
      var id := RelationId(n, subject, q);
      UpsertCases(g, n, subject, id, q, at, v);
      batch, op, veto := UpsertObjects(n, subject, id, Latest(g, id) + 1, q, at), UpsertOperation(n, id, q, at), v;
  }

  lemma StepSound(g: Graph, n: Names, c: Call)
    requires Sound(g)
    ensures Sound(After(g, n, c)) && Keeps(g, After(g, n, c))
  {
    if Perform(g, n, c).Ok? && After(g, n, c) != g {
      if c.Elsewhere? {
        ForeignSound(g, c.batch, PutAll(g, c.batch).value);
        PutAllKeeps(g, c.batch);
      } else {
        var batch, op, veto := StepCommits(g, n, c);
        CommitSound(g, batch, op, veto);
        CommitKeeps(g, batch, op, veto);
      }
    }
  }

  lemma {:induction false} RunSound(g: Graph, n: Names, calls: seq<Call>)
    requires Sound(g)
    ensures Sound(Run(g, n, calls))
    decreases |calls|
  {
    if calls != [] {
      StepSound(g, n, calls[0]);
      RunSound(After(g, n, calls[0]), n, calls[1..]);
    }
  }

  /** In every run: revisions 1..k without gaps, one entity per key and subject, every entity revision
      named, every dependency between stored revisions. */
  lemma EveryRun(n: Names, calls: seq<Call>)
    ensures Sound(Run(EMPTY, n, calls))
  {
    RunSound(EMPTY, n, calls);
  }

  /** A chain of dependencies: each pin depends on the next. */
  ghost predicate DependencyPath(g: Graph, path: seq<Pin>)
  {
    forall i :: 0 <= i < |path| - 1 ==> DependsOn(g, path[i], path[i + 1])
  }

  ghost predicate DependsOn(g: Graph, a: Pin, b: Pin)
  {
    exists pin :: pin in g.objects && g.objects[pin].body.Dependency?
                  && g.objects[pin].body.dependent == a && g.objects[pin].body.dependency == b
  }

  lemma {:induction false} PathDescends(g: Graph, path: seq<Pin>)
    requires Sound(g) && DependencyPath(g, path) && |path| >= 2
    ensures Descends(g, path[0], path[|path| - 1])
  {
    assert DependsOn(g, path[0], path[1]);
    if |path| > 2 {
      forall i | 0 <= i < |path[1..]| - 1 ensures DependsOn(g, path[1..][i], path[1..][i + 1]) {
        assert DependsOn(g, path[i + 1], path[i + 2]);
      }
      PathDescends(g, path[1..]);
    }
  }

  /** Provenance has no cycle and no dangling end, in any run. */
  lemma ProvenanceIsAcyclic(n: Names, calls: seq<Call>, path: seq<Pin>)
    requires DependencyPath(Run(EMPTY, n, calls), path) && |path| >= 2
    ensures path[0] != path[|path| - 1]
    ensures path[0] in Run(EMPTY, n, calls).objects && path[|path| - 1] in Run(EMPTY, n, calls).objects
  {
    EveryRun(n, calls);
    PathDescends(Run(EMPTY, n, calls), path);
  }

  // ------------------------------------------------------------ replay

  /** Nothing stored is lost or changed, and no recorded operation either. */
  ghost predicate Keeps(g: Graph, h: Graph)
  {
    && (forall pin :: pin in g.objects ==> pin in h.objects && h.objects[pin] == g.objects[pin])
    && (forall key :: key in g.operations ==> key in h.operations && h.operations[key] == g.operations[key])
  }

  lemma CommitKeeps(g: Graph, batch: seq<Object>, op: Operation, veto: bool)
    requires Sound(g) && Commit(g, batch, op, veto).Ok?
    ensures Keeps(g, Commit(g, batch, op, veto).value)
  {
    PutAllShape(g, batch);
  }

  lemma {:induction false} RunKeeps(g: Graph, n: Names, calls: seq<Call>)
    requires Sound(g)
    ensures Keeps(g, Run(g, n, calls)) && Sound(Run(g, n, calls))
    decreases |calls|
  {
    if calls != [] {
      StepSound(g, n, calls[0]);
      RunKeeps(After(g, n, calls[0]), n, calls[1..]);
    }
  }

  /** The operation a request of this service is recorded under. */
  function OperationOf(n: Names, c: Call): Option<Operation>
  {
    match c
    case ProposeEntity(subject, q, at, _) => Some(ProposeOperation(n, subject, q, at))
    case ReviseEntity(_, q, at, _) => if q.entity.revision.Some? then Some(ReviseOperation(n, q, at)) else None
    case Upserting(subject, q, at, _) =>
      Some(UpsertOperation(n, RelationId(n, subject, q), q, at))
    case Elsewhere(_) => None
  }

  ghost predicate Recorded(g: Graph, op: Option<Operation>)
  {
    op.Some? && op.value.key in g.operations && g.operations[op.value.key].0 == op.value
  }

  lemma AcceptedIsRecorded(g: Graph, n: Names, c: Call)
    requires Sound(g) && !c.Elsewhere? && Perform(g, n, c).Ok?
    ensures Recorded(After(g, n, c), OperationOf(n, c))
  {
    match c
    case ProposeEntity(subject, q, at, veto) => ProposeCases(g, n, subject, q, at, veto);
    case ReviseEntity(subject, q, at, veto) => ReviseCases(g, n, subject, q, at, veto);
    case Upserting(subject, q, at, veto) => UpsertCases(g, n, subject, RelationId(n, subject, q), q, at, veto);
  }

  lemma RecordedStoresNothing(g: Graph, n: Names, c: Call)
    requires Recorded(g, OperationOf(n, c))
    ensures After(g, n, c) == g
  {
  }

  /** Repeating an accepted request exactly, after anything else has happened, stores nothing. */
  lemma RepeatStoresNothing(g: Graph, n: Names, c: Call, calls: seq<Call>, again: Call)
    requires Sound(g) && !c.Elsewhere? && Perform(g, n, c).Ok? && OperationOf(n, again) == OperationOf(n, c)
    ensures var h := Run(After(g, n, c), n, calls);
            After(h, n, again) == h
  {
    var next := After(g, n, c);
    StepSound(g, n, c);
    AcceptedIsRecorded(g, n, c);
    RunKeeps(next, n, calls);
    RecordedStoresNothing(Run(next, n, calls), n, again);
  }

  /** An accepted upsert is recorded with the world revision of its receipt. */
  lemma UpsertRecords(g: Graph, n: Names, subject: string, q: Upsert, at: string, veto: bool)
    requires UpsertRelation(g, n, subject, q, at, veto).Ok?
    ensures var op := UpsertOperation(n, RelationId(n, subject, q), q, at);
            var r := UpsertRelation(g, n, subject, q, at, veto).value;
            && r.0 == After(g, n, Upserting(subject, q, at, veto)) && r.1.id == RelationId(n, subject, q)
            && op.key in r.0.operations && r.0.operations[op.key] == (op, r.1.world)
  {
  }

  lemma RecordedUpsert(h: Graph, n: Names, subject: string, q: Upsert, at: string, world: nat, veto: bool)
    requires var op := UpsertOperation(n, RelationId(n, subject, q), q, at);
             op.key in h.operations && h.operations[op.key] == (op, world)
    ensures var id := RelationId(n, subject, q);
            var r := UpsertRelation(h, n, subject, q, at, veto);
            && (r.Ok? <==> UpsertAllowed(h, subject, id, q))
            && (r.Ok? ==> r.value == (h, Receipt(id, Latest(h, id), world)))
  {
  }

  /** An upsert repeated exactly, after anything else has happened: it is accepted exactly if its request
      is still allowed, with the first receipt except that the revision is the relation's latest. So the
      receipts are equal exactly if the relation has that revision still. */
  lemma RepeatedUpsertReceipt(
    g: Graph, n: Names, subject: string, q: Upsert, at: string, veto: bool, calls: seq<Call>, again: bool, h: Graph)
    requires Sound(g) && UpsertRelation(g, n, subject, q, at, veto).Ok?
    requires h == Run(After(g, n, Upserting(subject, q, at, veto)), n, calls)
    ensures var id := RelationId(n, subject, q);
            var first, second := UpsertRelation(g, n, subject, q, at, veto).value.1, UpsertRelation(h, n, subject, q, at, again);
            && (second.Ok? <==> UpsertAllowed(h, subject, id, q))
            && (second.Ok? ==> second.value == (h, first.(revision := Latest(h, id))))
            && (second.Ok? ==> (second.value.1 == first <==> Latest(h, id) == first.revision))
  {
    var op := UpsertOperation(n, RelationId(n, subject, q), q, at);
    var world := UpsertRelation(g, n, subject, q, at, veto).value.1.world;
    UpsertRecords(g, n, subject, q, at, veto);
    assert op.key in h.operations && h.operations[op.key] == (op, world) by {
      StepSound(g, n, Upserting(subject, q, at, veto));
      RunKeeps(After(g, n, Upserting(subject, q, at, veto)), n, calls);
    }
    RecordedUpsert(h, n, subject, q, at, world, again);
  }

  // ------------------------------------------------------------ the service

  /** The service of one subject over a store that other services also write. */
  class EntityRelationService {
    const names: Names
    const subject: string
    var store: Graph

    constructor (names: Names, subject: string, store: Graph)
      ensures this.names == names && this.subject == subject && this.store == store
    {
      this.names, this.subject, this.store := names, subject, store;
    }

    /** Walks the objects of the store for a current entity of the subject with this key. */
    method FindEntityByKey(key: string) returns (found: Option<Object>)
      ensures found.Some? <==> HasKey(store, subject, key)
      ensures found.Some? ==> found.value.body.Entity? && found.value.body.key == key && found.value.subject == subject
    {
      var left := store.latest.Keys;
      while left != {}
        invariant left <= store.latest.Keys
        invariant forall id :: id in store.latest && id !in left ==> !CurrentHasKey(store, id, subject, key)
        decreases left
      {
        var id :| id in left;
        if CurrentHasKey(store, id, subject, key) {
          return Some(store.objects[Pin(id, store.latest[id])]);
        }
        left := left - {id};
      }
      return None;
    }

    method ValidateEvidence(refs: seq<Ref>) returns (ok: bool)
      ensures ok <==> AllFound(store, refs, subject)
    {
      for i := 0 to |refs|
        invariant forall j :: 0 <= j < i ==> Found(store, refs[j], subject)
      {
        if !Found(store, refs[i], subject) {
          return false;
        }
      }
      return true;
    }

    method ValidateClaims(refs: seq<Ref>) returns (ok: bool)
      ensures ok <==> AllClaims(store, refs, subject)
    {
      for i := 0 to |refs|
        invariant AllClaims(store, refs[..i], subject)
      {
        if !Found(store, refs[i], subject) || !store.objects[ToPin(refs[i])].body.Claim? {
          return false;
        }
        assert refs[..i + 1] == refs[..i] + [refs[i]];
      }
      assert refs[..|refs|] == refs;
      return true;
    }

    method ValidateSources(q: Revision) returns (ok: bool)
      ensures ok <==> AllFound(store, q.evidence, subject) && (q.claims.Some? ==> AllClaims(store, q.claims.value, subject))
    {
      ok := ValidateEvidence(q.evidence);
      if ok && q.claims.Some? {
        ok := ValidateClaims(q.claims.value);
      }
    }

    /** Grows the dependency list source by source. */
    method BuildDependencies(dependent: Pin, evidence: Pin, refs: seq<Ref>, prefix: string) returns (deps: seq<Object>)
      requires AllPinned(refs)
      ensures deps == Dependencies(names, subject, dependent, evidence, refs, prefix)
    {
      deps := [NewDependency(names, subject, dependent, evidence, prefix)];
      for i := 0 to |refs|
        invariant deps == Dependencies(names, subject, dependent, evidence, refs[..i], prefix)
      {
        assert refs[..i + 1][..i] == refs[..i];
        deps := deps + [NewDependency(names, subject, evidence, ToPin(refs[i]), prefix)];
      }
      assert refs[..|refs|] == refs;
    }

    method ProposeEntity(q: Proposal, at: string, veto: bool) returns (r: Result<Receipt>)
      modifies this
      ensures store == After(old(store), names, Call.ProposeEntity(subject, q, at, veto))
      ensures r.Ok? <==> Propose(old(store), names, subject, q, at, veto).Ok?
      ensures r.Ok? ==> r.value == Propose(old(store), names, subject, q, at, veto).value.1
    {
      if !ProposalOk(q) {
        return Refused("request");
      }
      var key := Strip(q.key);
      var id := names.entityId(subject, key);
      var op := ProposeOperation(names, subject, q, at);
      var replay := Replay(store, op);
      if replay.Ok? && replay.value.Some? {
        return Ok(Receipt(id, 1, replay.value.value));
      }
      var found := FindEntityByKey(key);
      if found.Some? {
        return Refused("entity_key already exists");
      }
      var evident := ValidateEvidence(q.evidence);
      var claimed := ValidateClaims(q.claims);
      if !evident || !claimed {
        return Refused("evidence");
      }
      var entity := Pin(id, 1);
      var evidence := Pin(names.evidenceId(subject, entity, q.evidence, at), 1);
      var deps := BuildDependencies(entity, evidence, q.evidence, "entity");
      var name := if q.name.Some? then Some(Strip(q.name.value)) else None;
      var objects := [Object(evidence.id, 1, subject, EvidenceSet(q.evidence)),
                      Object(id, 1, subject, Entity(key, Strip(q.kind), name, Dedup(StripAll(q.aliases)), q.claims, evidence))] + deps;
      var committed :- Commit(store, objects, op, veto);
      store := committed;
      return Ok(Receipt(id, 1, store.world));
    }

    method ReviseEntity(q: Revision, at: string, veto: bool) returns (r: Result<Receipt>)
      modifies this
      ensures store == After(old(store), names, Call.ReviseEntity(subject, q, at, veto))
      ensures r.Ok? <==> Revise(old(store), names, subject, q, at, veto).Ok?
      ensures r.Ok? ==> r.value == Revise(old(store), names, subject, q, at, veto).value.1
    {
      if !RevisionOk(q) {
        return Refused("request");
      }
      var pin := ToPin(q.entity);
      if pin !in store.objects || !store.objects[pin].body.Entity? {
        return Refused("entity_ref must point to an Entity");
      }
      var op := ReviseOperation(names, q, at);
      var replay :- Replay(store, op);
      if replay.Some? {
        return Ok(Receipt(q.entity.id, pin.revision + 1, replay.value));
      }
      r := ApplyRevision(q, at, op, veto);
    }

    method BuildRevision(current: Object, q: Revision, at: string) returns (objects: seq<Object>)
      requires RevisionOk(q) && current.body.Entity?
      ensures objects == RevisionObjects(names, subject, current, q, at)
    {
      var entity := Pin(current.id, current.revision + 1);
      var evidence := Pin(names.evidenceId(subject, entity, q.evidence, at), 1);
      var deps := BuildDependencies(entity, evidence, q.evidence, "entity_revision");
      objects := [Object(evidence.id, 1, subject, EvidenceSet(q.evidence)),
                  Object(entity.id, entity.revision, current.subject, RevisedBody(current.body, q, evidence))] + deps;
    }

    /** The part of a revision that is not a replay. */
    method ApplyRevision(q: Revision, at: string, op: Operation, veto: bool) returns (r: Result<Receipt>)
      requires RevisionOk(q) && ToPin(q.entity) in store.objects && store.objects[ToPin(q.entity)].body.Entity?
      requires op == ReviseOperation(names, q, at) && Replay(store, op) == Ok(None)
      modifies this
      ensures store == After(old(store), names, Call.ReviseEntity(subject, q, at, veto))
      ensures r.Ok? <==> Revise(old(store), names, subject, q, at, veto).Ok?
      ensures r.Ok? ==> r.value == Revise(old(store), names, subject, q, at, veto).value.1
    {
      if !CurrentEntity(store, q.entity, subject) {
        return Refused("not the current revision");
      }
      var evident := ValidateSources(q);
      if !evident {
        return Refused("evidence");
      }
      var current := store.objects[ToPin(q.entity)];
      var objects := BuildRevision(current, q, at);
      if !Named(objects[1].body) {
        return Refused("entity revision cannot remove all names");
      }
      var committed :- Commit(store, objects, op, veto);
      store := committed;
      return Ok(Receipt(q.entity.id, q.entity.revision.value + 1, store.world));
    }

    /** The relation, its evidence, and one dependency more for each endpoint. */
    method BuildUpsert(id: string, revision: int, q: Upsert, at: string) returns (objects: seq<Object>)
      requires UpsertOk(q)
      ensures objects == UpsertObjects(names, subject, id, revision, q, at)
    {
      var relation := Pin(id, revision);
      var evidence := Pin(names.evidenceId(subject, relation, q.evidence, at), 1);
      var deps := BuildDependencies(relation, evidence, q.evidence, "relation");
      deps := deps + [NewDependency(names, subject, relation, ToPin(q.left), "relation_left_entity")];
      deps := deps + [NewDependency(names, subject, relation, ToPin(q.right), "relation_right_entity")];
      objects := [Object(evidence.id, 1, subject, EvidenceSet(q.evidence)),
                  Object(id, revision, subject, Relation(q.left, Strip(q.relationType), q.right, evidence, q.detail))] + deps;
    }

    method UpsertRelation(q: Upsert, at: string, veto: bool) returns (r: Result<Receipt>)
      modifies this
      ensures store == After(old(store), names, Upserting(subject, q, at, veto))
      ensures r.Ok? <==> Perform(old(store), names, Upserting(subject, q, at, veto)).Ok?
      ensures r.Ok? ==> r.value == Perform(old(store), names, Upserting(subject, q, at, veto)).value.1
    {
      if !UpsertOk(q) {
        return Refused("request");
      }
      if !CurrentEntity(store, q.left, subject) || !CurrentEntity(store, q.right, subject) {
        return Refused("endpoint");
      }
      var evident := ValidateEvidence(q.evidence);
      if !evident {
        return Refused("evidence");
      }
      var id := RelationId(names, subject, q);
      if id in store.latest && !RelationOf(store, Pin(id, store.latest[id]), subject) {
        return Refused("relation identity collides");
      }
      var op := UpsertOperation(names, id, q, at);
      var replay :- Replay(store, op);
      if replay.Some? {
        return Ok(Receipt(id, Latest(store, id), replay.value));
      }
      var revision := Latest(store, id) + 1;
      var objects := BuildUpsert(id, revision, q, at);
      var committed :- Commit(store, objects, op, veto);
      store := committed;
      return Ok(Receipt(id, revision, store.world));
    }
  }
}
