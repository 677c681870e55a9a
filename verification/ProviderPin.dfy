/** The provider identity a run is pinned to, and when it freezes. */
module ProviderPin {
  import opened Common
  import opened Relay

  datatype Provider = Provider(instance: string, fingerprint: string)

  /** What the mailbox and the machine show: the public descriptor, the binding beside it, the
      running providers by instance, and whether some process holds the mailbox lock. */
  datatype World = World(
    descriptor: Option<Provider>, binding: Option<Provider>, alive: map<string, Provider>, locked: bool)

  /** The pins in the ledger, and everything that shows a request has left the operator. */
  datatype Session<Id> = Session(
    instance: Option<string>, fingerprint: Option<string>,
    relay: Table<Id>, dispatches: nat, ledgerRows: nat, outbox: nat)

  datatype State<Id> = State(session: Session<Id>, world: World)

  /** Killed says that the process dies between the two ledger writes of a repin. */
  datatype Action<Id> =
    | Attach(started: Provider, killed: bool)
    | RelayStep(owner: Owner, op: Operation<Id>)
    | BumpDispatches
    | AppendLedger
    | WriteOutbox
    | Elsewhere(world: World)

  /** _has_crossed_provider_boundary */
  predicate Crossed<Id(==, !new)>(s: Session<Id>)
  {
    || (exists id :: id in s.relay.rows && s.relay.rows[id].state != Staged)
    || s.dispatches > 0 || s.ledgerRows > 0 || s.outbox > 0
  }

  predicate Locked(w: World)
  {
    || w.locked
    || (w.binding.Some? && w.binding.value.instance in w.alive)
    || (w.descriptor.Some? && w.descriptor.value.instance in w.alive)
  }

  /** A wiped mailbox is bound again to the pinned provider if that one still runs. */
  function Rebound<Id>(s: Session<Id>, w: World): World
  {
    if w.descriptor.None? && s.instance.Some? && s.instance.value in w.alive then
      w.(descriptor := Some(w.alive[s.instance.value]), binding := Some(w.alive[s.instance.value]))
    else w
  }

  function Launched(w: World, started: Provider): World
  {
    w.(descriptor := Some(started), binding := Some(started), alive := w.alive[started.instance := started], locked := true)
  }

  /** read_public_descriptor without starting a provider */
  function ReadDescriptor(w: World): Result<Provider>
  {
    if w.descriptor.None? then Refused("provider public descriptor missing")
    else if w.binding.Some? && w.binding != w.descriptor then Refused("verifier substitution detected")
    else Ok(w.descriptor.value)
  }

  predicate Matches<Id>(s: Session<Id>, p: Provider)
  {
    && (s.instance.Some? ==> p.instance == s.instance.value)
    && (s.fingerprint.Some? ==> p.fingerprint == s.fingerprint.value)
  }

  predicate Repins<Id(==, !new)>(s: State<Id>)
  {
    !Crossed(s.session) && !Locked(Rebound(s.session, s.world))
  }

  predicate Accepts<Id(==, !new)>(s: State<Id>)
  {
    var w := Rebound(s.session, s.world);
    Repins(s) || (ReadDescriptor(w).Ok? && Matches(s.session, ReadDescriptor(w).value))
  }

  function Next<Id(==, !new)>(s: State<Id>, a: Action<Id>): State<Id>
  {
    match a
    case Attach(started, killed) =>
      var w := Rebound(s.session, s.world);
      if !Repins(s) then s.(world := w)
      else
        var pinned := s.session.(instance := Some(started.instance));
        State(if killed then pinned else pinned.(fingerprint := Some(started.fingerprint)), Launched(w, started))
    case RelayStep(owner, op) => s.(session := s.session.(relay := Relay.After(s.session.relay, owner, op)))
    case BumpDispatches => s.(session := s.session.(dispatches := s.session.dispatches + 1))
    case AppendLedger => s.(session := s.session.(ledgerRows := s.session.ledgerRows + 1))
    case WriteOutbox => s.(session := s.session.(outbox := s.session.outbox + 1))
    case Elsewhere(w) => s.(world := w)
  }

  function RunAll<Id(==, !new)>(s: State<Id>, actions: seq<Action<Id>>): State<Id>
    decreases |actions|
  {
    if actions == [] then s else RunAll(Next(s, actions[0]), actions[1..])
  }

  /** The boundary is never uncrossed, and once it is crossed the pins stay. */
  lemma StepFreezes<Id(!new)>(s: State<Id>, a: Action<Id>)
    requires WellFormed(s.session.relay)
    ensures WellFormed(Next(s, a).session.relay)
    ensures Crossed(s.session) ==> Crossed(Next(s, a).session)
    ensures Crossed(s.session) ==>
              Next(s, a).session.instance == s.session.instance && Next(s, a).session.fingerprint == s.session.fingerprint
    ensures s.session.instance.Some? && s.session.fingerprint.Some? ==>
              Next(s, a).session.instance.Some? && Next(s, a).session.fingerprint.Some?
  {
    if a.RelayStep? {
      StepKeeps(s.session.relay, a.owner, a.op);
      var t, u := s.session.relay, Relay.After(s.session.relay, a.owner, a.op);
      forall id | id in t.rows && t.rows[id].state != Staged ensures id in u.rows && u.rows[id].state != Staged {
        assert RowOnward(t.rows[id], u.rows[id]);
      }
    }
  }

  /** From the first exposure on, over any attaches, relay steps, dispatches and provider restarts:
      the pins never change, and whatever attach succeeds sees exactly the pinned provider. */
  lemma {:induction false} PinFreezes<Id(!new)>(s: State<Id>, actions: seq<Action<Id>>)
    requires WellFormed(s.session.relay) && Crossed(s.session)
    requires s.session.instance.Some? && s.session.fingerprint.Some?
    ensures var t := RunAll(s, actions);
            && Crossed(t.session) && t.session.instance == s.session.instance && t.session.fingerprint == s.session.fingerprint
            && (Accepts(t) ==>
                  Rebound(t.session, t.world).descriptor == Some(Provider(s.session.instance.value, s.session.fingerprint.value)))
    decreases |actions|
  {
    if actions != [] {
      StepFreezes(s, actions[0]);
      PinFreezes(Next(s, actions[0]), actions[1..]);
    }
  }

  /** An accepted exposure crosses the boundary. */
  lemma ExposureCrosses<Id(!new)>(s: State<Id>, owner: Owner, id: Id)
    requires WellFormed(s.session.relay) && Step(s.session.relay, owner, Expose(id)).Ok?
    ensures Crossed(Next(s, RelayStep(owner, Expose(id))).session)
  {
    assert Next(s, RelayStep(owner, Expose(id))).session.relay.rows[id].state == Exposed;
  }

  /** Before any exposure a dead provider is replaced and the run is pinned to the new one. */
  lemma RepinBeforeBoundary<Id(!new)>(s: State<Id>, started: Provider)
    requires Repins(s)
    ensures var t := Next(s, Attach(started, false));
            && t.session.instance == Some(started.instance) && t.session.fingerprint == Some(started.fingerprint)
            && Accepts(t) && !Repins(t)
  {
  }

  /** A repin cut between its two ledger writes leaves a mixed pin: while the new provider lives,
      attach is refused exactly when the old fingerprint differs from the new one. */
  lemma CutRepin<Id(!new)>(s: State<Id>, started: Provider)
    requires Repins(s) && s.session.fingerprint.Some?
    ensures Accepts(Next(s, Attach(started, true))) <==> s.session.fingerprint.value == started.fingerprint
  {
  }

  class PinnedSession<Id(==, !new)> {
    var session: Session<Id>
    var world: World

    ghost function Contents(): State<Id>
      reads this
    {
      State(session, world)
    }

    constructor (session: Session<Id>, world: World)
      ensures Contents() == State(session, world)
    {
      this.session, this.world := session, world;
    }

    /** The provider part of attach. */
    method Attach(started: Provider, killed: bool) returns (r: Result<()>)
      modifies this
      ensures Contents() == Next(old(Contents()), Action.Attach(started, killed))
      ensures r.Ok? <==> old(Accepts(Contents())) && !(old(Repins(Contents())) && killed)
      ensures r.Ok? ==> world.descriptor.Some? && Matches(session, world.descriptor.value)
    {
      var crossed := Crossed(session);
      if world.descriptor.None? && session.instance.Some? && session.instance.value in world.alive {
        var p := world.alive[session.instance.value];
        world := world.(descriptor := Some(p), binding := Some(p));
      }
      var alive := Locked(world);
      if !crossed && !alive {
        world := Launched(world, started);
        session := session.(instance := Some(started.instance));
        if killed {
          return Refused("killed");
        }
        session := session.(fingerprint := Some(started.fingerprint));
        return Ok(());
      }
      var p :- ReadDescriptor(world);
      if session.instance.Some? && p.instance != session.instance.value {
        return Refused("Provider instance mismatch");
      }
      if session.fingerprint.Some? && p.fingerprint != session.fingerprint.value {
        return Refused("Provider fingerprint mismatch");
      }
      return Ok(());
    }
  }
}
