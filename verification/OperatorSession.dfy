/** The operator loop as it runs: every durable write may be the last one before a crash. */
module OperatorLoop {
  import opened Common
  import opened Relay
  import opened OperatorState
  import opened OperatorProgress

  /** Only what a reveal writes differs. */
  predicate RevealOnly(a: Disk, b: Disk)
  {
    b == a.(pending := b.pending, revealed := b.revealed, revealedEvent := b.revealedEvent, cursor := b.cursor,
            barrier := b.barrier, sealing := b.sealing, sealed := b.sealed, generation := b.generation)
  }

  /** Only what an ingest writes differs. */
  predicate IngestOnly(a: Disk, b: Disk)
  {
    b == a.(observed := b.observed, ingestRef := b.ingestRef, ingestRevision := b.ingestRevision,
            barrier := b.barrier, sealing := b.sealing, sealed := b.sealed, generation := b.generation)
  }

  /** Only what an exchange with the provider writes differs. */
  predicate MailOnly(a: Disk, b: Disk)
  {
    b == a.(relay := b.relay, known := b.known, outbox := b.outbox, provider := b.provider, inbox := b.inbox,
            proofs := b.proofs, barrier := b.barrier, sealing := b.sealing, sealed := b.sealed, generation := b.generation)
  }

  /** Only what a turn writes before it is recorded as applied differs. */
  predicate TurnOnly(a: Disk, b: Disk)
  {
    b == a.(relay := b.relay, known := b.known, outbox := b.outbox, contexts := b.contexts, provider := b.provider,
            inbox := b.inbox, proofs := b.proofs, capabilities := b.capabilities, attempts := b.attempts,
            receipts := b.receipts, outputs := b.outputs,
            barrier := b.barrier, sealing := b.sealing, sealed := b.sealed, generation := b.generation)
  }

  /** Only the trusted return of one request differs. */
  predicate ReturnOnly(a: Disk, b: Disk)
  {
    b == a.(relay := b.relay, inbox := b.inbox, proofs := b.proofs, attempts := b.attempts, receipts := b.receipts)
  }

  /** Only what recovery writes differs: no mailbox, no provider ledger, no cursor. */
  predicate RecoveryOnly(a: Disk, b: Disk)
  {
    b == a.(relay := b.relay, attempts := b.attempts, receipts := b.receipts,
            barrier := b.barrier, sealing := b.sealing, sealed := b.sealed, generation := b.generation)
  }

  class OperatorSession {
    const script: Script
    var disk: Disk
    // the authoritative remote, its version, and the version the local marker names
    var remote: Option<Disk>
    var remoteVersion: nat
    var marker: nat
    // the durable writes left before a crash; None when the process is not going to crash
    var fuse: Option<nat>
    var providerUp: bool
    var remoteUp: bool
    var killAt: Option<KillPoint>
    var killRound: Option<nat>
    // a place where the process crashes by itself
    var crashAt: Option<Place>
    // every first-dispatch command sent to the provider, over all processes of the run
    ghost var commands: seq<Id>
    // requests of passed cursors that are watched: none of them is ever acked
    ghost var unacked: set<Id>

    ghost predicate Valid()
      reads this
    {
      Safe(disk, commands, unacked)
    }

    /** No fuse, a provider and a remote that answer, and a marker at the remote head. */
    predicate Reachable()
      reads this
    {
      fuse.None? && providerUp && remoteUp && (script.remote ==> marker == remoteVersion)
    }

    /** The remote head has the seals of the local state: every seal was pushed. */
    predicate Aligned()
      reads this
    {
      script.remote ==> remote.Some? && remote.value.sealed == disk.sealed
    }

    /** Nothing disturbs the process, except where it is set to crash or armed to die. */
    predicate Calm()
      reads this
    {
      Reachable() && Aligned()
    }

    /** The remote head is the local state, and the marker names it. */
    predicate Published()
      reads this
    {
      script.remote ==> remote == Some(disk) && marker == remoteVersion
    }

    method Survive() returns (r: Outcome<()>)
      modifies this`fuse
      ensures r == if old(fuse) == Some(0) then Dead else Done(())
      ensures fuse == if old(fuse).Some? && old(fuse.value) > 0 then Some(old(fuse.value) - 1) else old(fuse)
    {
      if fuse.Some? {
        if fuse.value == 0 {
          return Dead;
        }
        fuse := Some(fuse.value - 1);
      }
      return Done(());
    }

    /** One durable write of the operator, of Core or of the provider on its behalf. */
    method Write(next: Disk) returns (r: Outcome<()>)
      requires Safe(next, commands, unacked)
      modifies this`disk, this`fuse
      ensures r == if old(fuse) == Some(0) then Dead else Done(())
      ensures fuse == if old(fuse).Some? && old(fuse.value) > 0 then Some(old(fuse.value) - 1) else old(fuse)
      ensures disk == if r.Done? then next else old(disk)
    {
      var _ :- Survive();
      disk := next;
      return Done(());
    }

    /** The process dies between two durable writes if it is set to. */
    method Pass(place: Place) returns (r: Outcome<()>)
      ensures r == if crashAt == Some(place) then Dead else Done(())
    {
      if crashAt == Some(place) {
        return Dead;
      }
      return Done(());
    }

    method MaybeKill(point: KillPoint, round: Option<nat>) returns (r: Outcome<()>)
      ensures r == if killAt == Some(point) && (killRound.None? || killRound == round) then Killed(point) else Done(())
    {
      if killAt == Some(point) && (killRound.None? || killRound == round) {
        return Killed(point);
      }
      return Done(());
    }

    /** The armed dispatch kill takes this round. */
    predicate KillsDispatch(round: nat)
      reads this
    {
      killAt == Some(AfterRequestDispatch) && (killRound.None? || killRound == Some(round))
    }

    /** The armed dispatch kill takes one of the rounds from, ..., to - 1. */
    predicate KillsBetween(from: nat, to: nat)
      reads this
    {
      killAt == Some(AfterRequestDispatch) && if killRound.Some? then from <= killRound.value < to else from < to
    }

    /** The generation's directory, its head, and its ledger row. */
    method Seal() returns (r: Outcome<()>)
      requires Valid()
      modifies this`disk, this`fuse
      ensures Valid() && SealsOnly(old(disk), disk)
      ensures !r.Killed?
      ensures r == Dead ==> disk == old(disk) || disk.sealing || disk.sealed == old(disk.sealed) + 1
      ensures old(Reachable() && SealedAt(disk)) ==>
                r.Done? && Reachable() && SealedAt(disk) && disk.sealed == old(disk.sealed) + 1
    {
      if disk.sealing {
        return Stopped("generation head advancement is not contiguous");
      }
      var _ :- Write(disk.(sealing := true));
      var _ :- Write(disk.(sealing := false, sealed := disk.sealed + 1));
      var _ :- Write(disk.(generation := disk.sealed));
      return Done(());
    }

    /** Compare-and-swap push of the present state, then the marker. */
    method Push() returns (r: Outcome<()>)
      modifies this`remote, this`remoteVersion, this`marker, this`fuse
      ensures !r.Killed?
      ensures r == Dead ==>
                || (remote == old(remote) && remoteVersion == old(remoteVersion) && marker == old(marker))
                || (remote == Some(disk) && remoteVersion == old(remoteVersion) + 1 && marker == old(marker))
      ensures r.Done? ==> Published()
      ensures old(Reachable()) ==> r.Done? && Calm()
    {
      if !script.remote {
        return Done(());
      }
      if !remoteUp || marker != remoteVersion {
        return Stopped("authoritative persistence failure");
      }
      var _ :- Survive();
      remote, remoteVersion := Some(disk), remoteVersion + 1;
      var _ :- Survive();
      marker := remoteVersion;
      return Done(());
    }

    /** The barrier before a kill point: seal, record, push. */
    method PersistBarrier(point: string, seal: bool) returns (r: Outcome<()>)
      requires Valid()
      modifies this`disk, this`fuse, this`remote, this`remoteVersion, this`marker
      ensures Valid() && SealsOnly(old(disk), disk)
      ensures !r.Killed?
      ensures r.Done? ==> Published()
      ensures old(Reachable() && SealedAt(disk)) ==> r.Done? && Calm() && SealedAt(disk)
    {
      if !script.remote {
        return Done(());
      }
      if seal {
        var _ :- Seal();
      }
      var _ :- Write(disk.(barrier := point));
      r := Push();
    }

    /** The ledger rows of a first reveal; a later one must be a pure re-read. */
    method RecordReveal(sequence: nat, changed: bool) returns (r: Outcome<()>)
      requires Valid() && sequence == disk.next
      modifies this`disk, this`fuse
      ensures Valid() && RevealOnly(old(disk), disk)
      ensures !r.Killed?
      ensures r == Dead ==>
                || disk == old(disk)
                || disk == old(disk).(revealed := old(disk.revealed) + {sequence})
                || disk == old(disk).(revealed := old(disk.revealed) + {sequence},
                                      revealedEvent := old(disk.revealedEvent) + {sequence})
      ensures old(Calm()) ==> Calm()
      ensures old(Calm()) && sequence !in old(disk.revealed) && crashAt != Some(BetweenRevealRows) ==>
                && r.Done?
                && disk == old(disk).(revealed := old(disk.revealed) + {sequence}, cursor := sequence,
                                      revealedEvent := old(disk.revealedEvent) + {sequence})
      ensures old(Calm()) && sequence !in old(disk.revealed) && crashAt == Some(BetweenRevealRows) ==>
                r == Dead && disk == old(disk).(revealed := old(disk.revealed) + {sequence})
      ensures old(fuse) == Some(1) && sequence !in old(disk.revealed) ==>
                r == Dead && disk == old(disk).(revealed := old(disk.revealed) + {sequence})
      ensures sequence in old(disk.revealed) ==>
                disk == old(disk) && (r.Done? <==> sequence in disk.revealedEvent && !changed)
    {
      if sequence !in disk.revealed {
        var _ :- Write(disk.(revealed := disk.revealed + {sequence}));
        var _ :- Pass(BetweenRevealRows);
        var _ :- Write(disk.(revealedEvent := disk.revealedEvent + {sequence}));
        CursorSafe(disk, commands, unacked);
        var _ :- Write(disk.(cursor := sequence));
      } else if sequence !in disk.revealedEvent || changed {
        return Stopped("resumed reveal produced a different cursor");
      }
      return Done(());
    }

    /** The release operator reveals the next event once and shows it again while it is pending. */
    method Reveal(ghost p: Progress) returns (r: Outcome<nat>)
      requires Valid()
      modifies this`disk, this`fuse, this`remote, this`remoteVersion, this`marker
      ensures Valid() && RevealOnly(old(disk), disk)
      ensures r.Done? ==> r.value == disk.next
      ensures r.Killed? ==> r.point == AfterReveal && killAt == Some(AfterReveal) && Published()
      ensures old(Calm() && Stands(script, disk, disk.next, p)) && disk.next <= script.events
                && (p.revealed || crashAt != Some(BetweenRevealRows)) ==>
                (r.Done? || r.Killed?) && Calm() && Stands(script, disk, disk.next, p.(revealed := true))
      ensures old(Calm() && Stands(script, disk, disk.next, p)) && disk.next <= script.events
                && !p.revealed && crashAt == Some(BetweenRevealRows) ==>
                r == Dead && Calm() && SealedAt(disk) && TornReveal(disk)
      ensures old(fuse) == Some(2) && disk.next <= script.events
              && old(!disk.pending && disk.next !in disk.revealed && disk.next !in disk.revealedEvent) ==>
                r == Dead && TornReveal(disk)
      ensures old(TornReveal(disk)) ==> !r.Done? && !r.Killed? && disk == old(disk).(pending := disk.pending)
      ensures old(Calm() && SealedAt(disk) && disk.pending && disk.next in disk.revealed && disk.next in disk.revealedEvent) ==>
                (r.Done? || r.Killed?) && Calm() && SealedAt(disk) && SealsOnly(old(disk), disk)
    {
      ghost var d := disk;
      if Stands(script, d, d.next, p) {
        RevealShape(script, d, d.next, p);
      }
      Held(d.revealed, d.next);
      Held(d.revealedEvent, d.next);
      var changed := !disk.pending;
      if changed {
        if disk.next > script.events {
          return Stopped("no further event");
        }
        var _ :- Write(disk.(pending := true));
      }
      var _ :- RecordReveal(disk.next, changed);
      ghost var e := disk;
      if Stands(script, d, d.next, p) && e == d.(pending := true, cursor := d.next, revealed := d.revealed + {d.next},
                                                  revealedEvent := d.revealedEvent + {d.next}) {
        RevealedAt(script, d, e, d.next, p);
      }
      r := RevealBarrier(p);
    }

    method RevealBarrier(ghost p: Progress) returns (r: Outcome<nat>)
      requires Valid()
      modifies this`disk, this`fuse, this`remote, this`remoteVersion, this`marker
      ensures Valid() && SealsOnly(old(disk), disk)
      ensures r.Done? ==> r.value == disk.next
      ensures r.Killed? ==> r.point == AfterReveal && killAt == Some(AfterReveal) && Published()
      ensures old(Calm() && SealedAt(disk)) ==> (r.Done? || r.Killed?) && Calm() && SealedAt(disk)
      ensures old(Calm() && Stands(script, disk, disk.next, p.(revealed := true))) ==>
                Stands(script, disk, disk.next, p.(revealed := true))
    {
      ghost var e := disk;
      if script.remote {
        var _ :- PersistBarrier("K1_AFTER_REVEAL", true);
      }
      if Stands(script, e, e.next, p.(revealed := true)) && SealedAt(disk) {
        SealsKeepAt(script, e, disk, e.next, p.(revealed := true));
      }
      var _ :- MaybeKill(AfterReveal, None);
      return Done(disk.next);
    }

    method RecordIngest(c: nat, stored: bool, reused: bool) returns (r: Outcome<()>)
      requires Valid()
      modifies this`disk, this`fuse
      ensures Valid() && !r.Killed?
      ensures old(Calm()) ==> Calm()
      ensures !stored && r.Done? ==>
                disk == old(disk).(ingestRef := old(disk.ingestRef) + {c}, ingestRevision := old(disk.ingestRevision) + {c})
      ensures !stored && !r.Done? ==>
                r == Dead && (disk == old(disk) || disk == old(disk).(ingestRef := old(disk.ingestRef) + {c}))
      ensures !stored && old(fuse).None? ==> (r.Done? <==> crashAt != Some(BetweenIngestRows))
      ensures !stored && (old(fuse) == Some(1) || (old(fuse).None? && r == Dead)) ==>
                r == Dead && disk == old(disk).(ingestRef := old(disk.ingestRef) + {c})
      ensures stored ==> disk == old(disk) && (r.Done? <==> c in disk.ingestRevision && reused)
    {
      if !stored {
        var _ :- Write(disk.(ingestRef := disk.ingestRef + {c}));
        var _ :- Pass(BetweenIngestRows);
        var _ :- Write(disk.(ingestRevision := disk.ingestRevision + {c}));
      } else if c !in disk.ingestRevision || !reused {
        return Stopped("resumed ingest created a new observation or moved the durable world revision");
      }
      return Done(());
    }

    /** The ingest adapter stores one observation per event and reuses it afterwards. */
    method Ingest(c: nat, ghost p: Progress) returns (r: Outcome<()>)
      requires Valid()
      modifies this`disk, this`fuse, this`remote, this`remoteVersion, this`marker
      ensures Valid() && IngestOnly(old(disk), disk)
      ensures r.Killed? ==> r.point == AfterIngest && killAt == Some(AfterIngest) && Published()
      ensures old(Calm() && Stands(script, disk, c, p)) && p.revealed && (p.ingested || crashAt != Some(BetweenIngestRows)) ==>
                (r.Done? || r.Killed?) && Calm() && Stands(script, disk, c, p.(ingested := true))
      ensures old(Calm() && Stands(script, disk, c, p)) && p.revealed && !p.ingested && crashAt == Some(BetweenIngestRows) ==>
                r == Dead && Calm() && SealedAt(disk) && TornIngest(disk)
      ensures old(fuse) == Some(2) && c == disk.next
              && old(c !in disk.observed && c !in disk.ingestRef && c !in disk.ingestRevision) ==>
                r == Dead && TornIngest(disk)
      ensures c == disk.next && old(TornIngest(disk)) ==>
                !r.Done? && !r.Killed? && disk == old(disk).(observed := disk.observed)
      ensures old(Calm() && SealedAt(disk) && c in disk.observed && c in disk.ingestRef && c in disk.ingestRevision) ==>
                (r.Done? || r.Killed?) && Calm() && SealedAt(disk) && SealsOnly(old(disk), disk)
    {
      ghost var d := disk;
      if Stands(script, d, c, p) {
        RevealShape(script, d, c, p);
      }
      Held(d.ingestRef, c);
      Held(d.ingestRevision, c);
      var stored := c in disk.ingestRef;
      var reused := c in disk.observed;
      if !reused {
        var _ :- Write(disk.(observed := disk.observed + [c]));
      }
      var _ :- RecordIngest(c, stored, reused);
      ghost var e := disk;
      if Stands(script, d, c, p) && p.revealed
         && e == d.(observed := if p.ingested then d.observed else d.observed + [c],
                    ingestRef := d.ingestRef + {c}, ingestRevision := d.ingestRevision + {c}) {
        IngestedAt(script, d, e, c, p);
      }
      r := IngestBarrier(c, p);
    }

    method IngestBarrier(c: nat, ghost p: Progress) returns (r: Outcome<()>)
      requires Valid()
      modifies this`disk, this`fuse, this`remote, this`remoteVersion, this`marker
      ensures Valid() && SealsOnly(old(disk), disk)
      ensures r.Killed? ==> r.point == AfterIngest && killAt == Some(AfterIngest) && Published()
      ensures old(Calm() && SealedAt(disk)) ==> (r.Done? || r.Killed?) && Calm() && SealedAt(disk)
      ensures old(Calm() && Stands(script, disk, c, p.(ingested := true))) ==> Stands(script, disk, c, p.(ingested := true))
    {
      ghost var e := disk;
      var _ :- Seal();
      var _ :- PersistBarrier("K2_AFTER_INGEST", false);
      if Stands(script, e, c, p.(ingested := true)) && SealedAt(disk) {
        SealsKeepAt(script, e, disk, c, p.(ingested := true));
      }
      r := MaybeKill(AfterIngest, None);
    }

    /** One transaction of the relay journal. */
    method Journal(op: Operation<Id>) returns (r: Outcome<()>)
      requires Valid()
      requires op.Stage? ==> op.metadata.cursor <= disk.next
      requires op.Expose? ==> disk.next !in disk.applied
      requires op.MarkAcked? ==> op.id !in unacked
      modifies this`disk, this`fuse
      ensures Valid() && disk == old(disk).(relay := disk.relay)
      ensures !r.Killed?
      ensures disk.relay == old(disk.relay) || disk.relay == After(old(disk.relay), script.owner, op)
      ensures r.Done? ==> Step(old(disk.relay), script.owner, op) == Ok(disk.relay)
      ensures old(fuse) == Some(0) ==> disk == old(disk) && fuse == Some(0)
      ensures old(Calm()) ==> Calm() && (r.Done? <==> Step(old(disk.relay), script.owner, op).Ok?)
    {
      RelayStepSafe(disk, commands, unacked, script.owner, op);
      var outcome := Step(disk.relay, script.owner, op);
      if outcome.Refused? {
        return Stopped(outcome.reason);
      }
      r := Write(disk.(relay := outcome.value));
    }

    /** The exclusive outbox file, then the entry among the known requests. */
    method WriteOutbox(id: Id) returns (r: Outcome<()>)
      requires Valid()
      modifies this`disk, this`fuse
      ensures Valid() && disk == old(disk).(outbox := disk.outbox, known := disk.known)
      ensures !r.Killed?
      ensures r == Dead ==> disk == old(disk) || disk == old(disk).(outbox := old(disk.outbox) + {id})
      ensures old(Calm()) ==> r.Done? && Calm()
      ensures old(Calm()) && id in old(disk.outbox) ==> disk == old(disk)
      ensures old(Calm()) && id !in old(disk.outbox) ==>
                disk == old(disk).(outbox := old(disk.outbox) + {id}, known := old(disk.known) + {id})
    {
      if id in disk.outbox {
        return Done(());
      }
      var _ :- Write(disk.(outbox := disk.outbox + {id}));
      var _ :- Write(disk.(known := disk.known + {id}));
      return Done(());
    }

    /** A dispatch command and the provider's answer: was the request submitted just now? */
    method Dispatch(id: Id, reattach: bool) returns (r: Outcome<bool>)
      requires Valid()
      requires !reattach ==> id !in commands && id in disk.relay.rows && disk.relay.rows[id].state != Staged
      modifies this`disk, this`fuse, this`commands
      ensures Valid() && disk == old(disk).(provider := disk.provider)
      ensures !r.Killed?
      ensures commands == if reattach then old(commands) else old(commands) + [id]
      ensures reattach ==> disk == old(disk)
      ensures disk.provider == old(disk.provider) || disk.provider == old(disk.provider) + [id]
      ensures old(Calm()) ==> Calm() && (id in disk.outbox ==> r.Done?)
      ensures old(Calm()) && id in disk.outbox && !reattach && id !in old(disk.provider) ==>
                disk.provider == old(disk.provider) + [id]
    {
      if !reattach {
        CommandSafe(disk, commands, unacked, id);
        commands := commands + [id];
      }
      if !providerUp || id !in disk.outbox {
        return Stopped("provider error");
      }
      if id in disk.provider || reattach {
        return Done(false);
      }
      DispatchSafe(disk, commands, unacked, id);
      var _ :- Write(disk.(provider := disk.provider + [id]));
      return Done(true);
    }

    /** A collect command: the provider writes the reply, and the proof if it knows the context. */
    method ProviderCollect(id: Id) returns (r: Outcome<()>)
      requires Valid()
      modifies this`disk, this`fuse
      ensures Valid() && disk == old(disk).(inbox := disk.inbox, proofs := disk.proofs)
      ensures !r.Killed?
      ensures r.Done? ==> id in disk.inbox
      ensures old(Calm()) ==> Calm() && (id in disk.outbox ==> r.Done?)
      ensures old(Calm()) && id in disk.outbox && id in disk.contexts ==> id in disk.proofs
    {
      if !providerUp || id !in disk.outbox {
        return Stopped("provider error");
      }
      if id !in disk.inbox {
        var _ :- Write(disk.(inbox := disk.inbox + {id}));
      }
      if id !in disk.proofs && id in disk.contexts {
        var _ :- Write(disk.(proofs := disk.proofs + {id}));
      }
      return Done(());
    }

    method CollectReply(id: Id) returns (r: Outcome<string>)
      requires Valid()
      modifies this`disk, this`fuse
      ensures Valid() && disk == old(disk).(inbox := disk.inbox, proofs := disk.proofs)
      ensures !r.Killed?
      ensures r.Done? ==> r.value == script.reply(id)
      ensures old(Calm()) ==> Calm() && (id in disk.outbox ==> r.Done?)
    {
      if id !in disk.inbox {
        var _ :- ProviderCollect(id);
      }
      return Done(script.reply(id));
    }

    /** Stages and exposes a new request. */
    method StageAndExpose(id: Id, cursor: nat) returns (r: Outcome<()>)
      requires Valid() && disk.next !in disk.applied && cursor <= disk.next
      modifies this`disk, this`fuse
      ensures Valid() && disk == old(disk).(relay := disk.relay)
      ensures !r.Killed? && SameBut(old(disk.relay), disk.relay, id)
      ensures r.Done? ==> id !in commands && Waits(disk.relay, id, cursor)
      ensures old(Calm()) ==> Calm()
      ensures old(Calm() && Exchangeable(script, disk.relay, id, cursor, disk.generation)) ==>
                r.Done? && disk.relay == ExposedTable(script, old(disk.relay), id, cursor, disk.generation)
    {
      StepSameBut(disk.relay, script.owner, StageOf(script, id, cursor, disk.generation), id);
      ghost var before := disk;
      var _ :- Journal(StageOf(script, id, cursor, disk.generation));
      StagedIsNew(before, commands, unacked, script, id, cursor, disk.generation);
      StepSameBut(disk.relay, script.owner, Expose(id), id);
      ghost var t := disk.relay;
      var _ :- Journal(Expose(id));
      StagedWaits(script, before.relay, id, cursor, before.generation);
      return Done(());
    }

    /** The outbox file, the one first dispatch, and its barrier. */
    method Submit(id: Id) returns (r: Outcome<()>)
      requires Valid()
      requires id !in commands && id in disk.relay.rows && disk.relay.rows[id].state != Staged
      modifies this`disk, this`fuse, this`remote, this`remoteVersion, this`marker, this`commands
      ensures Valid() && MailOnly(old(disk), disk) && disk.relay == old(disk.relay)
      ensures commands == old(commands) || commands == old(commands) + [id]
      ensures r.Killed? ==> r.point == AfterRequestDispatch && killAt == Some(AfterRequestDispatch) && Published()
      ensures old(Calm() && SealedAt(disk) && id !in disk.outbox && id !in disk.provider) ==>
                && (r.Done? || r.Killed?) && (r.Killed? <==> KillsDispatch(id.round)) && Calm() && SealedAt(disk)
                && disk.outbox == old(disk.outbox) + {id} && disk.known == old(disk.known) + {id}
                && disk.provider == old(disk.provider) + [id]
    {
      var _ :- WriteOutbox(id);
      var _ :- Dispatch(id, false);
      var _ :- PersistBarrier("K3_AFTER_REQUEST_DISPATCH", true);
      r := MaybeKill(AfterRequestDispatch, Some(id.round));
    }

    /** Collects and stages the reply of an exposed request. */
    method StoreReply(id: Id) returns (r: Outcome<string>)
      requires Valid()
      modifies this`disk, this`fuse
      ensures Valid() && disk == old(disk).(relay := disk.relay, inbox := disk.inbox, proofs := disk.proofs)
      ensures !r.Killed? && SameBut(old(disk.relay), disk.relay, id)
      ensures r.Done? ==> id in disk.relay.rows && Rank(disk.relay.rows[id].state) >= Rank(ReplyStaged)
      ensures old(Calm()) ==> Calm()
      ensures old(Calm() && id in disk.outbox) && Step(old(disk.relay), script.owner, StageReply(id, script.reply(id))).Ok? ==>
                r.Done? && disk.relay == After(old(disk.relay), script.owner, StageReply(id, script.reply(id)))
    {
      var reply :- CollectReply(id);
      StepSameBut(disk.relay, script.owner, StageReply(id, reply), id);
      ghost var t := disk.relay;
      OpenSafe(disk, commands, unacked);
      var _ :- Journal(StageReply(id, reply));
      RepliedState(t, script.owner, id, reply);
      return Done(reply);
    }

    /** Shows a request that left before; true when its reply is stored already. */
    method Represent(id: Id) returns (r: Outcome<bool>)
      requires Valid()
      modifies this`disk, this`fuse, this`commands
      ensures Valid() && MailOnly(old(disk), disk) && disk.provider == old(disk.provider) && commands == old(commands)
      ensures !r.Killed? && disk.relay.rows == old(disk.relay.rows)
      ensures r.Done? ==> id in disk.relay.rows
      ensures r.Done? && r.value ==> Rank(disk.relay.rows[id].state) >= Rank(ReplyStaged)
      ensures old(Calm()) ==> Calm()
      ensures old(Calm() && id in disk.outbox && id in disk.relay.rows && Rank(disk.relay.rows[id].state) >= Rank(ReplyStaged)) ==>
                && r == Done(true)
                && disk == old(disk).(relay := After(old(disk.relay), script.owner, Outstanding(id)))
    {
      ghost var t := disk.relay;
      if Step(t, script.owner, Outstanding(id)).Ok? {
        OutstandingRows(t, script.owner, id);
      }
      var _ :- Journal(Outstanding(id));
      var _ :- WriteOutbox(id);
      if disk.relay.rows[id].state == Exposed {
        var submitted :- Dispatch(id, true);
        if submitted {
          return Stopped("recovery attempted a second provider dispatch");
        }
        return Done(false);
      }
      return Done(true);
    }

    method FirstExchange(id: Id, cursor: nat) returns (r: Outcome<()>)
      requires Valid() && disk.next !in disk.applied && cursor <= disk.next
      modifies this`disk, this`fuse, this`remote, this`remoteVersion, this`marker, this`commands
      ensures Valid() && MailOnly(old(disk), disk)
      ensures r.Killed? ==> r.point == AfterRequestDispatch && killAt == Some(AfterRequestDispatch) && Published()
      ensures r.Killed? ==> !NoneOpen(disk.relay, cursor)
      ensures r.Done? ==> id in disk.relay.rows && Rank(disk.relay.rows[id].state) >= Rank(ReplyStaged)
      ensures SameBut(old(disk.relay), disk.relay, id)
      ensures old(Calm() && SealedAt(disk) && id !in disk.outbox && id !in disk.provider
                  && Exchangeable(script, disk.relay, id, cursor, disk.generation)) ==>
                && (r.Killed? <==> KillsDispatch(id.round))
                && (r.Killed? || (r.Done? && Calm() && Sent(script, old(disk), disk, id, cursor)))
    {
      ghost var t := disk.relay;
      var _ :- StageAndExpose(id, cursor);
      ghost var v := disk.relay;
      WaitingIsOpen(v, id, cursor);
      var _ :- Submit(id);
      var _ :- StoreReply(id);
      SameButTransitive(t, v, disk.relay, id);
      return Done(());
    }

    method RepeatExchange(id: Id, ghost w: Spot) returns (r: Outcome<()>)
      requires Valid()
      modifies this`disk, this`fuse, this`commands
      ensures Valid() && MailOnly(old(disk), disk) && disk.provider == old(disk.provider) && commands == old(commands)
      ensures !r.Killed?
      ensures r.Done? ==> id in disk.relay.rows && Rank(disk.relay.rows[id].state) >= Rank(ReplyStaged)
      ensures SameBut(old(disk.relay), disk.relay, id)
      ensures old(Calm() && Sits(script, disk, w)) && id.turn == w.c && id.round < w.m ==>
                r.Done? && Calm() && Sits(script, disk, w)
    {
      if Sits(script, disk, w) && id.turn == w.c && id.round < w.m {
        KnownRequest(script, disk, w, id);
      }
      var stored :- Represent(id);
      if !stored {
        var _ :- StoreReply(id);
      }
      return Done(());
    }

    /** The exchange of one round: a new request goes out once; a known one is never dispatched again. */
    method Exchange(id: Id, cursor: nat, ghost w: Spot) returns (r: Outcome<()>)
      requires Valid() && disk.next !in disk.applied && cursor <= disk.next
      modifies this`disk, this`fuse, this`remote, this`remoteVersion, this`marker, this`commands
      ensures Valid() && MailOnly(old(disk), disk)
      ensures r.Killed? ==> r.point == AfterRequestDispatch && killAt == Some(AfterRequestDispatch) && Published()
      ensures r.Killed? ==> !NoneOpen(disk.relay, cursor)
      ensures r.Done? ==> id in disk.relay.rows && Rank(disk.relay.rows[id].state) >= Rank(ReplyStaged)
      ensures r.Done? && NoneOpen(old(disk.relay), disk.next) ==> NoneOpen(disk.relay, disk.next)
      ensures old(Calm() && Sits(script, disk, w)) && IsNextRequest(w, id, cursor) ==>
                && (r.Killed? <==> KillsDispatch(id.round))
                && (r.Killed? || (r.Done? && Calm() && Sits(script, disk, w.(m := w.m + 1, level := Replied))))
      ensures old(Calm() && Sits(script, disk, w)) && id.turn == w.c && id.round < w.m ==>
                r.Done? && Calm() && Sits(script, disk, w)
    {
      ghost var d := disk;
      if Sits(script, d, w) && IsNextRequest(w, id, cursor) {
        NewRequest(script, d, w, id, cursor);
      }
      if Sits(script, d, w) && id.turn == w.c && id.round < w.m {
        KnownRequest(script, d, w, id);
      }
      if id !in disk.known {
        r := FirstExchange(id, cursor);
        if Sits(script, d, w) && IsNextRequest(w, id, cursor) && Sent(script, d, disk, id, cursor) {
          SentAt(script, d, disk, w, id, cursor);
        }
      } else {
        r := RepeatExchange(id, w);
      }
      if r.Done? {
        ReplyCloses(d.relay, disk.relay, id, disk.next);
      }
    }

    // ---------------------------------------------------------- Core's attempts

    /** Core accepts a proven return for an attempt that was dispatched: the receipt, then the state. */
    method AttachReturn(id: Id) returns (r: Outcome<()>)
      requires Valid()
      modifies this`disk, this`fuse
      ensures Valid() && disk == old(disk).(attempts := disk.attempts, receipts := disk.receipts)
      ensures !r.Killed?
      ensures r == Dead ==> disk == old(disk) || disk == old(disk).(receipts := old(disk.receipts) + {id})
      ensures r.Done? ==> id in disk.receipts && AttemptOf(disk, id) !in {None, Some(Admitted), Some(Dispatching), Some(InDoubt)}
      ensures AttemptOf(old(disk), id) in {None, Some(Admitted)} ==> r.Stopped? && disk == old(disk)
      ensures SameAttempts(old(disk), disk)
      ensures old(Calm()) ==> Calm()
      ensures old(Calm() && AttemptOf(disk, id) == Some(Dispatching)) ==>
                r.Done? && disk == SetAttempt(old(disk), id, Returned).(receipts := old(disk.receipts) + {id})
    {
      var state := AttemptOf(disk, id);
      if state.None? || state.value == Admitted {
        return Stopped("late trusted return cannot attach before durable dispatch");
      }
      var _ :- Write(disk.(receipts := disk.receipts + {id}));
      if state.value == Dispatching || state.value == InDoubt {
        AttemptSet(disk, id, Returned);
        var _ :- Write(SetAttempt(disk, id, Returned));
      }
      return Done(());
    }

    /** Admission: a new or not yet dispatched attempt passes, everything else is refused. */
    method Admit(id: Id) returns (r: Outcome<()>)
      requires Valid()
      modifies this`disk, this`fuse
      ensures Valid() && disk == old(disk).(attempts := disk.attempts)
      ensures !r.Killed?
      ensures old(Calm()) ==> Calm()
      ensures old(Calm() && AttemptOf(disk, id).None? && id.round == |AttemptsOf(disk, id.turn)|) ==>
                r.Done? && disk == SetAttempt(old(disk), id, Admitted)
      ensures r.Done? ==> AttemptOf(disk, id) == Some(Admitted) && AttemptOf(old(disk), id) in {None, Some(Admitted)}
      ensures AttemptOf(old(disk), id) == Some(Dispatching) ==>
                !r.Done? && (r.Stopped? ==> disk == SetAttempt(old(disk), id, InDoubt))
      ensures AttemptOf(old(disk), id) in {Some(InDoubt), Some(Returned), Some(Metered)} ==> r.Stopped? && disk == old(disk)
    {
      match AttemptOf(disk, id) {
        case None =>
          if id.round != |AttemptsOf(disk, id.turn)| {
            return Stopped("round out of order");
          }
          r := Write(SetAttempt(disk, id, Admitted));
        case Some(Admitted) =>
          return Done(());
        case Some(Dispatching) =>
          var _ :- Write(SetAttempt(disk, id, InDoubt));
          return Stopped("background model execution in doubt");
        case Some(_) =>
          return Stopped("background model attempt blocked");
      }
    }

    /** The provider boundary of Core, and the context its observer writes. */
    method MarkDispatching(id: Id) returns (r: Outcome<()>)
      requires Valid() && AttemptOf(disk, id) == Some(Admitted)
      modifies this`disk, this`fuse
      ensures Valid() && disk == old(disk).(attempts := disk.attempts, contexts := disk.contexts)
      ensures !r.Killed?
      ensures r == Dead ==> disk == old(disk) || disk == SetAttempt(old(disk), id, Dispatching)
      ensures old(Calm()) ==>
                r.Done? && Calm() && disk == SetAttempt(old(disk), id, Dispatching).(contexts := old(disk.contexts) + {id})
    {
      var _ :- Write(SetAttempt(disk, id, Dispatching));
      var _ :- Write(disk.(contexts := disk.contexts + {id}));
      return Done(());
    }

    method Meter(id: Id) returns (r: Outcome<()>)
      requires Valid()
      modifies this`disk, this`fuse
      ensures Valid() && disk == old(disk).(attempts := disk.attempts)
      ensures !r.Killed?
      ensures old(Calm()) ==> Calm()
      ensures old(Calm() && (AttemptOf(disk, id) == Some(Returned) || AttemptOf(disk, id) == Some(Metered))) ==> r.Done?
      ensures r.Done? ==> disk == SetAttempt(old(disk), id, Metered)
      ensures AttemptOf(old(disk), id) !in {Some(Returned), Some(Metered)} ==> r.Stopped? && disk == old(disk)
    {
      if AttemptOf(disk, id) != Some(Returned) && AttemptOf(disk, id) != Some(Metered) {
        return Stopped("metering requires a returned response");
      }
      r := Write(SetAttempt(disk, id, Metered));
    }

    /** A recovered round: Core stages the exact return it holds a receipt for. */
    method Receive(id: Id) returns (r: Outcome<()>)
      requires Valid()
      modifies this`disk, this`fuse
      ensures Valid() && disk == old(disk).(attempts := disk.attempts)
      ensures !r.Killed?
      ensures old(Calm()) ==> r.Done? && Calm()
      ensures AttemptOf(old(disk), id) in {Some(Dispatching), Some(InDoubt)} ==>
                !r.Stopped? && (r.Done? ==> disk == SetAttempt(old(disk), id, Returned))
      ensures AttemptOf(old(disk), id) !in {Some(Dispatching), Some(InDoubt)} ==> r.Done? && disk == old(disk)
    {
      if AttemptOf(disk, id) == Some(Dispatching) || AttemptOf(disk, id) == Some(InDoubt) {
        r := Write(SetAttempt(disk, id, Returned));
      } else {
        r := Done(());
      }
    }

    // ---------------------------------------------------------- the trusted return

    /** Reads the proof, asking a live provider once more if there is none. */
    method FindProof(id: Id) returns (r: Outcome<bool>)
      requires Valid()
      modifies this`disk, this`fuse
      ensures Valid() && disk == old(disk).(inbox := disk.inbox, proofs := disk.proofs)
      ensures !r.Killed?
      ensures r.Done? ==> (r.value <==> id in disk.proofs)
      ensures old(Calm()) ==> Calm()
      ensures old(Calm() && id in disk.outbox && id in disk.contexts) ==> r == Done(true)
    {
      if id !in disk.proofs && providerUp {
        var _ :- ProviderCollect(id);
      }
      return Done(id in disk.proofs);
    }

    /** The raw reply: from the inbox, from the journal, or collected from a live provider. */
    method ReplyReadable(id: Id) returns (r: Outcome<bool>)
      requires Valid()
      modifies this`disk, this`fuse
      ensures Valid() && disk == old(disk).(inbox := disk.inbox, proofs := disk.proofs)
      ensures !r.Killed?
      ensures old(Calm()) ==> Calm()
      ensures id in old(disk.known) && id in old(disk.relay.rows) && old(disk.relay.rows[id].reply.Some?) ==>
                r == Done(true) && disk == old(disk) && fuse == old(fuse)
    {
      if id in disk.inbox || (id in disk.known && id in disk.relay.rows && disk.relay.rows[id].reply.Some?) {
        return Done(true);
      }
      if !providerUp {
        return Done(false);
      }
      var _ :- CollectReply(id);
      return Done(true);
    }

    /** With a proof: attach the return unless Core has its receipt, and authenticate the staged row. */
    method Authenticate(id: Id) returns (r: Outcome<()>)
      requires Valid()
      modifies this`disk, this`fuse
      ensures Valid() && ReturnOnly(old(disk), disk)
      ensures !r.Killed?
      ensures forall c :: NoneOpen(old(disk.relay), c) ==> NoneOpen(disk.relay, c)
      ensures old(Calm()) ==> Calm()
      ensures old(Calm() && id !in disk.receipts && AttemptOf(disk, id) == Some(Dispatching) && id in disk.known
                  && id in disk.relay.rows && disk.relay.rows[id].state == ReplyStaged && disk.relay.rows[id].reply.Some?)
              && Step(old(disk.relay), script.owner, MarkAuthenticated(id, "receipt")).Ok? ==>
                r.Done? && Taken(script, old(disk), disk, id)
    {
      ghost var t := disk.relay;
      forall c | NoneOpen(t, c) ensures NoneOpen(After(t, script.owner, MarkAuthenticated(id, "receipt")), c) {
        OpenAfter(t, script.owner, MarkAuthenticated(id, "receipt"), c);
      }
      var readable :- ReplyReadable(id);
      if !readable {
        return Done(());
      }
      if id !in disk.receipts {
        var _ :- AttachReturn(id);
      }
      if id in disk.known {
        if id !in disk.relay.rows {
          return Stopped("unknown relay request");
        }
        if disk.relay.rows[id].state == ReplyStaged {
          r := Journal(MarkAuthenticated(id, "receipt"));
          return;
        }
      }
      return Done(());
    }

    /** Without a proof: a plain local completion, which leaves no receipt. */
    method RecordResponse(id: Id) returns (r: Outcome<()>)
      requires Valid()
      modifies this`disk, this`fuse
      ensures Valid() && disk == old(disk).(attempts := disk.attempts)
      ensures !r.Killed?
      ensures id in disk.receipts || AttemptOf(old(disk), id) != Some(Dispatching) ==> r.Stopped? && disk == old(disk)
      ensures r.Done? ==> disk == SetAttempt(old(disk), id, Returned)
    {
      if id in disk.receipts || AttemptOf(disk, id) != Some(Dispatching) {
        return Stopped("a local completion may not replace a trusted return");
      }
      r := Write(SetAttempt(disk, id, Returned));
    }

    /** The trusted-return barrier of one round. */
    method Recorder(id: Id) returns (r: Outcome<()>)
      requires Valid()
      modifies this`disk, this`fuse, this`remote, this`remoteVersion, this`marker
      ensures Valid() && TurnOnly(old(disk), disk)
      ensures disk.provider == old(disk.provider)
      ensures forall c :: NoneOpen(old(disk.relay), c) ==> NoneOpen(disk.relay, c)
      ensures r.Killed? ==> r.point == TrustedReturnDurable && killAt == Some(TrustedReturnDurable) && Published()
      ensures old(Calm() && Sits(script, disk, SentSpot(id)) && id in disk.contexts) ==>
                (r.Done? || r.Killed?) && Calm() && Sits(script, disk, ReturnedSpot(id))
    {
      var _ :- TakeReturn(id);
      ghost var e := disk;
      var _ :- PersistBarrier("K3_TRUSTED_RETURN_DURABLE", true);
      if Sits(script, e, ReturnedSpot(id)) && SealedAt(disk) {
        SealsKeep(script, e, disk, ReturnedSpot(id));
      }
      r := MaybeKill(TrustedReturnDurable, Some(id.round));
    }

    method TakeReturn(id: Id) returns (r: Outcome<()>)
      requires Valid()
      modifies this`disk, this`fuse
      ensures Valid() && ReturnOnly(old(disk), disk)
      ensures !r.Killed?
      ensures forall c :: NoneOpen(old(disk.relay), c) ==> NoneOpen(disk.relay, c)
      ensures old(Calm() && Sits(script, disk, SentSpot(id)) && id in disk.contexts) ==>
                r.Done? && Calm() && Sits(script, disk, ReturnedSpot(id))
    {
      ghost var d := disk;
      if Sits(script, d, SentSpot(id)) {
        LastRequest(script, d, id);
      }
      var found :- FindProof(id);
      if found {
        r := Authenticate(id);
        if Sits(script, d, SentSpot(id)) && Taken(script, d, disk, id) {
          TakenAt(script, d, disk, id);
        }
      } else {
        r := RecordResponse(id);
      }
    }

    /** The model handler: the exchange of its round, or a durable failure of the attempt. */
    method Handler(id: Id, ghost w: Spot) returns (r: Outcome<()>)
      requires Valid() && disk.next !in disk.applied
      modifies this`disk, this`fuse, this`remote, this`remoteVersion, this`marker, this`commands
      ensures Valid() && TurnOnly(old(disk), disk) && disk.contexts == old(disk.contexts)
      ensures r.Killed? ==> r.point == AfterRequestDispatch && killAt == Some(AfterRequestDispatch) && Published()
      ensures r.Killed? && disk.cursor == disk.next ==> Stuck(disk)
      ensures r.Done? && NoneOpen(old(disk.relay), disk.next) ==> NoneOpen(disk.relay, disk.next)
      ensures r.Stopped? ==> AttemptOf(disk, id) != Some(Dispatching)
      ensures old(Calm() && Sits(script, disk, w)) && IsNextRequest(w, id, old(disk.cursor)) ==>
                && (r.Killed? <==> KillsDispatch(id.round))
                && (r.Killed? || (r.Done? && Calm() && Sits(script, disk, w.(m := w.m + 1, level := Replied))))
      ensures old(Calm() && Sits(script, disk, w)) && id.turn == w.c && id.round < w.m ==>
                r.Done? && Calm() && Sits(script, disk, w)
    {
      OpenSafe(disk, commands, unacked);
      r := Exchange(id, disk.cursor, w);
      if r.Stopped? && AttemptOf(disk, id) == Some(Dispatching) {
        var _ :- Write(SetAttempt(disk, id, InDoubt));
      }
    }

    /** The handler called for a round that was just dispatched. */
    method Ask(id: Id) returns (r: Outcome<()>)
      requires Valid() && disk.next !in disk.applied
      modifies this`disk, this`fuse, this`remote, this`remoteVersion, this`marker, this`commands
      ensures Valid() && TurnOnly(old(disk), disk) && disk.contexts == old(disk.contexts)
      ensures r.Killed? ==> r.point == AfterRequestDispatch && killAt == Some(AfterRequestDispatch) && Published()
      ensures r.Killed? && disk.cursor == disk.next ==> Stuck(disk)
      ensures r.Done? && NoneOpen(old(disk.relay), disk.next) ==> NoneOpen(disk.relay, disk.next)
      ensures r.Stopped? ==> AttemptOf(disk, id) != Some(Dispatching)
      ensures old(Calm() && Sits(script, disk, AskedSpot(id))) ==>
                && (r.Killed? <==> id.round > 0 && KillsDispatch(id.round))
                && (r.Killed? || (r.Done? && Calm() && Sits(script, disk, SentSpot(id))))
    {
      Open(script, disk, AskedSpot(id));
      if id.round == 0 {
        r := Handler(id, SentSpot(id));
      } else {
        r := Handler(id, AskedSpot(id));
      }
    }

    /** Admission and the dispatch boundary. */
    method BeginAttempt(id: Id) returns (r: Outcome<()>)
      requires Valid()
      modifies this`disk, this`fuse
      ensures Valid() && disk == old(disk).(attempts := disk.attempts, contexts := disk.contexts)
      ensures !r.Killed?
      ensures old(Calm() && Sits(script, disk, ReadySpot(id.turn, id.round))) ==>
                r.Done? && Calm() && Sits(script, disk, AskedSpot(id)) && id in disk.contexts
    {
      ghost var d := disk;
      if Sits(script, d, ReadySpot(id.turn, id.round)) {
        AttemptAdded(script, d, ReadySpot(id.turn, id.round), Admitted);
      }
      var _ :- Admit(id);
      r := MarkDispatching(id);
      if Sits(script, d, ReadySpot(id.turn, id.round))
         && disk == SetAttempt(SetAttempt(d, id, Admitted), id, Dispatching).(contexts := disk.contexts) {
        AttemptBegins(script, d, id, disk);
      }
    }

    /** A round without a trusted return: admission, dispatch boundary, handler, recorder. */
    method FreshRound(id: Id) returns (r: Outcome<()>)
      requires Valid() && disk.next !in disk.applied
      modifies this`disk, this`fuse, this`remote, this`remoteVersion, this`marker, this`commands
      ensures Valid() && TurnOnly(old(disk), disk)
      ensures r.Killed? ==> Published() && killAt == Some(r.point)
      ensures r == Killed(AfterRequestDispatch) && disk.cursor == disk.next ==> Stuck(disk)
      ensures r.Done? && NoneOpen(old(disk.relay), disk.next) ==> NoneOpen(disk.relay, disk.next)
      ensures old(Calm() && Sits(script, disk, ReadySpot(id.turn, id.round))) ==>
                && (r == Killed(AfterRequestDispatch) <==> id.round > 0 && KillsDispatch(id.round))
                && (r == Killed(AfterRequestDispatch)
                    || ((r.Done? || r.Killed?) && Calm() && Sits(script, disk, ReturnedSpot(id))))
    {
      var _ :- BeginAttempt(id);
      var _ :- Ask(id);
      r := Recorder(id);
    }

    /** The operator's capability: one ledger row per key, then its barrier; a repeat changes nothing. */
    method Capability(id: Id, ghost w: Spot) returns (r: Outcome<()>)
      requires Valid()
      modifies this`disk, this`fuse, this`remote, this`remoteVersion, this`marker
      ensures Valid() && TurnOnly(old(disk), disk) && disk.relay == old(disk.relay) && disk.provider == old(disk.provider)
      ensures r.Killed? ==> r.point == AfterReplyAuthenticated && killAt == Some(AfterReplyAuthenticated) && Published()
      ensures old(Calm() && Sits(script, disk, w)) && id.turn == w.c && id.round < w.k ==>
                r.Done? && Calm() && Sits(script, disk, w)
      ensures old(Calm() && Sits(script, disk, w)) && id == RequestOf(w.c, w.k) ==>
                (r.Done? || r.Killed?) && Calm() && Sits(script, disk, w.(k := w.k + 1))
    {
      if Sits(script, disk, w) && id.turn == w.c {
        CapabilityKnown(script, disk, w, id);
      }
      if id in disk.capabilities {
        return Done(());
      }
      if Sits(script, disk, w) && id == RequestOf(w.c, w.k) {
        CapabilityAdded(script, disk, w, id);
      }
      var _ :- Write(disk.(capabilities := disk.capabilities + [id]));
      ghost var e := disk;
      var _ :- PersistBarrier("K4_AFTER_REPLY_AUTHENTICATED", true);
      if Sits(script, e, w.(k := w.k + 1)) && SealedAt(disk) {
        SealsKeep(script, e, disk, w.(k := w.k + 1));
      }
      r := MaybeKill(AfterReplyAuthenticated, None);
    }

    method MeterRound(id: Id, ghost w: Spot) returns (r: Outcome<()>)
      requires Valid()
      modifies this`disk, this`fuse
      ensures Valid() && disk == old(disk).(attempts := disk.attempts)
      ensures !r.Killed?
      ensures old(Calm() && Sits(script, disk, w)) && ToApply(script, w, id) ==>
                r.Done? && Calm() && Sits(script, disk, w.(last := Metered))
    {
      if Sits(script, disk, w) && ToApply(script, w, id) {
        AttemptMoves(script, disk, w, Metered);
      }
      r := Meter(id);
    }

    /** Metering, then the capability call of every round but the last. */
    method ApplyRound(id: Id, ghost w: Spot) returns (r: Outcome<()>)
      requires Valid()
      modifies this`disk, this`fuse, this`remote, this`remoteVersion, this`marker
      ensures Valid() && TurnOnly(old(disk), disk) && disk.relay == old(disk.relay) && disk.provider == old(disk.provider)
      ensures r.Killed? ==> r.point == AfterReplyAuthenticated && killAt == Some(AfterReplyAuthenticated) && Published()
      ensures old(Calm() && Sits(script, disk, w)) && ToApply(script, w, id) ==>
                Calm() && ((r.Done? && Sits(script, disk, DoneSpot(script, id.turn, id.round)))
                           || (r.Killed? && Resumable(script, disk, id.turn)))
    {
      var _ :- MeterRound(id, w);
      if id.round + 1 < script.rounds(id.turn) {
        r := Capability(id, w.(last := Metered));
        if r.Killed? && Sits(script, disk, DoneSpot(script, id.turn, id.round)) {
          SpotResumes(script, disk, DoneSpot(script, id.turn, id.round), id);
        }
      } else {
        r := Done(());
      }
    }

    /** One model round of a turn. */
    method Round(id: Id) returns (r: Outcome<()>)
      requires Valid() && disk.next !in disk.applied
      modifies this`disk, this`fuse, this`remote, this`remoteVersion, this`marker, this`commands
      ensures Valid() && TurnOnly(old(disk), disk)
      ensures r.Killed? ==> Published() && killAt == Some(r.point)
      ensures r == Killed(AfterRequestDispatch) && disk.cursor == disk.next ==> Stuck(disk)
      ensures r.Done? && NoneOpen(old(disk.relay), disk.next) ==> NoneOpen(disk.relay, disk.next)
      ensures old(Calm() && Sits(script, disk, ReadySpot(id.turn, id.round))) && id.round < script.rounds(id.turn) ==>
                && (r == Killed(AfterRequestDispatch) <==> id.round > 0 && KillsDispatch(id.round))
                && (r == Killed(AfterRequestDispatch)
                    || (Calm() && ((r.Done? && Sits(script, disk, DoneSpot(script, id.turn, id.round)))
                                   || (r.Killed? && Resumable(script, disk, id.turn)))))
    {
      r := FreshRound(id);
      if r.Killed? && Sits(script, disk, ReturnedSpot(id)) && id.round < script.rounds(id.turn) {
        SpotResumes(script, disk, ReturnedSpot(id), id);
      }
      if r.Done? {
        r := ApplyRound(id, ReturnedSpot(id));
      }
    }

    /** The round whose return Core already holds: no handler call. */
    method RecoveredRound(id: Id, ghost w: Spot) returns (r: Outcome<()>)
      requires Valid()
      modifies this`disk, this`fuse, this`remote, this`remoteVersion, this`marker
      ensures Valid() && TurnOnly(old(disk), disk) && disk.relay == old(disk.relay) && disk.provider == old(disk.provider)
      ensures r.Killed? ==> Published() && killAt == Some(r.point) && r.point != AfterRequestDispatch
      ensures old(Calm() && Sits(script, disk, w)) && ToApply(script, w, id) ==>
                Calm() && ((r.Done? && Sits(script, disk, DoneSpot(script, id.turn, id.round)))
                           || (r.Killed? && Resumable(script, disk, id.turn)))
    {
      if Sits(script, disk, w) && ToApply(script, w, id) {
        AttemptMoves(script, disk, w, Metered);
      }
      var _ :- Receive(id);
      r := ApplyRound(id, w);
    }

    /** Core serves the latest attempt from its trusted return if every earlier round is metered. */
    predicate Pending(t: nat)
      reads this
    {
      var n := |AttemptsOf(disk, t)|;
      n > 0 && RequestOf(t, n - 1) in disk.receipts && forall i :: 0 <= i < n - 1 ==> AttemptsOf(disk, t)[i] == Metered
    }

    /** The round Core starts with, after applying the one it holds a return for. */
    method EnterTurn(t: nat, ghost w: Spot) returns (r: Outcome<nat>)
      requires Valid()
      modifies this`disk, this`fuse, this`remote, this`remoteVersion, this`marker
      ensures Valid() && TurnOnly(old(disk), disk) && disk.relay == old(disk.relay)
      ensures r.Killed? ==> Published() && killAt == Some(r.point) && r.point != AfterRequestDispatch
      ensures old(Calm() && Sits(script, disk, w)) && Entry(script, w, t) ==>
                Calm() && ((r.Done? && r.value == w.n <= script.rounds(t) && Sits(script, disk, RoundSpot(script, t, r.value)))
                           || (r.Killed? && Resumable(script, disk, t)))
    {
      if Sits(script, disk, w) && Entry(script, w, t) {
        EntryShape(script, disk, w, t);
      }
      if t in disk.outputs {
        return Stopped("turn already completed");
      }
      if !Pending(t) {
        return Done(0);
      }
      var n := |AttemptsOf(disk, t)|;
      var _ :- RecoveredRound(RequestOf(t, n - 1), w);
      return Done(n);
    }

    method NextRound(t: nat, round: nat) returns (r: Outcome<()>)
      requires Valid() && disk.next !in disk.applied
      modifies this`disk, this`fuse, this`remote, this`remoteVersion, this`marker, this`commands
      ensures Valid() && TurnOnly(old(disk), disk)
      ensures r.Killed? ==> Published() && killAt == Some(r.point)
      ensures r == Killed(AfterRequestDispatch) && disk.cursor == disk.next ==> Stuck(disk)
      ensures r.Done? && NoneOpen(old(disk.relay), disk.next) ==> NoneOpen(disk.relay, disk.next)
      ensures old(Calm() && Sits(script, disk, RoundSpot(script, t, round))) && round < script.rounds(t) ==>
                && (r == Killed(AfterRequestDispatch) <==> round > 0 && KillsDispatch(round))
                && (r == Killed(AfterRequestDispatch)
                    || (Calm() && ((r.Done? && Sits(script, disk, RoundSpot(script, t, round + 1)))
                                   || (r.Killed? && Resumable(script, disk, t)))))
    {
      assert round < script.rounds(t) ==> RoundSpot(script, t, round) == ReadySpot(t, round)
                                          && RoundSpot(script, t, round + 1) == DoneSpot(script, t, round);
      r := Round(RequestOf(t, round));
    }

    method Rounds(t: nat, from: nat) returns (r: Outcome<()>)
      requires Valid() && disk.next !in disk.applied
      modifies this`disk, this`fuse, this`remote, this`remoteVersion, this`marker, this`commands
      ensures Valid() && TurnOnly(old(disk), disk)
      ensures r.Killed? ==> Published() && killAt == Some(r.point)
      ensures r == Killed(AfterRequestDispatch) && disk.cursor == disk.next ==> Stuck(disk)
      ensures r.Done? && NoneOpen(old(disk.relay), disk.next) ==> NoneOpen(disk.relay, disk.next)
      ensures old(Calm() && Sits(script, disk, RoundSpot(script, t, from))) && from <= script.rounds(t) ==>
                && (r == Killed(AfterRequestDispatch) <==> KillsBetween(if from == 0 then 1 else from, script.rounds(t)))
                && (r == Killed(AfterRequestDispatch)
                    || (Calm() && ((r.Done? && Sits(script, disk, RoundSpot(script, t, script.rounds(t))))
                                   || (r.Killed? && Resumable(script, disk, t)))))
    {
      ghost var calm := Calm() && Sits(script, disk, RoundSpot(script, t, from)) && from <= script.rounds(t);
      var round := from;
      while round < script.rounds(t)
        invariant Valid() && TurnOnly(old(disk), disk)
        invariant NoneOpen(old(disk.relay), disk.next) ==> NoneOpen(disk.relay, disk.next)
        invariant calm ==> from <= round <= script.rounds(t) && Calm() && Sits(script, disk, RoundSpot(script, t, round))
        invariant calm ==> !KillsBetween(if from == 0 then 1 else from, round)
      {
        var _ :- NextRound(t, round);
        round := round + 1;
      }
      return Done(());
    }

    /** Core's run_turn: it returns only if every handler call returned, and calls the handler only for
        rounds without a durable trusted return. */
    method CoreTurn(t: nat, ghost w: Spot) returns (r: Outcome<()>)
      requires Valid() && disk.next !in disk.applied
      modifies this`disk, this`fuse, this`remote, this`remoteVersion, this`marker, this`commands
      ensures Valid() && TurnOnly(old(disk), disk)
      ensures r.Killed? ==> Published() && killAt == Some(r.point)
      ensures r == Killed(AfterRequestDispatch) && disk.cursor == disk.next ==> Stuck(disk)
      ensures r.Done? && NoneOpen(old(disk.relay), disk.next) ==> NoneOpen(disk.relay, disk.next)
      ensures old(Calm() && Sits(script, disk, w)) && Entry(script, w, t) ==>
                && (r == Killed(AfterRequestDispatch) <==> KillsBetween(w.m, script.rounds(t)))
                && (r == Killed(AfterRequestDispatch)
                    || (Calm() && ((r.Done? && OutputAt(script, disk, t)) || (r.Killed? && Resumable(script, disk, t)))))
    {
      var round :- EnterTurn(t, w);
      var _ :- Rounds(t, round);
      if Sits(script, disk, RoundSpot(script, t, script.rounds(t))) {
        OutputReached(script, disk, t);
      }
      r := Write(disk.(outputs := disk.outputs + {t}));
    }

    // ---------------------------------------------------------- recovery

    /** Failure evidence, published if it can be; the stop itself always stands. */
    method FailClosed() returns (r: Outcome<()>)
      requires Valid()
      modifies this`disk, this`fuse, this`remote, this`remoteVersion, this`marker
      ensures Valid() && SealsOnly(old(disk), disk)
      ensures !r.Done? && !r.Killed?
    {
      r := PersistBarrier("FAIL_CLOSED_NO_DURABLE_TRUSTED_RETURN", true);
      if r != Dead {
        r := Stopped("no durable trusted provider return");
      }
    }

    /** The recorded return of a round whose reply is staged. */
    method AuthenticateStaged(id: Id) returns (r: Outcome<()>)
      requires Valid() && id in disk.relay.rows && Rank(disk.relay.rows[id].state) >= Rank(ReplyStaged)
      modifies this`disk, this`fuse, this`remote, this`remoteVersion, this`marker
      ensures Valid() && SealsOnly(old(disk).(relay := disk.relay), disk)
      ensures !r.Killed? && Settled(old(disk.relay), disk.relay, id)
      ensures old(disk.relay.rows[id].state) != ReplyStaged ==>
                && r.Done? && disk == old(disk) && fuse == old(fuse)
                && remote == old(remote) && marker == old(marker) && remoteVersion == old(remoteVersion)
    {
      OpenSafe(disk, commands, unacked);
      SettledStep(disk.relay, script.owner, MarkAuthenticated(id, "receipt"), id);
      if disk.relay.rows[id].state == ReplyStaged {
        var _ :- Journal(MarkAuthenticated(id, "receipt"));
        var _ :- PersistBarrier("K3_RECOVERED_PROVIDER_RETURN", true);
      }
      return Done(());
    }

    method StartApplying(id: Id, ghost w: Spot) returns (r: Outcome<()>)
      requires Valid() && id in disk.relay.rows && Rank(disk.relay.rows[id].state) >= Rank(ReplyStaged)
      modifies this`disk, this`fuse
      ensures Valid() && disk == old(disk).(relay := disk.relay)
      ensures !r.Killed? && Settled(old(disk.relay), disk.relay, id)
      ensures old(Calm() && Sits(script, disk, w)) && w.level == Working && id.turn == w.c ==>
                r.Done? && Calm() && Sits(script, disk, w)
    {
      OpenSafe(disk, commands, unacked);
      SettledStep(disk.relay, script.owner, BeginApplying(id), id);
      if Sits(script, disk, w) && w.level == Working && id.turn == w.c {
        ApplyingTurn(script, disk, w, id);
      }
      if disk.relay.rows[id].state == Authenticated {
        r := Journal(BeginApplying(id));
      } else {
        r := Done(());
      }
    }

    method Reauthenticate(id: Id, ghost w: Spot) returns (r: Outcome<()>)
      requires Valid() && id in disk.relay.rows && Rank(disk.relay.rows[id].state) >= Rank(ReplyStaged)
      modifies this`disk, this`fuse, this`remote, this`remoteVersion, this`marker
      ensures Valid() && SealsOnly(old(disk).(relay := disk.relay), disk)
      ensures !r.Killed? && Settled(old(disk.relay), disk.relay, id)
      ensures old(Calm() && Sits(script, disk, w)) && w.level == Working && id.turn == w.c ==>
                r.Done? && Calm() && Sits(script, disk, w)
    {
      ghost var t := disk.relay;
      if Sits(script, disk, w) && w.level == Working && id.turn == w.c {
        ApplyingTurn(script, disk, w, id);
      }
      var _ :- AuthenticateStaged(id);
      ghost var u := disk.relay;
      r := StartApplying(id, w);
      SettledTransitive(t, u, disk.relay, id);
    }

    /** One request of the cursor: what recovery does with it, by its relay state and Core's attempt. */
    method RecoverOne(id: Id, ghost w: Spot) returns (r: Outcome<()>)
      requires Valid() && id in disk.relay.rows
      modifies this`disk, this`fuse, this`remote, this`remoteVersion, this`marker
      ensures Valid() && RecoveryOnly(old(disk), disk)
      ensures !r.Killed? && SameBut(old(disk.relay), disk.relay, id) && id in disk.relay.rows
      ensures disk.relay.rows[id].metadata == old(disk.relay.rows[id].metadata)
      ensures disk.relay.rows[id].state == Exposed <==> old(disk.relay.rows[id].state) == Exposed
      ensures r.Done? ==> disk.relay.rows[id].state != Exposed
      ensures SameAttempts(old(disk), disk)
      ensures AttemptOf(old(disk), id).None? && old(disk.relay.rows[id].state) in {ReplyStaged, Authenticated, Applying} ==>
                !r.Done? && SealsOnly(old(disk), disk)
      ensures old(Calm() && Sits(script, disk, w)) && w.level == Working && w.n == w.m && id.turn == w.c ==>
                r.Done? && Calm() && Sits(script, disk, w)
    {
      if Sits(script, disk, w) && w.level == Working && id.turn == w.c {
        ApplyingTurn(script, disk, w, id);
      }
      var state := disk.relay.rows[id].state;
      if state == Staged || state == Applied || state == Acked {
        return Done(());
      }
      if state == Exposed || AttemptOf(disk, id).None? {
        r := FailClosed();
        return;
      }
      if id !in disk.receipts && id in disk.proofs && AttemptOf(disk, id) == Some(Dispatching) {
        var _ :- AttachReturn(id);
      }
      if id !in disk.receipts {
        if AttemptOf(disk, id) == Some(Admitted) {
          return Done(());
        }
        r := FailClosed();
        return;
      }
      r := Reauthenticate(id, w);
    }

    /** Every request of the cursor in turn, without asking the provider for anything. A request left
        exposed stops recovery, and stays exposed. */
    method RecoverWithCore(c: nat, ghost w: Spot) returns (r: Outcome<()>)
      requires Valid()
      modifies this`disk, this`fuse, this`remote, this`remoteVersion, this`marker
      ensures Valid() && RecoveryOnly(old(disk), disk)
      ensures !r.Killed?
      ensures SameOpen(old(disk.relay), disk.relay)
      ensures !NoneOpen(old(disk.relay), c) ==> !r.Done?
      ensures r.Done? ==> NoneOpen(disk.relay, c)
      ensures OrphansKept(old(disk), disk)
      ensures r.Done? && c == disk.next ==> forall id :: !Orphaned(old(disk), id)
      ensures old(Calm() && Sits(script, disk, w)) && w.level == Working && w.n == w.m && w.c == c ==>
                r.Done? && Calm() && Sits(script, disk, w)
    {
      ghost var t := disk.relay;
      ghost var calm := Calm() && Sits(script, disk, w) && w.level == Working && w.n == w.m && w.c == c;
      OpenSafe(disk, commands, unacked);
      RequestIdsExact(t, Some(c));
      var ids := RequestIds(disk.relay, Some(c));
      if calm {
        TurnListing(script, disk, w);
      }
      OrphansListed(disk);
      r := RecoverEach(ids, w);
      SameOpenStuck(t, disk.relay, c);
      if r.Done? {
        AllSettled(t, disk.relay, ids, c);
      }
    }

    method RecoverNext(id: Id, ghost w: Spot) returns (r: Outcome<()>)
      requires Valid() && id in disk.relay.rows
      modifies this`disk, this`fuse, this`remote, this`remoteVersion, this`marker
      ensures Valid() && RecoveryOnly(old(disk), disk)
      ensures !r.Killed? && SameOpen(old(disk.relay), disk.relay) && OrphansKept(old(disk), disk)
      ensures r.Done? ==> old(disk.relay.rows[id].state) != Exposed && !Orphaned(old(disk), id)
      ensures old(Calm() && Sits(script, disk, w)) && w.level == Working && w.n == w.m && id.turn == w.c ==>
                r.Done? && Calm() && Sits(script, disk, w)
    {
      ghost var e := disk;
      r := RecoverOne(id, w);
      SameOpenStep(e.relay, e.relay, disk.relay, id);
      OrphansStep(e, disk, id);
    }

    method RecoverEach(ids: seq<Id>, ghost w: Spot) returns (r: Outcome<()>)
      requires Valid() && forall i :: 0 <= i < |ids| ==> ids[i] in disk.relay.rows
      modifies this`disk, this`fuse, this`remote, this`remoteVersion, this`marker
      ensures Valid() && RecoveryOnly(old(disk), disk)
      ensures !r.Killed? && SameOpen(old(disk.relay), disk.relay)
      ensures r.Done? ==>
                forall i :: 0 <= i < |ids| ==> ids[i] in old(disk.relay.rows) && old(disk.relay.rows)[ids[i]].state != Exposed
      ensures OrphansKept(old(disk), disk)
      ensures r.Done? ==> forall i :: 0 <= i < |ids| ==> !Orphaned(old(disk), ids[i])
      ensures old(Calm() && Sits(script, disk, w)) && w.level == Working && w.n == w.m
                && (forall i :: 0 <= i < |ids| ==> ids[i].turn == w.c) ==>
                r.Done? && Calm() && Sits(script, disk, w)
    {
      ghost var t := disk.relay;
      ghost var calm := Calm() && Sits(script, disk, w) && w.level == Working && w.n == w.m
        && (forall i :: 0 <= i < |ids| ==> ids[i].turn == w.c);
      for i := 0 to |ids|
        invariant Valid() && RecoveryOnly(old(disk), disk)
        invariant SameOpen(t, disk.relay)
        invariant forall j :: 0 <= j < i ==> ids[j] in t.rows && t.rows[ids[j]].state != Exposed
        invariant OrphansKept(old(disk), disk) && forall j :: 0 <= j < i ==> !Orphaned(old(disk), ids[j])
        invariant calm ==> Calm() && Sits(script, disk, w)
      {
        ghost var e := disk;
        assert ids[i] in t.rows && ids[i] in e.relay.rows;
        r := RecoverNext(ids[i], w);
        SameOpenTransitive(t, e.relay, disk.relay);
        OrphansKeptTransitive(old(disk), e, disk);
        if !r.Done? {
          return;
        }
      }
      return Done(());
    }

    // ---------------------------------------------------------- finishing a turn

    /** Core's receipt and the completed application of one request. */
    method FinaliseOne(id: Id, ghost c: nat, ghost handled: seq<Id>) returns (r: Outcome<()>)
      requires Valid() && id in disk.relay.rows
      modifies this`disk, this`fuse
      ensures Valid() && disk == old(disk).(relay := disk.relay) && disk.relay.rows.Keys == old(disk.relay.rows.Keys)
      ensures !r.Killed?
      ensures old(fuse) == Some(0) ==> disk == old(disk) && fuse == Some(0)
      ensures old(Calm() && Finishing(script, disk, c, handled)) && id.turn == c && id !in handled ==>
                r.Done? && Calm() && Finishing(script, disk, c, handled + [id])
    {
      if Finishing(script, disk, c, handled) && id.turn == c && id !in handled {
        FinishStep(script, disk, c, handled, id);
      }
      KeysKept(disk.relay, script.owner, MarkAuthenticated(id, "receipt"));
      KeysKept(disk.relay, script.owner, MarkApplied(id));
      var state := disk.relay.rows[id].state;
      if state == Applied || state == Acked {
        return Done(());
      }
      if id in disk.receipts {
        if state == ReplyStaged {
          var _ :- Journal(MarkAuthenticated(id, "receipt"));
          KeysKept(disk.relay, script.owner, MarkApplied(id));
        }
        r := Journal(MarkApplied(id));
      } else if (AttemptOf(disk, id) == Some(Returned) || AttemptOf(disk, id) == Some(Metered))
                && state != Staged && state != Exposed {
        r := Journal(MarkApplied(id));
      } else {
        r := Done(());
      }
    }

    method Finalise(c: nat) returns (r: Outcome<()>)
      requires Valid()
      modifies this`disk, this`fuse
      ensures Valid() && disk == old(disk).(relay := disk.relay)
      ensures !r.Killed?
      ensures old(fuse) == Some(0) ==> disk == old(disk)
      ensures old(Calm() && Finishing(script, disk, c, [])) ==>
                r.Done? && Calm() && script.rounds(c) >= 1 && Stands(script, disk, c, AppliedProgress(script, c))
    {
      OpenSafe(disk, commands, unacked);
      RequestIdsExact(disk.relay, Some(c));
      var ids := RequestIds(disk.relay, Some(c));
      ghost var calm := Calm() && Finishing(script, disk, c, []);
      if calm {
        FinishListing(script, disk, c);
      }
      for i := 0 to |ids|
        invariant Valid() && disk == old(disk).(relay := disk.relay)
        invariant forall j :: 0 <= j < |ids| ==> ids[j] in disk.relay.rows
        invariant old(fuse) == Some(0) ==> disk == old(disk) && fuse == Some(0)
        invariant calm ==> Calm() && Finishing(script, disk, c, ids[..i])
      {
        assert ids[..i + 1] == ids[..i] + [ids[i]];
        r := FinaliseOne(ids[i], c, ids[..i]);
        if !r.Done? {
          return;
        }
      }
      assert ids[..|ids|] == ids;
      if calm {
        FinishEnd(script, disk, c, ids);
      }
      return Done(());
    }

    /** The seal and the barrier after a turn. */
    method CloseTurn(c: nat, ghost p: Progress) returns (r: Outcome<()>)
      requires Valid()
      modifies this`disk, this`fuse, this`remote, this`remoteVersion, this`marker
      ensures Valid() && SealsOnly(old(disk), disk)
      ensures r.Killed? ==> r.point == AfterApplied && killAt == Some(AfterApplied) && Published()
      ensures old(Calm() && Stands(script, disk, c, p)) ==> (r.Done? || r.Killed?) && Calm() && Stands(script, disk, c, p)
    {
      ghost var e := disk;
      var _ :- Seal();
      var _ :- PersistBarrier("K5_AFTER_APPLIED_BEFORE_ACK", false);
      if Stands(script, e, c, p) && SealedAt(disk) {
        SealsKeepAt(script, e, disk, c, p);
      }
      r := MaybeKill(AfterApplied, None);
    }

    /** Round 0 is durable before Core starts. */
    method Prime(c: nat, ghost p: Progress) returns (r: Outcome<()>)
      requires Valid() && disk.next !in disk.applied && c == disk.next
      modifies this`disk, this`fuse, this`remote, this`remoteVersion, this`marker, this`commands
      ensures Valid() && MailOnly(old(disk), disk)
      ensures r.Killed? ==> killAt == Some(AfterRequestDispatch) && r.point == AfterRequestDispatch && Published() && Stuck(disk)
      ensures r.Done? && NoneOpen(old(disk.relay), c) ==> NoneOpen(disk.relay, c)
      ensures old(Calm() && Sits(script, disk, SpotOf(c, p))) && SpotOf(c, p) == Spot(c, 0, Working, 0, Metered, 0) ==>
                && (r.Killed? <==> KillsDispatch(0))
                && (r.Killed? || (r.Done? && Calm() && Sits(script, disk, ReadySpot(c, 0))))
      ensures old(Calm() && Sits(script, disk, SpotOf(c, p))) && p.rounds > 0 ==>
                r.Done? && Calm() && Sits(script, disk, SpotOf(c, p))
    {
      r := Exchange(RequestOf(c, 0), c, SpotOf(c, p));
    }

    // ---------------------------------------------------------- the loop

    /** Recovery, the primed round and Core's turn. */
    method Work(c: nat, ghost p: Progress) returns (r: Outcome<()>)
      requires Valid() && disk.next !in disk.applied && c == disk.next
      modifies this`disk, this`fuse, this`remote, this`remoteVersion, this`marker, this`commands
      ensures Valid() && TurnOnly(old(disk), disk)
      ensures r.Killed? ==> Published() && killAt == Some(r.point)
      ensures r == Killed(AfterRequestDispatch) && disk.cursor == c ==> Stuck(disk)
      ensures r.Done? ==> NoneOpen(disk.relay, c)
      ensures !NoneOpen(old(disk.relay), c) ==>
                !r.Done? && SameOpen(old(disk.relay), disk.relay) && RecoveryOnly(old(disk), disk) && commands == old(commands)
      ensures (exists id :: Orphaned(old(disk), id)) ==>
                !r.Done? && OrphansKept(old(disk), disk) && RecoveryOnly(old(disk), disk) && commands == old(commands)
      ensures old(Calm() && Stands(script, disk, c, p)) && p.ingested && !p.applied && crashAt != Some(BeforeCore) ==>
                && (r == Killed(AfterRequestDispatch) <==> KillsBetween(p.rounds, script.rounds(c)))
                && (r == Killed(AfterRequestDispatch)
                    || (Calm() && ((r.Done? && OutputAt(script, disk, c)) || (r.Killed? && Resumable(script, disk, c)))))
      ensures old(Calm() && Stands(script, disk, c, p)) && p.ingested && !p.applied && p.rounds == 0
                && killAt.None? && crashAt == Some(BeforeCore) ==>
                r == Dead && Calm() && Sits(script, disk, ReadySpot(c, 0))
    {
      if Stands(script, disk, c, p) && p.ingested && !p.applied {
        StandsInTurn(script, disk, c, p);
      }
      ghost var t := disk.relay;
      var _ :- RecoverWithCore(c, SpotOf(c, p));
      SameOpenStuck(t, disk.relay, c);
      var _ :- Prime(c, p);
      var _ :- Pass(BeforeCore);
      r := CoreTurn(c, if p.rounds == 0 then ReadySpot(c, 0) else SpotOf(c, p));
    }

    /** The turn is applied only after Core's turn returned; its rows follow. */
    method Apply(c: nat) returns (r: Outcome<()>)
      requires Valid() && c == disk.next && NoneOpen(disk.relay, c)
      modifies this`disk, this`fuse
      ensures Valid() && disk == old(disk).(applied := disk.applied, relay := disk.relay)
      ensures !r.Killed?
      ensures disk.applied == old(disk.applied) || disk.applied == old(disk.applied) + {c}
      ensures r.Done? ==> c in disk.applied
      ensures c in disk.applied || disk == old(disk)
      ensures old(fuse) == Some(1) ==> disk == old(disk).(applied := old(disk.applied) + {c})
      ensures old(Calm() && OutputAt(script, disk, c)) && crashAt == Some(BeforeFinalise) ==>
                r == Dead && Calm() && Finishing(script, disk, c, [])
      ensures old(Calm() && OutputAt(script, disk, c)) && crashAt != Some(BeforeFinalise) ==>
                r.Done? && Calm() && script.rounds(c) >= 1 && Stands(script, disk, c, AppliedProgress(script, c))
    {
      ApplySafe(disk, commands, unacked);
      if OutputAt(script, disk, c) {
        StartFinishing(script, disk, c);
      }
      var _ :- Write(disk.(applied := disk.applied + {c}));
      var _ :- Pass(BeforeFinalise);
      r := Finalise(c);
    }

    /** The finished turn: recorded, its rows applied, sealed and published. */
    method RecordTurn(c: nat) returns (r: Outcome<()>)
      requires Valid() && c == disk.next && NoneOpen(disk.relay, c)
      modifies this`disk, this`fuse, this`remote, this`remoteVersion, this`marker
      ensures Valid() && SealsOnly(old(disk).(applied := disk.applied, relay := disk.relay), disk)
      ensures disk.applied == old(disk.applied) || disk.applied == old(disk.applied) + {c}
      ensures r.Killed? ==> r.point == AfterApplied && killAt == Some(AfterApplied) && Published()
      ensures r.Done? ==> c in disk.applied
      ensures old(Calm() && OutputAt(script, disk, c)) && crashAt == Some(BeforeFinalise) ==>
                r == Dead && Calm() && Finishing(script, disk, c, [])
      ensures old(Calm() && OutputAt(script, disk, c)) && crashAt != Some(BeforeFinalise) ==>
                (r.Done? || r.Killed?) && Calm() && script.rounds(c) >= 1 && Stands(script, disk, c, AppliedProgress(script, c))
    {
      var _ :- Apply(c);
      var rounds := script.rounds(c);
      r := CloseTurn(c, Progress(true, true, rounds, if rounds >= 1 then rounds - 1 else 0, true, true));
    }

    method RunTurn(c: nat, ghost p: Progress) returns (r: Outcome<()>)
      requires Valid() && c == disk.next
      modifies this`disk, this`fuse, this`remote, this`remoteVersion, this`marker, this`commands
      ensures Valid() && TurnOnly(old(disk).(applied := disk.applied), disk)
      ensures disk.applied == old(disk.applied) || disk.applied == old(disk.applied) + {c}
      ensures r.Killed? ==> Published() && killAt == Some(r.point)
      ensures r == Killed(AfterRequestDispatch) && disk.cursor == c ==> Stuck(disk)
      ensures r.Done? ==> c in disk.applied
      ensures c in old(disk.applied) ==> r.Done? && disk == old(disk) && commands == old(commands) && (old(Calm()) ==> Calm())
      ensures !NoneOpen(old(disk.relay), c) ==>
                !r.Done? && SameOpen(old(disk.relay), disk.relay) && RecoveryOnly(old(disk), disk) && commands == old(commands)
      ensures (exists id :: Orphaned(old(disk), id)) ==>
                !r.Done? && OrphansKept(old(disk), disk) && RecoveryOnly(old(disk), disk) && commands == old(commands)
      ensures old(Calm() && Stands(script, disk, c, p)) && p.ingested && crashAt.None? ==>
                && (r == Killed(AfterRequestDispatch) <==> !p.applied && KillsBetween(p.rounds, script.rounds(c)))
                && (r == Killed(AfterRequestDispatch)
                    || (Calm() && ((r.Done? && script.rounds(c) >= 1 && Stands(script, disk, c, AppliedProgress(script, c)))
                                   || (r.Killed? && Resumable(script, disk, c)))))
      ensures old(Calm() && Stands(script, disk, c, p)) && p.ingested && !p.applied && p.rounds == 0 && killAt.None? ==>
                && (crashAt == Some(BeforeCore) ==> r == Dead && Calm() && Sits(script, disk, ReadySpot(c, 0)))
                && (crashAt == Some(BeforeFinalise) ==> r == Dead && Calm() && Finishing(script, disk, c, []))
    {
      if Stands(script, disk, c, p) {
        RevealShape(script, disk, c, p);
        if p.applied {
          AppliedShape(script, disk, c, p);
        }
      }
      if Stuck(disk) {
        StuckNotApplied(disk, commands, unacked);
      }
      if c in disk.applied {
        return Done(());
      }
      var _ :- Work(c, p);
      r := RecordTurn(c);
    }

    /** The release operator advances by one, then the ledger keeps the receipt. */
    method ReleaseAck(c: nat) returns (r: Outcome<()>)
      requires Valid() && c == disk.next && c in disk.applied
      modifies this`disk, this`fuse
      ensures Valid() && !r.Killed?
      ensures disk == old(disk).(next := disk.next, pending := disk.pending, ackReceipts := disk.ackReceipts)
      ensures disk.next == c || disk.next == c + 1
      ensures r == Dead ==> disk == old(disk) || disk == old(disk).(next := c + 1, pending := false)
      ensures old(Calm()) ==> Calm()
      ensures old(Calm() && disk.pending && c in disk.observed) ==>
                r.Done? && disk == old(disk).(next := c + 1, pending := false, ackReceipts := old(disk.ackReceipts) + {c})
    {
      if !disk.pending || c !in disk.observed {
        return Stopped("ack requires the pending, ingested event");
      }
      AdvanceSafe(disk, commands, unacked);
      var _ :- Write(disk.(next := disk.next + 1, pending := false));
      var _ :- Write(disk.(ackReceipts := disk.ackReceipts + {c}));
      return Done(());
    }

    /** The ack of the cursor, then of its terminal request. If that request is not applied the cursor
        has moved on all the same and the request stays unacked. */
    method RecordAck(c: nat) returns (r: Outcome<()>)
      requires Valid() && c == disk.next && c in disk.applied
      modifies this`disk, this`fuse
      ensures Valid() && !r.Killed?
      ensures disk == old(disk).(next := disk.next, pending := disk.pending, ackReceipts := disk.ackReceipts, relay := disk.relay)
      ensures disk.next == c || disk.next == c + 1
      ensures old(Calm()) ==> Calm()
      ensures TerminalUnapplied(old(disk.relay), c) ==> disk.relay == old(disk.relay)
      ensures old(Calm() && disk.pending && c in disk.observed) ==>
                disk.next == c + 1 && (r.Done? <==> !TerminalUnapplied(old(disk.relay), c))
      ensures old(Calm() && script.rounds(c) >= 1 && Stands(script, disk, c, AppliedProgress(script, c))) ==>
                && r.Done?
                && disk == old(disk).(next := c + 1, pending := false, ackReceipts := old(disk.ackReceipts) + {c},
                     relay := After(old(disk.relay), script.owner, MarkAcked(RequestOf(c, script.rounds(c) - 1), "acked")))
    {
      if script.rounds(c) >= 1 && Stands(script, disk, c, AppliedProgress(script, c)) {
        AppliedShape(script, disk, c, AppliedProgress(script, c));
      }
      Unwatched(disk, commands, unacked);
      var _ :- ReleaseAck(c);
      TerminalUnwatched(disk, commands, unacked, c);
      var terminal := TerminalRequestId(disk.relay, Some(c));
      if terminal.Some? {
        AckTaken(disk, commands, unacked, script.owner, terminal.value, "acked");
        var _ :- Journal(MarkAcked(terminal.value, "acked"));
      }
      return Done(());
    }

    method Ack(c: nat) returns (r: Outcome<()>)
      requires Valid() && c == disk.next && c in disk.applied
      modifies this`disk, this`fuse, this`remote, this`remoteVersion, this`marker
      ensures Valid() && !r.Killed?
      ensures disk.next == c || disk.next == c + 1
      ensures disk.provider == old(disk.provider)
      ensures r.Done? && disk.next == c + 1 ==> Published()
      ensures old(Calm() && HalfApplied(disk)) ==> !r.Done? && disk.next == c + 1 && disk.relay == old(disk.relay)
      ensures old(Calm() && script.rounds(c) >= 1 && Stands(script, disk, c, AppliedProgress(script, c))) ==>
                r.Done? && Calm() && disk.next == c + 1 && Stands(script, disk, c + 1, START)
    {
      ghost var d := disk;
      ghost var calm := Calm() && script.rounds(c) >= 1 && Stands(script, disk, c, AppliedProgress(script, c));
      if calm {
        AppliedShape(script, disk, c, AppliedProgress(script, c));
      }
      if c in disk.ackReceipts {
        return Done(());
      }
      var _ :- RecordAck(c);
      ghost var e := disk;
      if calm {
        AckedAt(script, d, e, c);
      }
      var _ :- Seal();
      var _ :- PersistBarrier("ACKED", false);
      if calm {
        SealsKeepAt(script, e, disk, c + 1, START);
      }
      return Done(());
    }

    /** A round may be named only for the two K3 boundaries. */
    predicate ArmedOk()
      reads this
    {
      killRound.Some? ==> killAt == Some(AfterRequestDispatch) || killAt == Some(TrustedReturnDurable)
    }

    /** Reveal and ingest. */
    method Prepare(ghost p: Progress) returns (r: Outcome<nat>)
      requires Valid()
      modifies this`disk, this`fuse, this`remote, this`remoteVersion, this`marker
      ensures Valid() && disk.next == old(disk.next) && disk.relay == old(disk.relay)
      ensures StaysBroken(old(disk), disk)
      ensures r.Done? ==> r.value == disk.next
      ensures r.Killed? ==> Published() && killAt == Some(r.point) && r.point != AfterRequestDispatch
      ensures old(TornReveal(disk) || TornIngest(disk)) ==> !r.Done?
      ensures old(Calm() && Stands(script, disk, disk.next, p)) && disk.next <= script.events
                && crashAt !in {Some(BetweenRevealRows), Some(BetweenIngestRows)} ==>
                && (r.Done? || r.Killed?) && Calm()
                && (r.Done? ==> Stands(script, disk, disk.next, p.(revealed := true, ingested := true)))
                && (r.Killed? ==> Resumable(script, disk, disk.next))
      ensures p == START && old(Calm() && Stands(script, disk, disk.next, p)) && disk.next <= script.events
                && killAt.None? && crashAt in {Some(BetweenRevealRows), Some(BetweenIngestRows)} ==>
                r == Dead && Calm() && SealedAt(disk) && Leaves(crashAt.value, script, disk)
      ensures old(Calm() && SealedAt(disk) && HalfApplied(disk)) && killAt.None? ==>
                r.Done? && Calm() && SealedAt(disk) && HalfApplied(disk)
    {
      if Stands(script, disk, disk.next, p) {
        RevealShape(script, disk, disk.next, p);
      }
      var c :- Reveal(p);
      var _ :- Ingest(c, p.(revealed := true));
      return Done(c);
    }

    /** The turn and its ack. */
    method Conclude(c: nat, ghost p: Progress) returns (r: Outcome<()>)
      requires Valid() && c == disk.next
      modifies this`disk, this`fuse, this`remote, this`remoteVersion, this`marker, this`commands
      ensures Valid()
      ensures disk.next == c || disk.next == c + 1
      ensures r.Killed? ==> Published() && killAt == Some(r.point) && disk.next == c
      ensures r.Done? && disk.next == c + 1 ==> Published()
      ensures r == Killed(AfterRequestDispatch) && old(disk.cursor) == c ==> Stuck(disk)
      ensures !NoneOpen(old(disk.relay), c) ==> !r.Done? && StillStuck(old(disk), disk) && commands == old(commands)
      ensures (exists id :: Orphaned(old(disk), id)) ==>
                !r.Done? && Halted(old(disk), disk) && OrphansKept(old(disk), disk) && commands == old(commands)
      ensures old(Calm() && Stands(script, disk, c, p)) && p.ingested && crashAt.None? ==>
                && (r == Killed(AfterRequestDispatch) <==> !p.applied && KillsBetween(p.rounds, script.rounds(c)))
                && (r == Killed(AfterRequestDispatch)
                    || (Calm() && ((r.Done? && disk.next == c + 1 && Stands(script, disk, disk.next, START))
                                   || (r.Killed? && Resumable(script, disk, disk.next)))))
      ensures old(Calm() && Stands(script, disk, c, p)) && p.ingested && !p.applied && p.rounds == 0
                && killAt.None? && crashAt in {Some(BeforeCore), Some(BeforeFinalise)} ==>
                r == Dead && disk.next == c && Calm() && SealedAt(disk) && Leaves(crashAt.value, script, disk)
      ensures old(Calm() && HalfApplied(disk)) ==> !r.Done? && disk.next == c + 1 && disk.relay == old(disk.relay)
    {
      r := RunTurn(c, p);
      if Sits(script, disk, ReadySpot(c, 0)) {
        PrimedIsOrphaned(script, disk, c);
      }
      if Finishing(script, disk, c, []) {
        UnfinishedIsHalfApplied(script, disk, c);
      }
      if r.Done? {
        r := Ack(c);
      }
    }

    /** One cursor: reveal, ingest, turn, ack. Resuming is this same method in a new process. */
    method ProcessOneCursor(ghost p: Progress) returns (r: Outcome<()>)
      requires Valid()
      modifies this`disk, this`fuse, this`remote, this`remoteVersion, this`marker, this`commands
      ensures Valid()
      ensures disk.next == old(disk.next) || disk.next == old(disk.next) + 1
      ensures r.Killed? ==> Published() && killAt == Some(r.point) && disk.next == old(disk.next)
      ensures r.Done? && disk.next == old(disk.next) + 1 ==> Published()
      ensures old(Stuck(disk)) ==> !r.Done? && StillStuck(old(disk), disk) && commands == old(commands)
      ensures old(Broken(disk)) ==> !r.Done? && StaysBroken(old(disk), disk) && commands == old(commands)
      ensures old(Calm() && Stands(script, disk, disk.next, p)) && old(disk.next) <= script.events && ArmedOk() && crashAt.None? ==>
                && (r == Killed(AfterRequestDispatch) <==> !p.applied && KillsBetween(p.rounds, script.rounds(old(disk.next))))
                && (r == Killed(AfterRequestDispatch) ==> Stuck(disk))
                && (r == Killed(AfterRequestDispatch)
                    || (Calm() && ((r.Done? && disk.next == old(disk.next) + 1 && Stands(script, disk, disk.next, START))
                                   || (r.Killed? && Resumable(script, disk, disk.next)))))
      ensures p == START && old(Calm() && Stands(script, disk, disk.next, p)) && old(disk.next) <= script.events
                && killAt.None? && killRound.None? && crashAt.Some? ==>
                r == Dead && disk.next == old(disk.next) && Calm() && SealedAt(disk) && Leaves(crashAt.value, script, disk)
      ensures old(Calm() && SealedAt(disk) && HalfApplied(disk)) && killAt.None? && killRound.None? ==>
                !r.Done? && disk.next == old(disk.next) + 1 && disk.relay == old(disk.relay)
    {
      if !ArmedOk() {
        return Stopped("kill_round is only valid for the K3 boundaries");
      }
      var c :- Prepare(p);
      if Stands(script, disk, c, p.(revealed := true, ingested := true)) {
        RevealShape(script, disk, c, p.(revealed := true, ingested := true));
      }
      if crashAt.Some? {
        EveryPlace(crashAt.value);
      }
      r := Conclude(c, p.(revealed := true, ingested := true));
    }

    /** The same requests wait, the cursor stands, and the provider was told and asked nothing. */
    static ghost predicate StillStuck(d: Disk, e: Disk)
    {
      && SameOpen(d.relay, e.relay) && e.next == d.next
      && e.outbox == d.outbox && e.provider == d.provider && e.inbox == d.inbox && e.proofs == d.proofs
    }

    /** Reopening a run: whole seals that agree with the ledger and, with a remote, the marker at its
        head and the same sealed head there. The part of attach that concerns the provider is elsewhere. */
    method Attach() returns (accepted: bool)
      ensures accepted <==>
                && !disk.sealing && disk.generation == disk.sealed
                && (script.remote ==> marker == remoteVersion && remote.Some? && remote.value.sealed == disk.sealed)
    {
      if disk.sealing || disk.generation != disk.sealed {
        return false;
      }
      if script.remote && (marker != remoteVersion || remote.None? || remote.value.sealed != disk.sealed) {
        return false;
      }
      return true;
    }

    /** Wiping the local state and materializing the remote head. */
    method WipeAndMaterialize()
      requires Valid() && Published()
      modifies this`disk, this`marker
      ensures disk == old(disk) && marker == old(marker)
    {
      if script.remote && remote.Some? {
        disk := remote.value;
        marker := remoteVersion;
      }
    }

    constructor (script: Script)
      ensures this.script == script && Valid() && Published() && commands == [] && fuse.None?
      ensures disk.next == 1 && disk.provider == []
      ensures ScriptOk(script) ==> Stands(script, disk, 1, START)
    {
      this.script := script;
      disk, remote, remoteVersion, marker := FIRST, Some(FIRST), 1, 1;
      fuse, crashAt, providerUp, remoteUp, killAt, killRound := None, None, true, true, None, None;
      commands, unacked := [], {};
      InitialSafe();
      if ScriptOk(script) {
        InitialStands(script);
      }
    }

    // ---------------------------------------------------------- whole runs

    /** One process of a run: when it crashes by itself, where it is armed to die, and what answers. */
    method Start(life: Process)
      modifies this`fuse, this`crashAt, this`providerUp, this`remoteUp, this`killAt, this`killRound
      ensures fuse == life.fuse && crashAt == life.crashAt && providerUp == life.providerUp && remoteUp == life.remoteUp
      ensures killAt == life.killAt && killRound == life.killRound
    {
      fuse, crashAt, providerUp, remoteUp := life.fuse, life.crashAt, life.providerUp, life.remoteUp;
      killAt, killRound := life.killAt, life.killRound;
    }

    /** Any number of processes, each of which may crash between any two durable writes: no request is
        ever sent twice and the provider records it at most once; a run that waits for an unanswered
        request, or that a crash broke, stays so forever and sends nothing; and a request that a cursor
        left behind unacked is never acked. */
    method RunProcesses(lives: seq<Process>)
      requires Valid()
      modifies this
      ensures Valid()
      ensures NoDuplicates(commands) && NoDuplicates(disk.provider)
      ensures forall id :: id in disk.provider ==> id in commands
      ensures forall id :: id in disk.relay.rows ==> disk.relay.rows[id].exposures <= 1 && disk.relay.rows[id].dispatches <= 1
      ensures disk.next >= old(disk.next) && forall c :: 1 <= c < disk.next ==> c in disk.applied
      ensures old(Stuck(disk)) ==> Stuck(disk) && StillStuck(old(disk), disk) && commands == old(commands)
      ensures old(Broken(disk)) ==> Broken(disk) && StaysBroken(old(disk), disk) && commands == old(commands)
      ensures forall id :: id in old(LeftBehind(disk)) ==> id in disk.relay.rows && disk.relay.rows[id].state != Acked
    {
      unacked := LeftBehind(disk);
      WatchLeftBehind(disk, commands, old(unacked));
      for i := 0 to |lives|
        invariant Valid() && unacked == old(LeftBehind(disk)) && disk.next >= old(disk.next)
        invariant old(Stuck(disk)) ==> Stuck(disk) && StillStuck(old(disk), disk) && commands == old(commands)
        invariant old(Broken(disk)) ==> Broken(disk) && StaysBroken(old(disk), disk) && commands == old(commands)
      {
        ghost var d := disk;
        RunProcess(lives[i]);
        if old(Stuck(disk)) {
          SameOpenTransitive(old(disk.relay), d.relay, disk.relay);
          SameOpenStuck(d.relay, disk.relay, d.next);
        }
        if old(Broken(disk)) {
          StaysBrokenTransitive(old(disk), d, disk);
        }
      }
      OpenSafe(disk, commands, unacked);
      Exposures(disk);
    }

    /** One process: it attaches, and takes the next cursor if it is let in. */
    method RunProcess(life: Process)
      requires Valid()
      modifies this`disk, this`fuse, this`crashAt, this`providerUp, this`remoteUp, this`killAt, this`killRound,
               this`remote, this`remoteVersion, this`marker, this`commands
      ensures Valid() && (disk.next == old(disk.next) || disk.next == old(disk.next) + 1)
      ensures old(Stuck(disk)) ==> StillStuck(old(disk), disk) && commands == old(commands)
      ensures old(Broken(disk)) ==> StaysBroken(old(disk), disk) && commands == old(commands)
    {
      Start(life);
      var accepted := Attach();
      if accepted {
        var _ := ProcessOneCursor(START);
      } else {
        assert SameOpen(disk.relay, disk.relay);
      }
    }

    /** A kill right after a dispatch is final: whatever follows, the cursor is never acked and nothing
        more is sent. It takes effect exactly if one of the rounds still to be dispatched is armed. */
    method DispatchKillIsFinal(round: Option<nat>, lives: seq<Process>, ghost p: Progress) returns (r: Outcome<()>)
      requires Valid() && ScriptOk(script) && Published() && Stands(script, disk, disk.next, p) && disk.next <= script.events
      modifies this
      ensures Valid()
      ensures r == Killed(AfterRequestDispatch) <==>
                !p.applied && if round.Some? then p.rounds <= round.value < script.rounds(old(disk.next))
                              else p.rounds < script.rounds(old(disk.next))
      ensures r == Killed(AfterRequestDispatch) ==> Stuck(disk) && disk.next == old(disk.next)
    {
      Start(KilledBy(Kill(AfterRequestDispatch, round, false)));
      r := ProcessOneCursor(p);
      if r == Killed(AfterRequestDispatch) {
        RunProcesses(lives);
      }
    }

    /** A crash between the two ledger rows of a reveal or an ingest, or between round 0 and Core, is
        final: the run can be attached again, and no process ever takes the cursor further. */
    method CrashIsFinal(place: Place, lives: seq<Process>) returns (attached: bool)
      requires Valid() && ScriptOk(script) && Published() && Stands(script, disk, disk.next, START) && disk.next <= script.events
      requires place != BeforeFinalise
      modifies this
      ensures Valid() && attached
      ensures disk.next == old(disk.next) && Leaves(place, script, disk)
    {
      Start(CrashedAt(place));
      var _ := ProcessOneCursor(START);
      attached := Attach();
      ghost var d := disk;
      LeavesBroken(place, script, d);
      RunProcesses(lives);
      LeavesStays(place, script, d, disk);
    }

    /** The next process over a turn that is recorded as applied while its terminal request is not: it
        attaches, acks the cursor, and is refused the ack of the request. */
    method AckHalfApplied() returns (attached: bool, r: Outcome<()>)
      requires Valid() && Calm() && SealedAt(disk) && HalfApplied(disk)
      modifies this
      ensures Valid() && unacked == old(unacked)
      ensures attached && !r.Done? && disk.next == old(disk.next) + 1 && disk.relay == old(disk.relay)
    {
      Start(Undisturbed());
      attached := Attach();
      r := ProcessOneCursor(START);
    }

    /** A crash between recording the turn as applied and its rows lets the next process ack the cursor and
        then refuses the ack of its terminal request: that request stays unacked forever. */
    method CrashBeforeFinalising(lives: seq<Process>) returns (attached: bool, r: Outcome<()>)
      requires Valid() && ScriptOk(script) && Published() && Stands(script, disk, disk.next, START) && disk.next <= script.events
      modifies this
      ensures Valid() && attached && !r.Done? && disk.next > old(disk.next)
      ensures script.rounds(old(disk.next)) >= 1
      ensures var id := RequestOf(old(disk.next), script.rounds(old(disk.next)) - 1);
              id in disk.relay.rows && disk.relay.rows[id].state != Acked
    {
      Start(CrashedAt(BeforeFinalise));
      var _ := ProcessOneCursor(START);
      ghost var d := disk;
      attached, r := AckHalfApplied();
      LastIsLeftBehind(script, d, disk);
      RunProcesses(lives);
    }

    /** Processes that only die at kill points: whatever the kills, and whether the local state is kept or
        wiped in between, the run reaches cursor n + 1 in the one state that AtEnd describes, unless a
        kill right after a dispatch meets a round that is still to be dispatched. */
    method RunToEnd(n: nat, kills: seq<Kill>) returns (fatal: bool)
      requires Valid() && ScriptOk(script) && Published() && Stands(script, disk, disk.next, START)
      requires 1 <= disk.next <= n + 1 && n <= script.events
      requires forall i :: 0 <= i < |kills| && kills[i].round.Some? ==>
                 kills[i].point in {AfterRequestDispatch, TrustedReturnDurable}
      modifies this
      ensures Valid() && Published()
      ensures !fatal ==> disk.next == n + 1 && Stands(script, disk, n + 1, START)
      ensures fatal ==>
                && Stuck(disk) && disk.next <= n
                && exists i, c :: 0 <= i < |kills| && old(disk.next) <= c <= n && TakesDispatch(kills[i], script.rounds(c))
    {
      var i := 0;
      assert Resumable(script, disk, disk.next);
      while disk.next <= n
        invariant Valid() && Published() && i <= |kills|
        invariant 1 <= disk.next <= n + 1 && old(disk.next) <= disk.next
        invariant Resumable(script, disk, disk.next)
        invariant disk.next == n + 1 ==> Stands(script, disk, disk.next, START)
        decreases n + 1 - disk.next, |kills| - i
      {
        ghost var p :| Stands(script, disk, disk.next, p);
        ghost var c := disk.next;
        var armed := i < |kills|;
        Start(if armed then KilledBy(kills[i]) else Undisturbed());
        var accepted := Attach();
        assert accepted;
        var r := ProcessOneCursor(p);
        if r == Killed(AfterRequestDispatch) {
          assert TakesDispatch(kills[i], script.rounds(c));
          return true;
        }
        if armed {
          if r.Killed? && kills[i].wipe {
            WipeAndMaterialize();
          }
          i := i + 1;
        }
      }
      return false;
    }
  }
}
