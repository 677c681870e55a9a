/** Reopening a run: the owner record, the sealed history, and the agreement of a
    remote-authoritative cache with the commit its marker names. */
module Admission {
  import opened Common
  import GenerationNames
  import G = Generations
  import opened RemoteRef

  datatype Authority = Authority(run: string, session: string, remote: string, ref: string, schema: string)

  datatype Owner = Owner(run: string, session: string, authoritative: bool, authority: Option<Authority>, authoritySha: string)

  /** What a commit carries of a run; the marker and the locks stay local. */
  datatype RunState = RunState(owner: Option<Owner>, store: G.Store, rest: string)

  /** The caller's identity and binding, and the two hash functions. */
  datatype Request = Request(
    run: string, session: string, remote: string, ref: string,
    canonicalRef: string -> string, bindingDigest: Authority -> string, digest: G.Digest)

  const SCHEMA := "c15-remote-authority-v1"

  predicate AuthorityOk(owner: Owner, q: Request)
  {
    owner.authoritative ==>
      && owner.authority.Some?
      && owner.authority.value.schema == SCHEMA
      && owner.authority.value.run == q.run && owner.authority.value.session == q.session
      && owner.authoritySha == q.bindingDigest(owner.authority.value)
  }

  /** RunBackend.open, apart from the lock. */
  function Open(tree: RunState, q: Request): Result<nat>
  {
    match tree.owner
    case None => Refused("refusing to rebuild a lost run")
    case Some(owner) =>
      if owner.run != q.run then Refused("backend run identity mismatch")
      else if owner.session != q.session then Refused("backend session identity mismatch")
      else if !AuthorityOk(owner, q) then Refused("remote authority binding")
      else G.VerifyAll(tree.store, q.digest)
  }

  predicate BindingOk(owner: Owner, q: Request)
  {
    && q.ref == q.canonicalRef(owner.run)
    && (owner.authoritative ==>
          && owner.authority.Some?
          && owner.authority.value.ref == q.ref && owner.authority.value.remote == q.remote)
  }

  /** verify_local_remote_authority */
  predicate MatchesRemote(s: System<RunState>, x: Writer<RunState>, q: Request)
  {
    && x.tree.Some? && x.tree.value.owner.Some? && BindingOk(x.tree.value.owner.value, q)
    && x.marker.Some? && s.ref == x.marker && x.marker.value < |s.commits|
    && x.tree.value.store.head.Some?
    && s.commits[x.marker.value].tree.store.head == x.tree.value.store.head
  }

  /** The part of attach that admits a remote-authoritative cache. */
  predicate Admitted(s: System<RunState>, w: nat, q: Request)
  {
    && Of(s, w).tree.Some? && Open(Of(s, w).tree.value, q).Ok?
    && Of(s, w).tree.value.owner.value.authoritative
    && MatchesRemote(s, Of(s, w), q)
  }

  function Length(tree: RunState, q: Request): Result<nat>
  {
    G.VerifyAll(tree.store, q.digest)
  }

  function LatestFiles(tree: RunState, q: Request): Option<G.Files>
  {
    match Length(tree, q)
    case Ok(n) =>
      var name := GenerationNames.Name(n);
      if n > 0 && name in tree.store.dirs then Some(tree.store.dirs[name]) else None
    case Refused(_) => None
  }

  /** Every tree that is committed was an accepted store at that moment. */
  ghost predicate AcceptedPushes(s: System<RunState>, steps: seq<Step<RunState>>, q: Request)
    decreases |steps|
  {
    steps == [] ||
    (&& (Commits(s, steps[0]) ==> Length(Of(s, steps[0].writer).tree.value, q).Ok?)
     && AcceptedPushes(Next(s, steps[0]), steps[1..], q))
  }

  ghost predicate AllAccepted(commits: seq<Commit<RunState>>, q: Request)
  {
    forall i :: 0 <= i < |commits| ==> Length(commits[i].tree, q).Ok?
  }

  lemma {:induction false} CommitsAccepted(s: System<RunState>, steps: seq<Step<RunState>>, q: Request)
    requires AllAccepted(s.commits, q) && AcceptedPushes(s, steps, q)
    ensures AllAccepted(Run(s, steps).commits, q)
    decreases |steps|
  {
    if steps != [] {
      CommitsAccepted(Next(s, steps[0]), steps[1..], q);
    }
  }

  /** The store did not change, or one generation more was sealed completely. */
  ghost predicate Whole(before: G.Store, after: G.Store, digest: G.Digest)
  {
    after == before || exists p :: SealsOne(before, p, digest) && after == G.Cut(before, p, |p.items| + 6, digest)
  }

  /** The next seal of an accepted store, with files that can all be created. */
  predicate SealsOne(s: G.Store, p: G.Plan, digest: G.Digest)
  {
    && G.VerifyAll(s, digest).Ok? && p.generation == G.VerifyAll(s, digest).value + 1 < GenerationNames.LIMIT
    && G.Creatable(G.AllFiles(p, digest)) == |p.items| + 2
  }

  /** The writers whose store was changed in any other way since they wiped it. */
  ghost function Torn(s: System<RunState>, step: Step<RunState>, torn: set<nat>, q: Request): set<nat>
  {
    var x := Of(s, step.writer);
    match step.action
    case Wipe => torn - {step.writer}
    case Edit(tree) =>
      if x.tree.Some? && Whole(x.tree.value.store, tree.store, q.digest) then torn else torn + {step.writer}
    case _ => torn
  }

  /** How operator processes use their caches: a run is created with an accepted store, and a writer
      whose store is not the product of complete seals commits it only after it was opened and accepted. */
  ghost predicate Disciplined(s: System<RunState>, steps: seq<Step<RunState>>, torn: set<nat>, q: Request)
    decreases |steps|
  {
    steps == [] ||
    (&& (steps[0].action.Create? ==> Length(steps[0].action.tree, q).Ok?)
     && (Commits(s, steps[0]) && steps[0].writer in torn ==> Length(Of(s, steps[0].writer).tree.value, q).Ok?)
     && Disciplined(Next(s, steps[0]), steps[1..], Torn(s, steps[0], torn, q), q))
  }

  ghost predicate UntornAccepted(s: System<RunState>, torn: set<nat>, q: Request)
  {
    forall w :: w !in torn && Of(s, w).tree.Some? ==> Length(Of(s, w).tree.value, q).Ok?
  }

  lemma WholeAccepted(before: G.Store, after: G.Store, digest: G.Digest)
    requires G.VerifyAll(before, digest).Ok? && Whole(before, after, digest)
    ensures G.VerifyAll(after, digest).Ok?
  {
    if after != before {
      var p :| SealsOne(before, p, digest) && after == G.Cut(before, p, |p.items| + 6, digest);
      G.SealAllOrNothing(before, p, G.VerifyAll(before, digest).value, |p.items| + 6, digest);
    }
  }

  lemma UntornStep(s: System<RunState>, step: Step<RunState>, torn: set<nat>, q: Request)
    requires AllAccepted(s.commits, q) && UntornAccepted(s, torn, q)
    requires step.action.Create? ==> Length(step.action.tree, q).Ok?
    ensures UntornAccepted(Next(s, step), Torn(s, step, torn, q), q)
  {
    var t, w := Next(s, step), step.writer;
    forall v | v !in Torn(s, step, torn, q) && Of(t, v).tree.Some? ensures Length(Of(t, v).tree.value, q).Ok? {
      if v == w && step.action.Edit? && Of(s, w).tree.Some? {
        WholeAccepted(Of(s, w).tree.value.store, step.action.change.store, q.digest);
      }
    }
  }

  /** Then every tree that is committed was an accepted store. */
  lemma {:induction false} DisciplineAccepted(s: System<RunState>, steps: seq<Step<RunState>>, torn: set<nat>, q: Request)
    requires AllAccepted(s.commits, q) && UntornAccepted(s, torn, q) && Disciplined(s, steps, torn, q)
    ensures AcceptedPushes(s, steps, q)
    decreases |steps|
  {
    if steps != [] {
      UntornStep(s, steps[0], torn, q);
      DisciplineAccepted(Next(s, steps[0]), steps[1..], Torn(s, steps[0], torn, q), q);
    }
  }

  /** The cache stands at the remote head, with as many generations as that commit and the same latest
      generation, byte for byte. */
  predicate Agrees(s: System<RunState>, x: Writer<RunState>, q: Request)
  {
    && x.tree.Some? && x.marker.Some? && x.marker == s.ref && s.ref.value < |s.commits|
    && Length(x.tree.value, q).Ok?
    && Length(x.tree.value, q) == Length(s.commits[s.ref.value].tree, q)
    && LatestFiles(x.tree.value, q) == LatestFiles(s.commits[s.ref.value].tree, q)
    && LatestFiles(x.tree.value, q).Some?
  }

  /** An admitted cache agrees with the remote head if every tree that was committed was accepted. */
  lemma AdmissionMeansAgreement(steps: seq<Step<RunState>>, w: nat, q: Request)
    requires G.Injective(q.digest) && AcceptedPushes(Initial(), steps, q)
    requires Admitted(Run(Initial(), steps), w, q)
    ensures Agrees(Run(Initial(), steps), Of(Run(Initial(), steps), w), q)
  {
    var s := Run(Initial(), steps);
    CommitsAccepted(Initial(), steps, q);
    SameHeads(Of(s, w).tree.value, s.commits[s.ref.value].tree, q);
  }

  lemma SameHeads(a: RunState, b: RunState, q: Request)
    requires G.Injective(q.digest) && Length(a, q).Ok? && Length(b, q).Ok?
    requires a.store.head.Some? && b.store.head == a.store.head
    ensures Length(a, q) == Length(b, q) && LatestFiles(a, q) == LatestFiles(b, q) && LatestFiles(a, q).Some?
  {
    G.HeadBindsLatest(a.store, b.store, q.digest);
    G.AcceptedHistory(a.store, G.VerifyAll(a.store, q.digest).value, q.digest);
  }

  /** So it does whenever all writers seal completely or reopen before they commit. */
  lemma {:induction false} DisciplineMeansAgreement(steps: seq<Step<RunState>>, w: nat, q: Request)
    requires G.Injective(q.digest) && Disciplined(Initial(), steps, {}, q)
    requires Admitted(Run(Initial(), steps), w, q)
    ensures Agrees(Run(Initial(), steps), Of(Run(Initial(), steps), w), q)
  {
    DisciplineAccepted(Initial(), steps, {}, q);
    AdmissionMeansAgreement(steps, w, q);
  }

  /** A cache whose marker and tree are those of the head is admitted exactly when it opens, has a
      generation and carries the right binding. */
  lemma SettledCacheAdmitted(s: System<RunState>, w: nat, q: Request)
    requires Of(s, w).tree.Some? && Of(s, w).marker.Some? && Of(s, w).marker == s.ref
    requires s.ref.value < |s.commits| && s.commits[s.ref.value].tree == Of(s, w).tree.value
    ensures var tree := Of(s, w).tree.value;
            Admitted(s, w, q) <==>
              && Open(tree, q).Ok? && Open(tree, q).value > 0
              && tree.owner.value.authoritative && BindingOk(tree.owner.value, q)
  {
    var tree := Of(s, w).tree.value;
    if Open(tree, q).Ok? {
      G.AcceptedHistory(tree.store, Open(tree, q).value, q.digest);
    }
  }

  /** A barrier that sealed but never pushed: the cache is ahead of its marker and is refused, at
      once and after anything the other writers do. */
  lemma UnpushedSealRefused(s: System<RunState>, t: System<RunState>, w: nat, p: G.Plan, q: Request)
    requires Admitted(s, w, q) && Extends(s, t) && Of(t, w).marker == Of(s, w).marker && Of(t, w).tree.Some?
    requires p.generation == Length(Of(s, w).tree.value, q).value + 1
    requires Of(t, w).tree.value.store == G.Cut(Of(s, w).tree.value.store, p, |p.items| + 6, q.digest)
    ensures !Admitted(t, w, q)
  {
    var store, n, c := Of(s, w).tree.value.store, Length(Of(s, w).tree.value, q).value, Of(s, w).marker.value;
    G.AdvanceAllowed(store, p, n, q.digest);
    G.CutLast(store, p, q.digest);
    G.AcceptedHistory(store, n, q.digest);
    assert s.commits[c] == t.commits[c];
    assert t.commits[c].tree.store.head == store.head;
  }

  /** A push whose marker write was lost: the ref has moved past the marker, and the cache is refused
      until it is wiped, whatever anybody does. */
  lemma {:induction false} LostMarkerRefused(s: System<RunState>, w: nat, steps: seq<Step<RunState>>, q: Request)
    requires Sound(s) && Lands(s, Step(w, Push))
    requires forall i :: 0 <= i < |steps| && steps[i].writer == w ==> !Renews(steps[i].action)
    ensures !Admitted(Run(Next(s, Step(w, Push)), steps), w, q)
  {
    LandedPushLeavesStale(s, w);
    StaleStays(Next(s, Step(w, Push)), steps, w);
    StaleRefused(Run(Next(s, Step(w, Push)), steps), w, q);
  }

  lemma StaleRefused(s: System<RunState>, w: nat, q: Request)
    requires Stale(s, w)
    ensures !Admitted(s, w, q)
  {
  }
}
