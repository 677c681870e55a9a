/** Several writers over one remote ref: materialization, compare-and-swap pushes, expected-head
    markers and crashes, in any interleaving. Commit ids are positions in the store of commits, so
    no two commits share an id. */
module RemoteRef {
  import opened Common

  /** Base is the commit the committed tree was edited from. */
  datatype Commit<T> = Commit(tree: T, parent: Option<nat>, base: Option<nat>)

  /** Where a writer's process stands in push_run_state or materialize_run_state. */
  datatype Phase =
    | Idle
    | Checked
    | Committed(sha: nat)
    | Pushed(sha: nat)
    | Confirmed(sha: nat)
    | Fetched(sha: nat)
    | Extracted(sha: nat)

  /** A local cache: its tree, the marker file, and the commit the tree comes from. */
  datatype Writer<T> = Writer(tree: Option<T>, marker: Option<nat>, base: Option<nat>, phase: Phase)

  /** History lists every value the ref has held. */
  datatype System<T> = System(commits: seq<Commit<T>>, ref: Option<nat>, history: seq<nat>, writers: map<nat, Writer<T>>)

  datatype Action<T> =
    | Wipe
    | Create(tree: T)
    | Edit(change: T)
    | EarlyRead
    | CommitTree
    | Push
    | Confirm
    | WriteMarker
    | ReadHead
    | Extract
    | MarkMaterialized
    | Crash

  datatype Step<T> = Step(writer: nat, action: Action<T>)

  function Of<T>(s: System<T>, w: nat): Writer<T>
  {
    if w in s.writers then s.writers[w] else Writer(None, None, None, Idle)
  }

  function With<T>(s: System<T>, w: nat, x: Writer<T>): System<T>
  {
    s.(writers := s.writers[w := x])
  }

  /** What a step does to the writer's own cache and process; a step that is not enabled does nothing. */
  function Move<T>(s: System<T>, x: Writer<T>, action: Action<T>): Writer<T>
  {
    match action
    case Wipe => Writer(None, None, None, Idle)
    case Create(tree) => if x.phase != Idle || x.tree.Some? then x else Writer(Some(tree), None, None, Idle)
    case Edit(tree) => if x.phase != Idle || x.tree.None? then x else x.(tree := Some(tree))
    case EarlyRead => if x.phase != Idle || x.tree.None? || s.ref != x.marker then x else x.(phase := Checked)
    case CommitTree => if x.phase != Checked then x else x.(phase := Committed(|s.commits|))
    case Push =>
      if !x.phase.Committed? then x
      else x.(phase := if s.ref == x.marker then Pushed(x.phase.sha) else Idle)
    case Confirm =>
      if !x.phase.Pushed? then x
      else x.(phase := if s.ref == Some(x.phase.sha) then Confirmed(x.phase.sha) else Idle)
    case WriteMarker =>
      if !x.phase.Confirmed? then x else x.(marker := Some(x.phase.sha), base := Some(x.phase.sha), phase := Idle)
    case ReadHead =>
      if x.phase != Idle || x.tree.Some? || s.ref.None? then x else x.(phase := Fetched(s.ref.value))
    case Extract =>
      if !x.phase.Fetched? || x.phase.sha >= |s.commits| then x
      else Writer(Some(s.commits[x.phase.sha].tree), None, Some(x.phase.sha), Extracted(x.phase.sha))
    case MarkMaterialized => if !x.phase.Extracted? then x else x.(marker := Some(x.phase.sha), phase := Idle)
    case Crash => x.(phase := Idle)
  }

  /** The server accepts the push: the ref still has the expected old value. */
  predicate Lands<T>(s: System<T>, step: Step<T>)
  {
    step.action.Push? && Of(s, step.writer).phase.Committed? && s.ref == Of(s, step.writer).marker
  }

  predicate Commits<T>(s: System<T>, step: Step<T>)
  {
    step.action.CommitTree? && Of(s, step.writer).phase.Checked? && Of(s, step.writer).tree.Some?
  }

  /** One atomic step of one writer. */
  function Next<T>(s: System<T>, step: Step<T>): System<T>
  {
    var x := Of(s, step.writer);
    var t :=
      if Commits(s, step) then s.(commits := s.commits + [Commit(x.tree.value, x.marker, x.base)])
      else if Lands(s, step) then s.(ref := Some(x.phase.sha), history := s.history + [x.phase.sha])
      else s;
    With(t, step.writer, Move(s, x, step.action))
  }

  function Run<T>(s: System<T>, steps: seq<Step<T>>): System<T>
    decreases |steps|
  {
    if steps == [] then s else Run(Next(s, steps[0]), steps[1..])
  }

  function Initial<T>(): System<T>
  {
    System([], None, [], map[])
  }

  // ------------------------------------------------------------ what every interleaving keeps

  /** The i-th value of the ref is a commit that was edited from, and is a child of, the one before. */
  ghost predicate Linked<T>(commits: seq<Commit<T>>, history: seq<nat>, i: nat)
    requires i < |history|
  {
    && history[i] < |commits|
    && (i == 0 ==> commits[history[i]].parent == commits[history[i]].base == None)
    && (i > 0 ==> history[i - 1] < history[i]
                  && commits[history[i]].parent == commits[history[i]].base == Some(history[i - 1]))
  }

  ghost predicate Chained<T>(commits: seq<Commit<T>>, history: seq<nat>)
  {
    && (forall i :: 0 <= i < |history| ==> Linked(commits, history, i))
    && (forall i, j :: 0 <= i < j < |history| ==> history[i] < history[j])
  }

  /** The values of the ref form one parent chain that ends in the present value. */
  ghost predicate OneChain<T>(s: System<T>)
  {
    && Chained(s.commits, s.history)
    && s.ref == (if s.history == [] then None else Some(s.history[|s.history| - 1]))
  }

  /** What is known of one writer. A cache without marker that came from a commit implies a ref. */
  ghost predicate WriterOk<T>(s: System<T>, x: Writer<T>)
  {
    && (x.marker.Some? ==> x.marker.value in s.history && x.base == x.marker)
    && (x.base.Some? ==> s.history != [])
    && (x.tree.None? ==> x.marker.None? && x.base.None? && (x.phase.Idle? || x.phase.Fetched?))
    && match x.phase
       case Committed(sha) =>
         && sha < |s.commits| && s.commits[sha].parent == x.marker && s.commits[sha].base == x.base
         && sha !in s.history
         && (x.marker.Some? ==> x.marker.value < sha)
         && x.tree == Some(s.commits[sha].tree)
       case Pushed(sha) => sha in s.history
       case Confirmed(sha) => sha in s.history
       case Fetched(sha) => sha in s.history && x.tree.None?
       case Extracted(sha) => sha in s.history && x.base == Some(sha) && x.marker.None?
       case Idle => true
       case Checked => true
  }

  /** No two writers are about to push the same commit. */
  ghost predicate OwnCommits<T>(s: System<T>)
  {
    forall v, w :: v in s.writers && w in s.writers && v != w ==>
      !(s.writers[v].phase.Committed? && s.writers[w].phase.Committed? && s.writers[v].phase.sha == s.writers[w].phase.sha)
  }

  ghost predicate Sound<T>(s: System<T>)
  {
    OneChain(s) && OwnCommits(s) && forall w :: w in s.writers ==> WriterOk(s, s.writers[w])
  }

  lemma MoveOk<T>(s: System<T>, x: Writer<T>, action: Action<T>)
    requires OneChain(s) && WriterOk(s, x) && !(action.CommitTree? && x.phase.Checked?)
    requires !(action.Push? && x.phase.Committed? && s.ref == x.marker)
    ensures WriterOk(s, Move(s, x, action))
    ensures Move(s, x, action).phase.Committed? ==> Move(s, x, action).phase == x.phase
  {
  }

  lemma LocalStepSound<T>(s: System<T>, w: nat, x: Writer<T>)
    requires Sound(s) && WriterOk(s, x)
    requires x.phase.Committed? ==> Of(s, w).phase == x.phase
    ensures Sound(With(s, w, x))
  {
  }

  lemma ChainGrows<T>(commits: seq<Commit<T>>, more: seq<Commit<T>>, history: seq<nat>)
    requires Chained(commits, history) && commits <= more
    ensures Chained(more, history)
  {
    forall i | 0 <= i < |history| ensures Linked(more, history, i) {
      assert Linked(commits, history, i);
    }
  }

  lemma HistoryCommitted<T>(s: System<T>)
    requires OneChain(s)
    ensures forall sha :: sha in s.history ==> sha < |s.commits|
  {
    forall i | 0 <= i < |s.history| ensures s.history[i] < |s.commits| {
      assert Linked(s.commits, s.history, i);
    }
  }

  lemma CommitSound<T>(s: System<T>, w: nat)
    requires Sound(s) && Commits(s, Step(w, CommitTree))
    ensures Sound(Next(s, Step(w, CommitTree)))
  {
    var x, t := Of(s, w), Next(s, Step(w, CommitTree));
    assert WriterOk(s, x);
    ChainGrows(s.commits, t.commits, s.history);
    HistoryCommitted(s);
    forall v | v in t.writers ensures WriterOk(t, t.writers[v]) {
      if v != w {
        assert WriterOk(s, s.writers[v]);
      }
    }
  }

  lemma PushSound<T>(s: System<T>, w: nat)
    requires Sound(s) && Lands(s, Step(w, Push))
    ensures Sound(Next(s, Step(w, Push)))
  {
    var x, t := Of(s, w), Next(s, Step(w, Push));
    assert WriterOk(s, x);
    PushChain(s, t, x);
    forall v | v in t.writers ensures WriterOk(t, t.writers[v]) {
      PushOther(s, t, w, v);
    }
  }

  /** An accepted push: the new head's parent, the replaced head and the pushed tree's origin agree. */
  lemma PushChain<T>(s: System<T>, t: System<T>, x: Writer<T>)
    requires OneChain(s) && WriterOk(s, x) && x.phase.Committed? && s.ref == x.marker
    requires t.commits == s.commits && t.history == s.history + [x.phase.sha] && t.ref == Some(x.phase.sha)
    ensures OneChain(t)
  {
    var sha, n := x.phase.sha, |s.history|;
    if n > 0 {
      assert x.marker == Some(s.history[n - 1]);
    }
    forall i | 0 <= i < |t.history| ensures Linked(t.commits, t.history, i) {
      if i < n {
        assert Linked(s.commits, s.history, i);
        assert t.history[i] == s.history[i] && (i > 0 ==> t.history[i - 1] == s.history[i - 1]);
      }
    }
  }

  lemma PushOther<T>(s: System<T>, t: System<T>, w: nat, v: nat)
    requires Sound(s) && Lands(s, Step(w, Push))
    requires t == Next(s, Step(w, Push)) && v in t.writers
    ensures WriterOk(t, t.writers[v])
  {
    var sha := Of(s, w).phase.sha;
    assert WriterOk(s, Of(s, w));
    assert t.history[|s.history|] == sha;
    assert forall c :: c in s.history ==> c in t.history;
    if v != w {
      assert WriterOk(s, s.writers[v]);
    }
  }

  lemma StepSound<T>(s: System<T>, step: Step<T>)
    requires Sound(s)
    ensures Sound(Next(s, step))
  {
    var w, x := step.writer, Of(s, step.writer);
    assert WriterOk(s, x);
    if Commits(s, step) {
      CommitSound(s, w);
    } else if Lands(s, step) {
      PushSound(s, w);
    } else {
      MoveOk(s, x, step.action);
      LocalStepSound(s, w, Move(s, x, step.action));
    }
  }

  lemma {:induction false} RunSound<T>(s: System<T>, steps: seq<Step<T>>)
    requires Sound(s)
    ensures Sound(Run(s, steps))
    decreases |steps|
  {
    if steps != [] {
      StepSound(s, steps[0]);
      RunSound(Next(s, steps[0]), steps[1..]);
    }
  }

  // ------------------------------------------------------------ no lost update

  /** a is b or one of its ancestors. */
  ghost predicate Ancestor<T>(commits: seq<Commit<T>>, a: nat, b: nat)
  {
    a == b || (b < |commits| && match commits[b].parent
                                case Some(p) => p < b && Ancestor(commits, a, p)
                                case None => false)
  }

  lemma {:induction false} EarlierIsAncestor<T>(s: System<T>, i: nat, j: nat)
    requires OneChain(s) && i <= j < |s.history|
    ensures Ancestor(s.commits, s.history[i], s.history[j])
  {
    if i < j {
      assert Linked(s.commits, s.history, j);
      EarlierIsAncestor(s, i, j - 1);
    }
  }

  /** In every run: the ref's values form one parent chain in which every commit was edited from the
      one it replaced, and every marker is an ancestor of the head or the head itself. */
  lemma NoLostUpdate<T>(steps: seq<Step<T>>)
    ensures var s: System<T> := Run(Initial(), steps);
            && OneChain(s)
            && forall w :: w in s.writers && s.writers[w].marker.Some? ==>
                 s.ref.Some? && Ancestor(s.commits, s.writers[w].marker.value, s.ref.value)
  {
    assert Sound(Initial<T>());
    RunSound(Initial(), steps);
    var s: System<T> := Run(Initial(), steps);
    forall w | w in s.writers && s.writers[w].marker.Some?
      ensures s.ref.Some? && Ancestor(s.commits, s.writers[w].marker.value, s.ref.value)
    {
      assert WriterOk(s, s.writers[w]);
      var i :| 0 <= i < |s.history| && s.history[i] == s.writers[w].marker.value;
      EarlierIsAncestor(s, i, |s.history| - 1);
    }
  }

  /** A step moves the ref only by a push, and then to a child of the value it replaces. */
  lemma RefMovesToChild<T>(s: System<T>, step: Step<T>)
    requires Sound(s) && Next(s, step).ref != s.ref
    ensures step.action == Push
    ensures Next(s, step).ref.Some? && Next(s, step).ref.value < |s.commits|
    ensures s.commits[Next(s, step).ref.value].parent == s.ref
    ensures s.commits[Next(s, step).ref.value].base == s.ref
    ensures Of(s, step.writer).tree == Some(s.commits[Next(s, step).ref.value].tree)
  {
    var x := Of(s, step.writer);
    assert WriterOk(s, x);
  }

  // ------------------------------------------------------------ a stale cache stays stale

  predicate Stale<T>(s: System<T>, w: nat)
  {
    Of(s, w).tree.Some? && s.ref.Some? && s.ref != Of(s, w).marker
  }

  /** The steps that give a writer a new cache or a new marker. */
  predicate Renews<T>(action: Action<T>)
  {
    action.Wipe? || action.WriteMarker? || action.MarkMaterialized?
  }

  /** The ref never returns to an earlier value: once a cache is behind it stays behind, whatever
      the others do, until it is wiped or its own push is confirmed. */
  lemma {:induction false} StaleStays<T>(s: System<T>, steps: seq<Step<T>>, w: nat)
    requires Sound(s) && Stale(s, w)
    requires forall i :: 0 <= i < |steps| && steps[i].writer == w ==> !Renews(steps[i].action)
    ensures Stale(Run(s, steps), w)
    decreases |steps|
  {
    if steps != [] {
      var t := Next(s, steps[0]);
      StepSound(s, steps[0]);
      StaleStep(s, steps[0], w);
      StaleStays(t, steps[1..], w);
    }
  }

  /** A push never lands on a value the ref has had before. */
  lemma NewHeadIsNew<T>(s: System<T>, step: Step<T>)
    requires Sound(s)
    ensures Next(s, step).ref == s.ref ||
            (Next(s, step).ref.Some? && Next(s, step).ref.value !in s.history)
  {
    var x := Of(s, step.writer);
    assert WriterOk(s, x);
  }

  lemma StaleStep<T>(s: System<T>, step: Step<T>, w: nat)
    requires Sound(s) && Stale(s, w)
    requires step.writer == w ==> !Renews(step.action)
    ensures Stale(Next(s, step), w)
  {
    NewHeadIsNew(s, step);
    var x := Of(s, w);
    assert WriterOk(s, x);
    assert Of(Next(s, step), w).marker == x.marker;
  }

  /** A push that landed leaves its own writer behind the ref until the marker is written. */
  lemma LandedPushLeavesStale<T>(s: System<T>, w: nat)
    requires Sound(s) && Lands(s, Step(w, Push))
    ensures Sound(Next(s, Step(w, Push))) && Stale(Next(s, Step(w, Push)), w)
  {
    StepSound(s, Step(w, Push));
    assert WriterOk(s, Of(s, w));
  }

  // ------------------------------------------------------------ the two procedures

  ghost predicate Others<T>(steps: seq<Step<T>>, w: nat)
  {
    forall i :: 0 <= i < |steps| ==> steps[i].writer != w
  }

  /** Commits are never lost, and the ref's past never changes. */
  ghost predicate Extends<T>(s: System<T>, t: System<T>)
  {
    s.commits <= t.commits && s.history <= t.history
  }

  lemma {:induction false} OthersLeave<T>(s: System<T>, steps: seq<Step<T>>, w: nat)
    requires Others(steps, w) && w in s.writers
    ensures w in Run(s, steps).writers && Run(s, steps).writers[w] == s.writers[w]
    ensures Extends(s, Run(s, steps))
    decreases |steps|
  {
    if steps != [] {
      OthersLeave(Next(s, steps[0]), steps[1..], w);
    }
  }

  lemma {:induction false} RunAppend<T>(s: System<T>, a: seq<Step<T>>, b: seq<Step<T>>)
    ensures Run(s, a + b) == Run(Run(s, a), b)
    decreases |a|
  {
    if a == [] {
      assert a + b == b;
    } else {
      assert (a + b)[1..] == a[1..] + b;
      RunAppend(Next(s, a[0]), a[1..], b);
    }
  }

  lemma RunOne<T>(s: System<T>, step: Step<T>)
    ensures Run(s, [step]) == Next(s, step)
  {
    assert [step][1..] == [];
    assert Run(Next(s, step), []) == Next(s, step);
  }

  /** A push that went through all its steps, seen from its end. */
  lemma CommitMade<T>(m: System<T>, w: nat)
    requires w in m.writers && m.writers[w].phase == Checked && m.writers[w].tree.Some?
    ensures var x, t := m.writers[w], Next(m, Step(w, CommitTree));
            && t.history == m.history && t.commits == m.commits + [Commit(x.tree.value, x.marker, x.base)]
            && t.writers[w] == x.(phase := Committed(|m.commits|))
  {
  }

  lemma PushTried<T>(m: System<T>, w: nat)
    requires w in m.writers && m.writers[w].phase.Committed?
    ensures var x, t := m.writers[w], Next(m, Step(w, Push));
            && t.commits == m.commits
            && (m.ref == x.marker ==> t.writers[w] == x.(phase := Pushed(x.phase.sha))
                                      && t.history == m.history + [x.phase.sha])
            && (m.ref != x.marker ==> t.writers[w] == x.(phase := Idle) && t.history == m.history)
  {
  }

  /** The shared repository and the caches of all writers. The gaps are the steps that other
      writers make between two steps of the running procedure. */
  class Remote<T> {
    var commits: seq<Commit<T>>
    var ref: Option<nat>
    ghost var history: seq<nat>
    var writers: map<nat, Writer<T>>

    ghost function Contents(): System<T>
      reads this
    {
      System(commits, ref, history, writers)
    }

    constructor ()
      ensures Contents() == Initial()
    {
      commits, ref, history, writers := [], None, [], map[];
    }

    method Act(w: nat, action: Action<T>)
      modifies this
      ensures Contents() == Next(old(Contents()), Step(w, action))
    {
      var x := if w in writers then writers[w] else Writer(None, None, None, Idle);
      var moved := Move(System(commits, ref, [], writers), x, action);
      if action.CommitTree? && x.phase.Checked? && x.tree.Some? {
        commits := commits + [Commit(x.tree.value, x.marker, x.base)];
      } else if action.Push? && x.phase.Committed? && ref == x.marker {
        ref := Some(x.phase.sha);
        history := history + [x.phase.sha];
      }
      writers := writers[w := moved];
    }

    /** The others' steps in the gap, then one step of the writer itself; m is the state it acts on. */
    method Take(w: nat, gap: seq<Step<T>>, action: Action<T>, ghost done: seq<Step<T>>, ghost s: System<T>)
      returns (ghost m: System<T>, ghost trace: seq<Step<T>>)
      requires w in writers && Others(gap, w) && Contents() == Run(s, done)
      modifies this
      ensures trace == done + gap + [Step(w, action)] && Contents() == Run(s, trace)
      ensures m == Run(s, done + gap) && w in m.writers && m.writers[w] == old(writers[w])
      ensures Extends(old(Contents()), m) && Contents() == Next(m, Step(w, action))
      ensures w in writers && writers[w] == Move(m, old(writers[w]), action)
      ensures Extends(old(Contents()), Contents())
    {
      ghost var start := Contents();
      for i := 0 to |gap|
        invariant Run(start, gap) == Run(Contents(), gap[i..])
      {
        assert gap[i..][1..] == gap[i + 1..];
        Act(gap[i].writer, gap[i].action);
      }
      OthersLeave(start, gap, w);
      RunAppend(s, done, gap);
      m, trace := Contents(), done + gap + [Step(w, action)];
      RunAppend(s, done + gap, [Step(w, action)]);
      RunOne(m, Step(w, action));
      Act(w, action);
    }

    /** push_run_state. Whatever the other writers do in between, success means that the pushed tree
        became a child of the marker it was edited from and that the marker names it; failure leaves
        the cache as it was. */
    method PushRunState(w: nat, gaps: seq<seq<Step<T>>>) returns (r: Result<nat>, ghost trace: seq<Step<T>>)
      requires w in writers && writers[w].phase == Idle && writers[w].tree.Some?
      requires |gaps| == 4 && forall i :: 0 <= i < 4 ==> Others(gaps[i], w)
      modifies this
      ensures Contents() == Run(old(Contents()), trace) && Extends(old(Contents()), Contents())
      ensures w in writers && writers[w].phase == Idle && writers[w].tree == old(writers[w].tree)
      ensures r.Ok? ==> old(ref == writers[w].marker) && writers[w].marker == Some(r.value)
      ensures r.Ok? ==> r.value in history && |old(commits)| <= r.value < |commits|
      ensures r.Ok? ==> commits[r.value] == Commit(old(writers[w].tree.value), old(writers[w].marker), old(writers[w].base))
      ensures r.Refused? ==> writers[w] == old(writers[w])
    {
      ghost var s := Contents();
      if ref != writers[w].marker {
        return Refused("remote CAS conflict"), [];
      }
      ghost var m;
      m, trace := Take(w, [], EarlyRead, [], s);
      m, trace := Take(w, gaps[0], CommitTree, trace, s);
      CommitMade(m, w);
      var sha := writers[w].phase.sha;
      ghost var made := Contents();
      m, trace := Take(w, gaps[1], Push, trace, s);
      PushTried(m, w);
      if writers[w].phase == Idle {
        return Refused("remote atomic CAS/lease rejected persistence update"), trace;
      }
      assert made.commits[sha] == commits[sha] && history[|history| - 1] == sha;
      r, trace := Settle(w, gaps[2..], trace, s);
    }

    /** The check after the push, and the marker. */
    method Settle(w: nat, gaps: seq<seq<Step<T>>>, ghost done: seq<Step<T>>, ghost s: System<T>)
      returns (r: Result<nat>, ghost trace: seq<Step<T>>)
      requires w in writers && writers[w].phase.Pushed? && Contents() == Run(s, done)
      requires |gaps| == 2 && Others(gaps[0], w) && Others(gaps[1], w)
      modifies this
      ensures Contents() == Run(s, trace) && Extends(old(Contents()), Contents())
      ensures w in writers
      ensures r.Refused? ==> writers[w] == old(writers[w].(phase := Idle))
      ensures var sha := old(writers[w].phase.sha);
              r.Ok? ==> r.value == sha && writers[w] == old(writers[w].(marker := Some(sha), base := Some(sha), phase := Idle))
    {
      var sha := writers[w].phase.sha;
      ghost var m;
      m, trace := Take(w, gaps[0], Confirm, done, s);
      if writers[w].phase == Idle {
        return Refused("remote ref does not point to pushed commit"), trace;
      }
      m, trace := Take(w, gaps[1], WriteMarker, trace, s);
      return Ok(sha), trace;
    }

    /** materialize_run_state into an empty directory. Success means the cache holds exactly the tree
        of the commit the ref had at the start, and its marker names that commit. */
    method MaterializeRunState(w: nat, pinned: Option<nat>, admits: T -> bool, gaps: seq<seq<Step<T>>>)
      returns (r: Result<nat>, ghost trace: seq<Step<T>>)
      requires w in writers && writers[w].phase == Idle
      requires |gaps| == 2 && forall i :: 0 <= i < 2 ==> Others(gaps[i], w)
      modifies this
      ensures Contents() == Run(old(Contents()), trace) && Extends(old(Contents()), Contents())
      ensures r.Ok? ==> old(ref) == Some(r.value) && (pinned.Some? ==> pinned == Some(r.value))
      ensures r.Ok? ==> r.value < |commits| && admits(commits[r.value].tree)
      ensures r.Ok? ==> w in writers && writers[w] == Writer(Some(commits[r.value].tree), Some(r.value), Some(r.value), Idle)
      ensures old(ref.None? || writers[w].tree.Some? || (pinned.Some? && pinned != ref)) ==>
                r.Refused? && Contents() == old(Contents())
    {
      ghost var s := Contents();
      if ref.None? || (pinned.Some? && pinned != ref) {
        return Refused("remote ref not found or not at the pinned commit"), [];
      }
      if writers[w].tree.Some? {
        return Refused("target directory is not empty; materialization never overwrites"), [];
      }
      var sha := ref.value;
      ghost var m;
      m, trace := Take(w, [], ReadHead, [], s);
      m, trace := Take(w, gaps[0], Extract, trace, s);
      if writers[w].tree.None? {
        return Refused("failed to extract git archive into target directory"), trace;
      }
      r, trace := Admit(w, admits, gaps[1], trace, s);
    }

    /** Reopening the extracted run, and the marker. */
    method Admit(w: nat, admits: T -> bool, gap: seq<Step<T>>, ghost done: seq<Step<T>>, ghost s: System<T>)
      returns (r: Result<nat>, ghost trace: seq<Step<T>>)
      requires w in writers && writers[w].phase.Extracted? && writers[w].tree.Some?
      requires Others(gap, w) && Contents() == Run(s, done)
      modifies this
      ensures Contents() == Run(s, trace) && Extends(old(Contents()), Contents()) && w in writers
      ensures var sha := old(writers[w].phase.sha);
              r.Ok? ==> r.value == sha && admits(old(writers[w].tree.value))
                        && writers[w] == old(writers[w]).(marker := Some(sha), phase := Idle)
    {
      var sha := writers[w].phase.sha;
      ghost var m;
      if !admits(writers[w].tree.value) {
        m, trace := Take(w, [], Crash, done, s);
        return Refused("the extracted run is not admitted"), trace;
      }
      m, trace := Take(w, gap, MarkMaterialized, done, s);
      return Ok(sha), trace;
    }
  }
}
