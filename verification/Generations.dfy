/** Sealed generations, the hash-chained head and the generation ledger, and what admission
    accepts after a seal was cut short. */
module Generations {
  import opened Common
  import opened GenerationNames

  /** The contents of a file, or a document that is hashed. Distinct documents are distinct bytes. */
  datatype Blob =
    | Raw(bytes: string)
    | ManifestJson(generation: int, title: string, artifacts: map<string, string>, manifestSha: string)
    | SealText(number: int)
    | HeadJson(head: int, version: string, manifestFileSha: string, previous: Option<string>, headSha: string)
    | Listing(shas: map<string, string>)
    | HeadBase(base: int, manifestOf: string, previousOf: Option<string>)

  type Digest = Blob -> string

  type Files = map<string, Blob>

  /** The generation row of the journal's ledger. */
  datatype Ledger = NoRow | Number(value: int) | NotANumber

  /** The generations directory, the head file with its temporary, and the journal if there is one. */
  datatype Store = Store(dirs: map<string, Files>, head: Option<Blob>, headTmp: Option<Blob>, journal: Option<Ledger>)

  const MANIFEST := "manifest.json"
  const SEAL := ".sealed"
  const VERSION := "c15-generation-head-v1"

  // ------------------------------------------------------------ verification

  /** verify: the exact byte set of one sealed generation. */
  predicate Intact(dir: Files, g: int, digest: Digest)
  {
    && SEAL in dir && dir[SEAL] == SealText(g)
    && MANIFEST in dir && dir[MANIFEST].ManifestJson?
    && var m := dir[MANIFEST];
       && m.generation == g
       && m.manifestSha == digest(Listing(m.artifacts))
       && dir.Keys == m.artifacts.Keys + {MANIFEST, SEAL}
       && forall name :: name in m.artifacts ==> digest(dir[name]) == m.artifacts[name]
  }

  function ReadHead(head: Option<Blob>, digest: Digest): (r: Result<Option<Blob>>)
    ensures r.Ok? && r.value.Some? ==> r.value.value.HeadJson?
    ensures r.Ok? ==> r.value == head
  {
    match head
    case None => Ok(None)
    case Some(h) =>
      if !h.HeadJson? || h.version != VERSION then Refused("generation head has unexpected fields")
      else if h.headSha != digest(HeadBase(h.head, h.manifestFileSha, h.previous)) then
        Refused("generation head digest mismatch")
      else Ok(Some(h))
  }

  function GlobbedNames(dirs: map<string, Files>): set<string>
  {
    set name | name in dirs && Globbed(name)
  }

  /** The ledger's expectation; absent without a journal or without a row. */
  function Expected(journal: Option<Ledger>): Result<Option<int>>
  {
    match journal
    case None => Ok(None)
    case Some(NoRow) => Ok(None)
    case Some(NotANumber) => Refused("generation ledger is not an integer")
    case Some(Number(n)) => if n < 0 then Refused("generation ledger is negative") else Ok(Some(n))
  }

  predicate LatestBound(dirs: map<string, Files>, h: Blob, digest: Digest)
    requires h.HeadJson? && h.head >= 1
  {
    && Name(h.head) in dirs && MANIFEST in dirs[Name(h.head)]
    && digest(dirs[Name(h.head)][MANIFEST]) == h.manifestFileSha
  }

  predicate AllIntact(dirs: map<string, Files>, n: int, digest: Digest)
  {
    forall g: nat :: 1 <= g <= n ==> Name(g) in dirs && Intact(dirs[Name(g)], g, digest)
  }

  /** The history bounded by the head: the number of generations, all other things refused. */
  function History(s: Store, digest: Digest): Result<nat>
  {
    match ReadHead(s.head, digest)
    case Refused(reason) => Refused(reason)
    case Ok(None) => if GlobbedNames(s.dirs) == {} then Ok(0) else Refused("generation history head is missing")
    case Ok(Some(h)) =>
      if GlobbedNames(s.dirs) == {} then Refused("generation history head exists without generations")
      else if h.head < 1 || GlobbedNames(s.dirs) != Names(h.head) then Refused("chain does not match history head")
      else if !LatestBound(s.dirs, h, digest) then Refused("head does not bind the latest manifest")
      else Ok(h.head as nat)
  }

  predicate LedgerAgrees(journal: Option<Ledger>, n: nat)
  {
    && Expected(journal).Ok?
    && (n > 0 && journal.Some? ==> Expected(journal).value.Some?)
    && (Expected(journal).value.Some? ==> Expected(journal).value.value == n)
  }

  /** verify_all: the length of the accepted history 1..n, or a refusal. */
  function VerifyAll(s: Store, digest: Digest): Result<nat>
  {
    match History(s, digest)
    case Refused(reason) => Refused(reason)
    case Ok(n) =>
      if !LedgerAgrees(s.journal, n) then Refused("mutable generation ledger disagrees with history head")
      else if !AllIntact(s.dirs, n, digest) then Refused("generation corruption")
      else Ok(n)
  }

  lemma OneMoreIntact(dirs: map<string, Files>, g: nat, digest: Digest)
    requires g >= 1 && AllIntact(dirs, g - 1, digest)
    ensures Name(g) in dirs && Intact(dirs[Name(g)], g, digest) ==> AllIntact(dirs, g, digest)
  {
  }

  lemma BrokenRefuses(dirs: map<string, Files>, g: nat, n: nat, digest: Digest)
    requires 1 <= g <= n && (Name(g) !in dirs || !Intact(dirs[Name(g)], g, digest))
    ensures !AllIntact(dirs, n, digest)
  {
  }

  ghost predicate Injective(digest: Digest)
  {
    forall a, b :: digest(a) == digest(b) ==> a == b
  }

  /** With the manifest given, verify accepts the original files and nothing else. */
  lemma OnlyOriginalIsIntact(original: Files, dir: Files, g: int, digest: Digest)
    requires Injective(digest) && Intact(original, g, digest)
    requires MANIFEST in dir && dir[MANIFEST] == original[MANIFEST]
    ensures Intact(dir, g, digest) <==> dir == original
  {
    if Intact(dir, g, digest) {
      var m := original[MANIFEST];
      forall name | name in dir ensures name in original && dir[name] == original[name] {
        if name in m.artifacts {
          assert digest(dir[name]) == digest(original[name]);
        }
      }
      assert dir.Keys == original.Keys;
    }
  }

  /** Two accepted stores with the same head have the same length and the same latest generation. */
  lemma HeadBindsLatest(s: Store, t: Store, digest: Digest)
    requires Injective(digest) && VerifyAll(s, digest).Ok? && VerifyAll(t, digest).Ok? && s.head == t.head
    ensures VerifyAll(s, digest) == VerifyAll(t, digest)
    ensures var n := VerifyAll(s, digest).value;
            n > 0 ==> Name(n) in s.dirs && Name(n) in t.dirs && s.dirs[Name(n)] == t.dirs[Name(n)]
  {
    if s.head.Some? {
      var n := s.head.value.head;
      var a, b := s.dirs[Name(n)], t.dirs[Name(n)];
      assert digest(a[MANIFEST]) == digest(b[MANIFEST]);
      assert Intact(a, n, digest) && Intact(b, n, digest);
      OnlyOriginalIsIntact(a, b, n, digest);
    }
  }

  // ------------------------------------------------------------ sealing

  /** One call of seal: the artifacts in their given order. */
  datatype Plan = Plan(generation: nat, title: string, items: seq<(string, Blob)>)

  function Shas(items: seq<(string, Blob)>, digest: Digest): map<string, string>
  {
    if items == [] then map[]
    else var last := items[|items| - 1]; Shas(items[..|items| - 1], digest)[last.0 := digest(last.1)]
  }

  function ToFiles(items: seq<(string, Blob)>): Files
  {
    if items == [] then map[]
    else var last := items[|items| - 1]; ToFiles(items[..|items| - 1])[last.0 := last.1]
  }

  function ManifestOf(p: Plan, digest: Digest): Blob
  {
    var shas := Shas(p.items, digest);
    ManifestJson(p.generation, p.title, shas, digest(Listing(shas)))
  }

  /** Every file a generation is built from, in the order of writing. */
  function AllFiles(p: Plan, digest: Digest): (r: seq<(string, Blob)>)
    ensures |r| == |p.items| + 2
  {
    p.items + [(MANIFEST, ManifestOf(p, digest)), (SEAL, SealText(p.generation))]
  }

  /** Creating the file fails: it exists, it is the directory itself, or a path needs a file as a directory. */
  predicate Blocked(dir: Files, name: string)
  {
    name == "." || name in dir || exists other :: other in dir && (other + "/" <= name || name + "/" <= other)
  }

  /** The number of files that can be created one after the other. */
  function Creatable(files: seq<(string, Blob)>): (k: nat)
    ensures k <= |files|
  {
    if files == [] then 0
    else
      var front, last := files[..|files| - 1], files[|files| - 1];
      if Creatable(front) == |front| && !Blocked(ToFiles(front), last.0) then |files| else Creatable(front)
  }

  /** The head that follows the present one; only a contiguous advance is allowed. */
  function NextHead(s: Store, p: Plan, digest: Digest): Result<Blob>
  {
    match ReadHead(s.head, digest)
    case Refused(reason) => Refused(reason)
    case Ok(previous) =>
      if previous.None? && p.generation != 1 then Refused("first generation head must be generation 1")
      else if previous.Some? && previous.value.head != p.generation - 1 then Refused("advancement is not contiguous")
      else
        var sha := digest(ManifestOf(p, digest));
        var prior := if previous.None? then None else Some(previous.value.headSha);
        Ok(HeadJson(p.generation, VERSION, sha, prior, digest(HeadBase(p.generation, sha, prior))))
  }

  /** The k-th durable write of a seal: the directory, one more file of it, the temporary head,
      the head in place, the ledger row. */
  function Write(t: Store, p: Plan, k: nat, digest: Digest): Store
    requires k >= 1
  {
    var n := |p.items|;
    if k <= n + 3 then t.(dirs := t.dirs[Name(p.generation) := ToFiles(AllFiles(p, digest)[..k - 1])])
    else if k == n + 4 then
      match NextHead(t, p, digest)
      case Ok(next) => t.(headTmp := Some(next))
      case Refused(_) => t
    else if k == n + 5 then if t.headTmp.Some? then t.(head := t.headTmp, headTmp := None) else t
    else if t.journal.Some? then t.(journal := Some(Number(p.generation)))
    else t
  }

  /** The store after the first k durable writes of a seal. */
  function Cut(s: Store, p: Plan, k: nat, digest: Digest): Store
  {
    if k == 0 then s else Write(Cut(s, p, k - 1, digest), p, k, digest)
  }

  /** How many writes succeed when nobody is killed. */
  function Reach(s: Store, p: Plan, digest: Digest): nat
  {
    var n := |p.items|;
    if Creatable(AllFiles(p, digest)) < n + 2 then 1 + Creatable(AllFiles(p, digest))
    else if NextHead(s, p, digest).Refused? || s.headTmp.Some? then n + 3
    else n + 5
  }

  lemma {:induction false} CreatableKeys(items: seq<(string, Blob)>, digest: Digest)
    requires Creatable(items) == |items|
    ensures ToFiles(items).Keys == Shas(items, digest).Keys
    ensures forall name :: name in Shas(items, digest) ==> digest(ToFiles(items)[name]) == Shas(items, digest)[name]
  {
    if items != [] {
      CreatableKeys(items[..|items| - 1], digest);
    }
  }

  lemma CreatableFront(files: seq<(string, Blob)>, last: (string, Blob))
    requires Creatable(files + [last]) == |files| + 1
    ensures Creatable(files) == |files| && !Blocked(ToFiles(files), last.0)
    ensures ToFiles(files + [last]) == ToFiles(files)[last.0 := last.1]
  {
    assert (files + [last])[..|files|] == files;
  }

  /** A directory whose files could all be created verifies. */
  lemma BuiltIsIntact(p: Plan, digest: Digest)
    requires Creatable(AllFiles(p, digest)) == |p.items| + 2
    ensures Intact(ToFiles(AllFiles(p, digest)), p.generation, digest)
    ensures ToFiles(AllFiles(p, digest))[MANIFEST] == ManifestOf(p, digest)
  {
    var manifest, seal := (MANIFEST, ManifestOf(p, digest)), (SEAL, SealText(p.generation));
    assert AllFiles(p, digest) == p.items + [manifest] + [seal];
    CreatableFront(p.items + [manifest], seal);
    CreatableFront(p.items, manifest);
    CreatableKeys(p.items, digest);
    assert MANIFEST != SEAL;
  }

  lemma NamesAfter(s: Store, n: nat, dir: Files)
    requires n + 1 < LIMIT && GlobbedNames(s.dirs) == Names(n)
    ensures GlobbedNames(s.dirs[Name(n + 1) := dir]) == Names(n + 1)
    ensures Names(n + 1) != Names(n) && Names(n + 1) != {}
  {
    NamesMembers(n, Name(n + 1));
    GlobbedAdd(s.dirs, Name(n + 1), dir);
  }

  lemma GlobbedAdd(dirs: map<string, Files>, name: string, dir: Files)
    requires Globbed(name)
    ensures GlobbedNames(dirs[name := dir]) == GlobbedNames(dirs) + {name}
  {
  }

  lemma AcceptedHistory(s: Store, n: nat, digest: Digest)
    requires VerifyAll(s, digest) == Ok(n)
    ensures GlobbedNames(s.dirs) == Names(n) && AllIntact(s.dirs, n, digest)
    ensures n == 0 <==> s.head.None?
    ensures n > 0 ==> s.head.value.HeadJson? && s.head.value.head == n && ReadHead(s.head, digest) == Ok(s.head)
    ensures n < LIMIT
  {
    if n > 0 {
      assert Name(n) in Names(n);
      assert Name(n) in GlobbedNames(s.dirs);
    }
  }

  lemma AdvanceAllowed(s: Store, p: Plan, n: nat, digest: Digest)
    requires VerifyAll(s, digest) == Ok(n) && p.generation == n + 1
    ensures NextHead(s, p, digest).Ok?
    ensures ReadHead(Some(NextHead(s, p, digest).value), digest).Ok?
    ensures NextHead(s, p, digest).value.HeadJson? && NextHead(s, p, digest).value.head == n + 1
    ensures NextHead(s, p, digest).value.manifestFileSha == digest(ManifestOf(p, digest))
    ensures NextHead(s, p, digest).value.previous == if s.head.None? then None else Some(s.head.value.headSha)
  {
    AcceptedHistory(s, n, digest);
  }

  /** From the new directory until the head is replaced every cut is refused. */
  lemma HalfBuiltRefused(s: Store, dir: Files, tmp: Option<Blob>, n: nat, digest: Digest)
    requires VerifyAll(s, digest) == Ok(n) && n + 1 < LIMIT
    ensures VerifyAll(s.(dirs := s.dirs[Name(n + 1) := dir], headTmp := tmp), digest).Refused?
  {
    AcceptedHistory(s, n, digest);
    NamesAfter(s, n, dir);
  }

  lemma NewGenerationAccepted(s: Store, p: Plan, n: nat, journal: Option<Ledger>, digest: Digest)
    requires VerifyAll(s, digest) == Ok(n) && n + 1 < LIMIT && p.generation == n + 1
    requires Creatable(AllFiles(p, digest)) == |p.items| + 2
    ensures NextHead(s, p, digest).Ok?
    ensures var dirs := s.dirs[Name(n + 1) := ToFiles(AllFiles(p, digest))];
            var t := Store(dirs, Some(NextHead(s, p, digest).value), None, journal);
            VerifyAll(t, digest) == if LedgerAgrees(journal, n + 1) then Ok(n + 1) else
                Refused("mutable generation ledger disagrees with history head")
  {
    var dir := ToFiles(AllFiles(p, digest));
    var dirs := s.dirs[Name(n + 1) := dir];
    AcceptedHistory(s, n, digest);
    AdvanceAllowed(s, p, n, digest);
    NamesAfter(s, n, dir);
    BuiltIsIntact(p, digest);
    AllIntactAfter(s.dirs, dir, n, digest);
  }

  lemma AllIntactAfter(dirs: map<string, Files>, dir: Files, n: nat, digest: Digest)
    requires n + 1 < LIMIT && AllIntact(dirs, n, digest) && Intact(dir, n + 1, digest)
    ensures AllIntact(dirs[Name(n + 1) := dir], n + 1, digest)
  {
    forall g: nat | 1 <= g <= n + 1
      ensures Name(g) in dirs[Name(n + 1) := dir] && Intact(dirs[Name(n + 1) := dir][Name(g)], g, digest)
    {
      assert Value(Name(g)) == g && Value(Name(n + 1)) == n + 1;
    }
  }

  /** The directory after k writes. */
  lemma {:induction false} CutSteps(s: Store, p: Plan, k: nat, digest: Digest)
    requires 1 <= k <= |p.items| + 3
    ensures Cut(s, p, k, digest) == s.(dirs := s.dirs[Name(p.generation) := ToFiles(AllFiles(p, digest)[..k - 1])])
  {
    if k > 1 {
      CutSteps(s, p, k - 1, digest);
    }
  }

  /** The head and the ledger after the last three writes. */
  lemma CutLast(s: Store, p: Plan, digest: Digest)
    requires NextHead(s, p, digest).Ok?
    ensures var n, next := |p.items|, NextHead(s, p, digest).value;
            var built := s.(dirs := s.dirs[Name(p.generation) := ToFiles(AllFiles(p, digest))]);
            && Cut(s, p, n + 4, digest) == built.(headTmp := Some(next))
            && Cut(s, p, n + 5, digest) == built.(headTmp := None, head := Some(next))
            && Cut(s, p, n + 6, digest) == built.(headTmp := None, head := Some(next),
                 journal := if s.journal.Some? then Some(Number(p.generation)) else None)
  {
    var n := |p.items|;
    CutSteps(s, p, n + 3, digest);
    assert AllFiles(p, digest)[..n + 2] == AllFiles(p, digest);
    var built := Cut(s, p, n + 3, digest);
    assert NextHead(built, p, digest) == NextHead(s, p, digest);
    assert Cut(s, p, n + 4, digest) == Write(built, p, n + 4, digest);
    assert Cut(s, p, n + 5, digest) == Write(Cut(s, p, n + 4, digest), p, n + 5, digest);
  }

  lemma CutBeforeHead(s: Store, p: Plan, n: nat, k: nat, digest: Digest)
    requires VerifyAll(s, digest) == Ok(n) && p.generation == n + 1 && n + 1 < LIMIT
    requires 1 <= k <= |p.items| + 4
    ensures VerifyAll(Cut(s, p, k, digest), digest).Refused?
  {
    var files := AllFiles(p, digest);
    if k <= |p.items| + 3 {
      CutSteps(s, p, k, digest);
      HalfBuiltRefused(s, ToFiles(files[..k - 1]), s.headTmp, n, digest);
    } else {
      AdvanceAllowed(s, p, n, digest);
      CutLast(s, p, digest);
      HalfBuiltRefused(s, ToFiles(files), Some(NextHead(s, p, digest).value), n, digest);
    }
  }

  lemma LedgerOfCut(s: Store, n: nat, digest: Digest)
    requires VerifyAll(s, digest) == Ok(n)
    ensures LedgerAgrees(s.journal, n + 1) <==> s.journal.None?
    ensures LedgerAgrees(Some(Number(n + 1)), n + 1)
  {
  }

  /** Sealing is all or nothing for admission, wherever the writes are cut. */
  lemma SealAllOrNothing(s: Store, p: Plan, n: nat, k: nat, digest: Digest)
    requires VerifyAll(s, digest) == Ok(n) && p.generation == n + 1 && n + 1 < LIMIT
    requires Creatable(AllFiles(p, digest)) == |p.items| + 2 && k <= |p.items| + 6
    ensures var r := VerifyAll(Cut(s, p, k, digest), digest);
            && (k == 0 ==> r == Ok(n))
            && (1 <= k <= |p.items| + 4 ==> r.Refused?)
            && (k == |p.items| + 5 ==> if s.journal.Some? then r.Refused? else r == Ok(n + 1))
            && (k == |p.items| + 6 ==> r == Ok(n + 1))
  {
    if 1 <= k <= |p.items| + 4 {
      CutBeforeHead(s, p, n, k, digest);
    } else if k > 0 {
      AdvanceAllowed(s, p, n, digest);
      CutLast(s, p, digest);
      LedgerOfCut(s, n, digest);
      NewGenerationAccepted(s, p, n, Cut(s, p, k, digest).journal, digest);
    }
  }

  /** A seal that fails by itself, for whatever reason, leaves a store that is refused. */
  lemma FailedSealRefused(s: Store, p: Plan, n: nat, digest: Digest)
    requires VerifyAll(s, digest) == Ok(n) && p.generation == n + 1 && n + 1 < LIMIT
    requires Reach(s, p, digest) < |p.items| + 5
    ensures VerifyAll(Cut(s, p, Reach(s, p, digest), digest), digest).Refused?
  {
    CutBeforeHead(s, p, n, Reach(s, p, digest), digest);
  }

  // ------------------------------------------------------------ many seals

  /** next_generation: one more than the last directory name in text order. */
  ghost predicate IsNext(dirs: map<string, Files>, g: nat)
  {
    var names := GlobbedNames(dirs);
    if names == {} then g == 1 else exists m :: Last(names, m) && g == Value(m) + 1
  }

  lemma NextIsSuccessor(s: Store, n: nat, g: nat)
    requires n < LIMIT && GlobbedNames(s.dirs) == Names(n)
    ensures IsNext(s.dirs, g) <==> g == n + 1
  {
    if n > 0 {
      assert Name(n) in Names(n);
      LargestIsLast(n);
      forall m | Last(Names(n), m) ensures m == Name(n) {
        LastIsLargest(n, m);
      }
    }
  }

  /** A run of complete seals, each followed by its ledger write. */
  ghost predicate SealRun(stores: seq<Store>, plans: seq<Plan>, digest: Digest)
  {
    && |stores| == |plans| + 1
    && VerifyAll(stores[0], digest) == Ok(0)
    && forall i :: 0 <= i < |plans| ==>
         && IsNext(stores[i].dirs, plans[i].generation)
         && Creatable(AllFiles(plans[i], digest)) == |plans[i].items| + 2
         && stores[i + 1] == Cut(stores[i], plans[i], |plans[i].items| + 6, digest)
  }

  predicate HasHead(s: Store)
  {
    s.head.Some? && s.head.value.HeadJson?
  }

  lemma OneMoreSeal(s: Store, p: Plan, i: nat, digest: Digest)
    requires VerifyAll(s, digest) == Ok(i) && i + 1 < LIMIT && IsNext(s.dirs, p.generation)
    requires Creatable(AllFiles(p, digest)) == |p.items| + 2
    ensures var t := Cut(s, p, |p.items| + 6, digest);
            && VerifyAll(t, digest) == Ok(i + 1) && HasHead(t)
            && (i == 0 ==> t.head.value.previous == None)
            && (i > 0 ==> HasHead(s) && t.head.value.previous == Some(s.head.value.headSha))
  {
    AcceptedHistory(s, i, digest);
    NextIsSuccessor(s, i, p.generation);
    SealAllOrNothing(s, p, i, |p.items| + 6, digest);
    AdvanceAllowed(s, p, i, digest);
    CutLast(s, p, digest);
  }

  /** After i seals the history is exactly 1..i and the head links back. */
  lemma {:induction false} SealedChain(stores: seq<Store>, plans: seq<Plan>, i: nat, digest: Digest)
    requires SealRun(stores, plans, digest) && i <= |plans| && i < LIMIT
    ensures VerifyAll(stores[i], digest) == Ok(i)
    ensures GlobbedNames(stores[i].dirs) == Names(i)
    ensures i > 0 ==> HasHead(stores[i])
    ensures i == 1 ==> stores[i].head.value.previous == None
    ensures i > 1 ==> HasHead(stores[i - 1]) && stores[i].head.value.previous == Some(stores[i - 1].head.value.headSha)
  {
    if i > 0 {
      SealedChain(stores, plans, i - 1, digest);
      OneMoreSeal(stores[i - 1], plans[i - 1], i - 1, digest);
    }
    AcceptedHistory(stores[i], i, digest);
  }

  lemma NextInChain(stores: seq<Store>, plans: seq<Plan>, i: nat, g: nat, digest: Digest)
    requires SealRun(stores, plans, digest) && i <= |plans| && i < LIMIT
    ensures IsNext(stores[i].dirs, g) <==> g == i + 1
  {
    SealedChain(stores, plans, i, digest);
    NextIsSuccessor(stores[i], i, g);
  }

  /** The millionth generation has a seven-digit name: its seal completes and the store is refused,
      and the number is offered again. */
  lemma MillionthGenerationRefused(s: Store, p: Plan, n: nat, digest: Digest)
    requires n + 1 == LIMIT && VerifyAll(s, digest) == Ok(n) && IsNext(s.dirs, p.generation)
    ensures p.generation == n + 1
    ensures var t := Cut(s, p, |p.items| + 6, digest);
            VerifyAll(t, digest).Refused? && Name(n + 1) in t.dirs && IsNext(t.dirs, n + 1)
  {
    AcceptedHistory(s, n, digest);
    NextIsSuccessor(s, n, p.generation);
    AdvanceAllowed(s, p, n, digest);
    var t := Cut(s, p, |p.items| + 6, digest);
    CutLast(s, p, digest);
    assert GlobbedNames(t.dirs) == GlobbedNames(s.dirs);
    NextIsSuccessor(t, n, n + 1);
    SevenDigitHeadRefused(t, n + 1, digest);
  }

  /** A complete seal is accepted exactly if its number has at most six digits. */
  lemma SealAcceptedExactly(s: Store, p: Plan, n: nat, digest: Digest)
    requires VerifyAll(s, digest) == Ok(n) && IsNext(s.dirs, p.generation)
    requires Creatable(AllFiles(p, digest)) == |p.items| + 2
    ensures VerifyAll(Cut(s, p, |p.items| + 6, digest), digest) == Ok(n + 1) <==> n + 1 < LIMIT
    ensures n + 1 >= LIMIT ==> VerifyAll(Cut(s, p, |p.items| + 6, digest), digest).Refused?
  {
    AcceptedHistory(s, n, digest);
    if n + 1 < LIMIT {
      NextIsSuccessor(s, n, p.generation);
      SealAllOrNothing(s, p, n, |p.items| + 6, digest);
    } else {
      MillionthGenerationRefused(s, p, n, digest);
    }
  }

  lemma SevenDigitHeadRefused(t: Store, h: nat, digest: Digest)
    requires h >= 1 && !Globbed(Name(h)) && HasHead(t) && t.head.value.head == h
    ensures VerifyAll(t, digest).Refused?
  {
    assert Name(h) in Names(h);
    assert Name(h) !in GlobbedNames(t.dirs);
  }

  // ------------------------------------------------------------ the store

  /** An artifact name that seal lets through. */
  predicate SafeName(name: string)
  {
    name == "." || SafePath(name)
  }

  datatype Outcome = Sealed(generation: nat) | Raised | Died

  datatype Attempt = Written | Failed | Killed

  lemma {:induction false} CreatableStops(files: seq<(string, Blob)>, i: nat)
    requires i < |files| && Creatable(files[..i]) == i && Blocked(ToFiles(files[..i]), files[i].0)
    ensures Creatable(files) == i
    decreases |files|
  {
    var front := files[..|files| - 1];
    if i < |front| {
      assert front[..i] == files[..i];
      CreatableStops(front, i);
    } else {
      assert front == files[..i];
    }
  }

  lemma CreatableGoesOn(files: seq<(string, Blob)>, i: nat)
    requires i < |files| && Creatable(files[..i]) == i && !Blocked(ToFiles(files[..i]), files[i].0)
    ensures Creatable(files[..i + 1]) == i + 1
    ensures ToFiles(files[..i + 1]) == ToFiles(files[..i])[files[i].0 := files[i].1]
  {
    assert files[..i + 1][..i] == files[..i];
  }

  lemma {:induction false} CreatableAtLeast(files: seq<(string, Blob)>, i: nat)
    requires i <= |files| && Creatable(files[..i]) == i
    ensures Creatable(files) >= i
    decreases |files|
  {
    if i == |files| {
      assert files[..i] == files;
    } else {
      assert files[..|files| - 1][..i] == files[..i];
      CreatableAtLeast(files[..|files| - 1], i);
    }
  }

  /** The ledger row is the write after the head. */
  lemma LedgerCut(s: Store, p: Plan, t: Store, digest: Digest)
    requires t == Cut(s, p, |p.items| + 5, digest) && t.journal.Some?
    ensures Cut(s, p, |p.items| + 6, digest) == t.(journal := Some(Number(p.generation)))
  {
  }

  /** What is left to write, and from where, when the directory is complete. */
  lemma CompleteDirectory(s: Store, p: Plan, t: Store, digest: Digest)
    requires Creatable(AllFiles(p, digest)) == |p.items| + 2
    requires t == s.(dirs := s.dirs[Name(p.generation) := ToFiles(AllFiles(p, digest))])
    ensures t == Cut(s, p, |p.items| + 3, digest) && NextHead(t, p, digest) == NextHead(s, p, digest)
    ensures Reach(s, p, digest) ==
              if NextHead(s, p, digest).Refused? || s.headTmp.Some? then |p.items| + 3 else |p.items| + 5
  {
    CutSteps(s, p, |p.items| + 3, digest);
    assert AllFiles(p, digest)[..|p.items| + 2] == AllFiles(p, digest);
  }

  /** The last two writes on a complete directory. */
  lemma HeadCut(s: Store, p: Plan, t: Store, u: Store, moved: nat, digest: Digest)
    requires NextHead(s, p, digest).Ok? && s.headTmp.None? && moved <= 2
    requires t == s.(dirs := s.dirs[Name(p.generation) := ToFiles(AllFiles(p, digest))])
    requires u == t.(head := if moved == 2 then Some(NextHead(s, p, digest).value) else t.head,
                     headTmp := if moved == 1 then Some(NextHead(s, p, digest).value) else None)
    ensures u == Cut(s, p, |p.items| + 3 + moved, digest)
  {
    var n := |p.items|;
    CutSteps(s, p, n + 3, digest);
    assert AllFiles(p, digest)[..n + 2] == AllFiles(p, digest);
    CutLast(s, p, digest);
  }

  predicate Acceptable(items: seq<(string, Blob)>)
  {
    items != [] && forall i :: 0 <= i < |items| ==> SafeName(items[i].0)
  }

  function Min(a: nat, b: nat): nat
  {
    if a < b then a else b
  }

  predicate DistinctNames(items: seq<(string, Blob)>)
  {
    forall i, j :: 0 <= i < j < |items| ==> items[i].0 != items[j].0
  }

  lemma LessTotal(a: string, b: string)
    requires Globbed(a) && Globbed(b)
    ensures Less(a, b) || a == b || Less(b, a)
    ensures forall c :: Globbed(c) && Less(a, b) && Less(c, a) ==> Less(c, b)
  {
    TextOrderIsNumberOrder(a, b);
    TextOrderIsNumberOrder(b, a);
    forall c | Globbed(c) && Less(a, b) && Less(c, a) ensures Less(c, b) {
      TextOrderIsNumberOrder(c, a);
      TextOrderIsNumberOrder(c, b);
    }
  }

  /** The head file and the generations directory of one run. The fuse counts the durable writes
      that still succeed before the process is killed. */
  class GenerationStore {
    const digest: Digest
    var dirs: map<string, Files>
    var head: Option<Blob>
    var headTmp: Option<Blob>
    var journal: Option<Ledger>
    var fuse: nat

    function Contents(): Store
      reads this
    {
      Store(dirs, head, headTmp, journal)
    }

    constructor (digest: Digest, journal: Option<Ledger>, fuse: nat)
      ensures Contents() == Store(map[], None, None, journal)
      ensures this.digest == digest && this.fuse == fuse
    {
      this.digest := digest;
      this.dirs, this.head, this.headTmp, this.journal := map[], None, None, journal;
      this.fuse := fuse;
    }

    /** Walks the matching names and keeps the last in text order. */
    method NextGeneration() returns (g: nat)
      ensures IsNext(dirs, g)
    {
      var left := GlobbedNames(dirs);
      if left == {} {
        return 1;
      }
      var last :| last in left;
      left := left - {last};
      while left != {}
        invariant left <= GlobbedNames(dirs)
        invariant Last(GlobbedNames(dirs) - left, last)
        decreases left
      {
        var name :| name in left;
        LessTotal(last, name);
        LessTotal(name, last);
        left := left - {name};
        if Less(last, name) {
          last := name;
        }
      }
      assert GlobbedNames(dirs) - left == GlobbedNames(dirs);
      return Value(last) + 1;
    }

    /** One durable write is about to happen. */
    method Survive() returns (alive: bool)
      modifies this`fuse
      ensures alive <==> old(fuse) > 0
      ensures fuse == if alive then old(fuse) - 1 else 0
    {
      alive := fuse > 0;
      if alive {
        fuse := fuse - 1;
      }
    }

    /** Exclusive creation of one file of a generation. */
    method Create(g: nat, name: string, body: Blob) returns (r: Attempt)
      requires Name(g) in dirs
      modifies this`dirs, this`fuse
      ensures Blocked(old(dirs[Name(g)]), name) ==> r == Failed && dirs == old(dirs) && fuse == old(fuse)
      ensures !Blocked(old(dirs[Name(g)]), name) ==>
                if old(fuse) == 0 then r == Killed && dirs == old(dirs) && fuse == 0
                else r == Written && fuse == old(fuse) - 1
                     && dirs == old(dirs)[Name(g) := old(dirs[Name(g)])[name := body]]
    {
      if Blocked(dirs[Name(g)], name) {
        return Failed;
      }
      var alive := Survive();
      if !alive {
        return Killed;
      }
      dirs := dirs[Name(g) := dirs[Name(g)][name := body]];
      return Written;
    }

    /** Writes the files in order into a new, empty directory. */
    method Fill(g: nat, files: seq<(string, Blob)>) returns (r: Attempt)
      requires Name(g) in dirs && dirs[Name(g)] == map[]
      modifies this`dirs, this`fuse
      ensures var k := Min(old(fuse), Creatable(files));
              && dirs == old(dirs)[Name(g) := ToFiles(files[..k])] && fuse == old(fuse) - k
              && (r == Written <==> k == |files|)
              && (r == Failed ==> k == Creatable(files) < |files|)
              && (r == Killed ==> k == old(fuse) < |files|)
    {
      for i := 0 to |files|
        invariant i <= old(fuse) && fuse == old(fuse) - i && Creatable(files[..i]) == i
        invariant dirs == old(dirs)[Name(g) := ToFiles(files[..i])]
      {
        r := Create(g, files[i].0, files[i].1);
        if r == Failed {
          CreatableStops(files, i);
          return;
        }
        CreatableGoesOn(files, i);
        if r == Killed {
          CreatableAtLeast(files, i + 1);
          return;
        }
      }
      assert files[..|files|] == files;
      return Written;
    }

    /** The writes of one seal after its number was taken; k of them are done. */
    method Build(p: Plan) returns (r: Attempt, ghost k: nat)
      requires Name(p.generation) !in dirs
      modifies this`dirs, this`head, this`headTmp, this`fuse
      ensures Contents() == Cut(old(Contents()), p, k, digest) && fuse == old(fuse) - k
      ensures k <= Reach(old(Contents()), p, digest)
      ensures r == Written <==> k == |p.items| + 5
      ensures r == Failed ==> k == Reach(old(Contents()), p, digest)
      ensures r == Killed ==> k == old(fuse)
    {
      ghost var s := Contents();
      r, k := MakeDirectory(p.generation, AllFiles(p, digest));
      if k > 0 {
        CutSteps(s, p, k, digest);
      }
      if r == Written {
        assert AllFiles(p, digest)[..k - 1] == AllFiles(p, digest);
        CompleteDirectory(s, p, Contents(), digest);
        r, k := Advance(p, s);
      }
    }

    method MakeDirectory(g: nat, files: seq<(string, Blob)>) returns (r: Attempt, ghost k: nat)
      requires Name(g) !in dirs
      modifies this`dirs, this`fuse
      ensures k == 0 ==> dirs == old(dirs) && r == Killed && fuse == 0
      ensures k <= 1 + Creatable(files) && fuse == old(fuse) - k
      ensures k > 0 ==> dirs == old(dirs)[Name(g) := ToFiles(files[..k - 1])]
      ensures r == Written <==> k == 1 + |files|
      ensures r == Failed ==> k == 1 + Creatable(files)
      ensures r == Killed ==> k == old(fuse)
    {
      var alive := Survive();
      if !alive {
        return Killed, 0;
      }
      dirs := dirs[Name(g) := map[]];
      r := Fill(g, files);
      k := 1 + Min(old(fuse) - 1, Creatable(files));
    }

    /** The head of a generation whose directory is complete. */
    method Advance(p: Plan, ghost s: Store) returns (r: Attempt, ghost k: nat)
      requires Creatable(AllFiles(p, digest)) == |p.items| + 2
      requires Contents() == s.(dirs := s.dirs[Name(p.generation) := ToFiles(AllFiles(p, digest))])
      modifies this`head, this`headTmp, this`fuse
      ensures Contents() == Cut(s, p, k, digest) && fuse == old(fuse) - (k - |p.items| - 3)
      ensures |p.items| + 3 <= k <= |p.items| + 5
      ensures r == Written <==> k == |p.items| + 5
      ensures r == Failed ==> k == |p.items| + 3
      ensures r == Failed <==> NextHead(s, p, digest).Refused? || s.headTmp.Some?
      ensures r == Killed ==> fuse == 0
    {
      k := |p.items| + 3;
      CompleteDirectory(s, p, Contents(), digest);
      var next := NextHead(Contents(), p, digest);
      if next.Refused? || headTmp.Some? {
        return Failed, k;
      }
      r, k := PutHead(p, s, next.value);
    }

    method PutHead(p: Plan, ghost s: Store, next: Blob) returns (r: Attempt, ghost k: nat)
      requires s.headTmp.None? && NextHead(s, p, digest) == Ok(next)
      requires Contents() == s.(dirs := s.dirs[Name(p.generation) := ToFiles(AllFiles(p, digest))])
      modifies this`head, this`headTmp, this`fuse
      ensures Contents() == Cut(s, p, k, digest) && fuse == old(fuse) - (k - |p.items| - 3)
      ensures |p.items| + 3 <= k <= |p.items| + 5 && r != Failed
      ensures r == Written <==> k == |p.items| + 5
      ensures r == Killed ==> fuse == 0
    {
      ghost var t := Contents();
      ghost var moved: nat;
      r, moved := ReplaceHead(next);
      HeadCut(s, p, t, Contents(), moved, digest);
      k := |p.items| + 3 + moved;
    }

    /** The temporary head, then the rename; moved counts the writes. */
    method ReplaceHead(next: Blob) returns (r: Attempt, ghost moved: nat)
      modifies this`head, this`headTmp, this`fuse
      ensures moved <= 2 && fuse == old(fuse) - moved
      ensures moved == 0 ==> head == old(head) && headTmp == old(headTmp)
      ensures moved == 1 ==> head == old(head) && headTmp == Some(next)
      ensures moved == 2 ==> head == Some(next) && headTmp == None
      ensures r == Written <==> moved == 2
      ensures r == Killed <==> moved < 2
      ensures r == Killed ==> fuse == 0
    {
      var alive := Survive();
      if !alive {
        return Killed, 0;
      }
      headTmp := Some(next);
      alive := Survive();
      if !alive {
        return Killed, 1;
      }
      head, headTmp := Some(next), None;
      return Written, 2;
    }

    /** seal: validation, the next number, the collision check, then the writes. */
    method Seal(items: seq<(string, Blob)>, title: string) returns (r: Outcome, ghost p: Plan, ghost k: nat)
      requires DistinctNames(items)
      modifies this`dirs, this`head, this`headTmp, this`fuse
      ensures p.items == items && p.title == title && IsNext(old(dirs), p.generation)
      ensures !Acceptable(items) || Name(p.generation) in old(dirs) ==> r == Raised && k == 0
      ensures Contents() == Cut(old(Contents()), p, k, digest) && fuse == old(fuse) - k
      ensures k <= Reach(old(Contents()), p, digest)
      ensures r == Sealed(p.generation) <==> k == |items| + 5
      ensures r.Sealed? ==> r.generation == p.generation
      ensures r == Raised && Acceptable(items) && Name(p.generation) !in old(dirs) ==> k == Reach(old(Contents()), p, digest)
      ensures r == Died ==> k == old(fuse)
    {
      var g := NextGeneration();
      var plan := Plan(g, title, items);
      p := plan;
      if !Acceptable(items) || Name(g) in dirs {
        return Raised, p, 0;
      }
      var built;
      built, k := Build(plan);
      r := match built case Written => Sealed(g) case Failed => Raised case Killed => Died;
    }

    /** The session's seal: the generation, then its row in the journal's ledger. */
    method SealAndRecord(items: seq<(string, Blob)>, title: string) returns (r: Outcome, ghost p: Plan, ghost k: nat)
      requires DistinctNames(items) && journal.Some?
      modifies this
      ensures p.items == items && p.title == title && IsNext(old(dirs), p.generation)
      ensures Contents() == Cut(old(Contents()), p, k, digest)
      ensures k <= |items| + 6 && (r == Sealed(p.generation) <==> k == |items| + 6)
      ensures r == Died ==> k == old(fuse)
    {
      r, p, k := Seal(items, title);
      if r.Sealed? {
        var alive := Survive();
        if !alive {
          return Died, p, k;
        }
        LedgerCut(old(Contents()), p, Contents(), digest);
        journal := Some(Number(r.generation));
        k := k + 1;
      }
    }

    /** verify_all: the number of generations when the history is accepted. */
    method Verify() returns (r: Result<nat>)
      ensures r.Ok? <==> VerifyAll(Contents(), digest).Ok?
      ensures r.Ok? ==> r == VerifyAll(Contents(), digest)
    {
      var n :- History(Contents(), digest);
      if !LedgerAgrees(journal, n) {
        return Refused("mutable generation ledger disagrees with history head");
      }
      var intact := VerifyEach(n);
      return if intact then Ok(n) else Refused("generation corruption");
    }

    method VerifyEach(n: nat) returns (ok: bool)
      ensures ok <==> AllIntact(dirs, n, digest)
    {
      for g := 1 to n + 1
        invariant AllIntact(dirs, g - 1, digest)
      {
        OneMoreIntact(dirs, g, digest);
        if Name(g) !in dirs || !Intact(dirs[Name(g)], g, digest) {
          BrokenRefuses(dirs, g, n, digest);
          return false;
        }
      }
      return true;
    }
  }
}
