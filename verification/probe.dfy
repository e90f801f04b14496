/**
 * Metadata lookup by listing ancestors: what `stat`, `exists`, `list_dir` and the refusal
 * classifiers may conclude from the ambiguous 550 reply (src/client/sync.rs).
 *
 * A path is the sequence of its components; the root is empty. The server is any function from
 * the number of LISTs already issued and the listed path to an answer, honest about one fixed
 * tree but free to refuse or fail at any moment.
 */
module Probe {
  import opened Wrappers
  import opened Errors
  import ControlChannel

  type Name = string
  type Path = seq<Name>

  datatype FileType = Directory | File | Symlink
  datatype Entry = Entry(path: Path, fileType: FileType)

  function Parent(p: Path): Path requires p != [] { p[..|p| - 1] }
  function Last(p: Path): Name requires p != [] { p[|p| - 1] }
  function Ancestor(p: Path, i: nat): Path requires i <= |p| { p[..|p| - i] }

  /** One LIST: its rows, the ambiguous 550 refusal, or any other failure. */
  datatype Answer = Listed(entries: seq<Entry>) | Refused | Failed(kind: Kind)

  /** `gate` is the failure of the gate every operation passes, met when asking for the root. */
  datatype Server = Server(list: (nat, Path) -> Answer, gate: nat -> Option<Kind>)

  type Tree = map<Path, FileType>

  /** The root is a directory; everything else lies in something that is not a regular file. */
  ghost predicate WellFormed(t: Tree) {
    && [] in t && t[[]] == Directory
    && forall p {:trigger Parent(p)} | p in t && p != [] :: Parent(p) in t && t[Parent(p)] != File
  }

  predicate ChildOf(c: Path, p: Path) { c != [] && Parent(c) == p }

  predicate HasPath(es: seq<Entry>, p: Path) { exists i :: 0 <= i < |es| && es[i].path == p }

  ghost predicate Complete(t: Tree, p: Path, es: seq<Entry>) {
    && (forall i | 0 <= i < |es| :: ChildOf(es[i].path, p) && es[i].path in t && t[es[i].path] == es[i].fileType)
    && (forall c {:trigger HasPath(es, c)} | c in t && ChildOf(c, p) :: HasPath(es, c))
  }

  /** The row servers send when a path that holds nothing is listed by its own name. */
  predicate OwnRow(t: Tree, p: Path, es: seq<Entry>) {
    && p in t && p != [] && t[p] != Directory && (forall c {:trigger ChildOf(c, p)} | c in t :: !ChildOf(c, p))
    && es == [Entry(p + [Last(p)], t[p])]
  }

  ghost predicate Fits(t: Tree, p: Path, a: Answer) {
    match a
    case Listed(es) => Complete(t, p, es) || OwnRow(t, p, es)
    case Refused => true
    case Failed(kind) => kind != NoSuchFileOrDirectory
  }

  ghost predicate Honest(t: Tree, s: Server) {
    && WellFormed(t)
    && (forall k: nat, p: Path :: Fits(t, p, s.list(k, p)))
    && (forall k: nat :: s.gate(k) != Some(NoSuchFileOrDirectory))
  }

  /** How a failed LIST is understood. */
  function FailedList(failure: RemoteError): Answer {
    if AmbiguousRefusal(failure) then Refused else Failed(failure.kind)
  }

  /** `Fits` asks nothing of failures that the mapping of LIST errors does not give. */
  lemma ListFailuresFit(t: Tree, p: Path, w: ControlChannel.Wire, env: ControlChannel.ListAnswers)
    ensures var failure := ControlChannel.ReadListBytes(w, env).1;
            failure.Some? ==> Fits(t, p, FailedList(failure.value))
  {
    var setup := ControlChannel.Transfer(w, env.list).1;
    if setup.Err? {
      NoSuchFileIsExactlyTheAmbiguousRefusal(setup.error);
    } else {
      var finish := ControlChannel.Finish(ControlChannel.Transfer(w, env.list).0, !env.readFails, env.completion).1;
      if finish.Err? { NoSuchFileIsExactlyTheAmbiguousRefusal(finish.error); }
    }
  }

  datatype StatResult = Found(entry: Entry) | Missing(kind: Kind)

  // ---- The ancestor probe ----

  const MAX_PROBES: nat := 8

  /** The verdict and the listed paths of a probe that may still issue `fuel` LISTs. */
  function ProbeFrom(s: Server, k: nat, candidate: Path, fuel: nat): (r: (bool, seq<Path>))
    decreases |candidate|
  {
    if fuel == 0 || candidate == [] then (false, [])
    else
      var parent := Parent(candidate);
      match s.list(k, parent)
      case Listed(es) => (!HasPath(es, candidate), [parent])
      case Refused =>
        var (verdict, lists) := ProbeFrom(s, k + 1, parent, fuel - 1);
        (verdict, [parent] + lists)
      case Failed(_) => (false, [parent])
  }

  function AncestorProvesAbsent(s: Server, k: nat, p: Path): (bool, seq<Path>) { ProbeFrom(s, k, p, MAX_PROBES) }

  /** The loop of `ancestor_proves_absent`. */
  method AncestorProbe(s: Server, k: nat, path: Path) returns (verdict: bool, lists: seq<Path>)
    ensures (verdict, lists) == AncestorProvesAbsent(s, k, path)
  {
    var candidate := path;
    lists := [];
    assert forall rest: seq<Path> :: [] + rest == rest;
    for i := 0 to MAX_PROBES
      invariant |lists| == i && i <= |path| && candidate == Ancestor(path, i)
      invariant var (v, rest) := ProbeFrom(s, k + i, candidate, MAX_PROBES - i);
                AncestorProvesAbsent(s, k, path) == (v, lists + rest)
    {
      if candidate == [] {
        assert lists + [] == lists;
        return false, lists;
      }
      var parent := Parent(candidate);
      var answer := s.list(k + i, parent);
      match answer {
        case Listed(entries) => return !HasPath(entries, candidate), lists + [parent];
        case Failed(_) => return false, lists + [parent];
        case Refused => candidate := parent;
      }
      ghost var rest := ProbeFrom(s, k + i + 1, parent, MAX_PROBES - i - 1).1;
      assert lists + ([parent] + rest) == (lists + [parent]) + rest;
      lists := lists + [parent];
    }
    assert lists + [] == lists;
    verdict := false;
  }

  /** Ancestor i of p was listed successfully without its child on the way to p; nearer ones were refused. */
  ghost predicate ProvenAt(s: Server, k: nat, p: Path, i: nat) {
    && 1 <= i <= |p|
    && (forall j | 1 <= j < i :: s.list(k + j - 1, Ancestor(p, j)) == Refused)
    && s.list(k + i - 1, Ancestor(p, i)).Listed?
    && !HasPath(s.list(k + i - 1, Ancestor(p, i)).entries, Ancestor(p, i - 1))
  }

  /** The i-th LIST goes to the i-th proper ancestor: none is listed twice and each is shorter than the last. */
  ghost predicate ClimbsFrom(lists: seq<Path>, p: Path) {
    |lists| <= |p| && forall i | 0 <= i < |lists| :: lists[i] == Ancestor(p, i + 1)
  }

  lemma ClimbingGoesOn(lists: seq<Path>, p: Path)
    requires p != [] && ClimbsFrom(lists, Parent(p))
    ensures ClimbsFrom([Parent(p)] + lists, p)
  {
    assert Ancestor(p, 1) == Parent(p);
    forall i | 0 < i < |lists| + 1 ensures ([Parent(p)] + lists)[i] == Ancestor(p, i + 1) {
      assert Ancestor(Parent(p), i) == Ancestor(p, i + 1);
    }
  }

  /** Exact meaning of the probe. */
  lemma {:induction false} ProbeMeaning(s: Server, k: nat, p: Path, fuel: nat)
    ensures ProbeFrom(s, k, p, fuel).0 <==> exists i :: 1 <= i <= fuel && ProvenAt(s, k, p, i)
    decreases fuel
  {
    if fuel > 0 && p != [] {
      var parent, k1 := Parent(p), k + 1;
      assert Ancestor(p, 1) == parent && Ancestor(p, 0) == p;
      match s.list(k, parent) {
        case Listed(es) => assert !HasPath(es, p) <==> ProvenAt(s, k, p, 1);
        case Failed(_) =>
        case Refused =>
          ProbeMeaning(s, k1, parent, fuel - 1);
          if i :| 1 <= i <= fuel - 1 && ProvenAt(s, k1, parent, i) {
            ProvenOneLevelUp(s, k, p, i);
          }
          if i :| 1 <= i <= fuel && ProvenAt(s, k, p, i) {
            ProvenOneLevelUp(s, k, p, i - 1);
          }
      }
    }
  }

  /** The probe lists the proper ancestors of its path, nearest first, and at most `fuel` of them. */
  lemma {:induction false} ProbeClimbs(s: Server, k: nat, p: Path, fuel: nat)
    ensures ClimbsFrom(ProbeFrom(s, k, p, fuel).1, p) && |ProbeFrom(s, k, p, fuel).1| <= fuel
    decreases fuel
  {
    if fuel > 0 && p != [] {
      if s.list(k, Parent(p)).Refused? {
        ProbeClimbs(s, k + 1, Parent(p), fuel - 1);
        ClimbingGoesOn(ProbeFrom(s, k + 1, Parent(p), fuel - 1).1, p);
      } else {
        ClimbingGoesOn([], p);
      }
    }
  }

  lemma ProvenOneLevelUp(s: Server, k: nat, p: Path, i: nat)
    requires p != [] && 1 <= i <= |p| - 1 && s.list(k, Parent(p)) == Refused
    ensures ProvenAt(s, k + 1, Parent(p), i) <==> ProvenAt(s, k, p, i + 1)
  {
    var parent := Parent(p);
    assert forall j | 0 <= j <= |parent| :: Ancestor(parent, j) == Ancestor(p, j + 1);
    if ProvenAt(s, k + 1, parent, i) {
      forall j | 1 <= j < i + 1 ensures s.list(k + j - 1, Ancestor(p, j)) == Refused {
        if j == 1 { assert Ancestor(p, 1) == parent; } else { assert Ancestor(p, j) == Ancestor(parent, j - 1); }
      }
    }
    if ProvenAt(s, k, p, i + 1) {
      forall j | 1 <= j < i ensures s.list(k + 1 + j - 1, Ancestor(parent, j)) == Refused {
        assert Ancestor(p, j + 1) == Ancestor(parent, j);
      }
    }
  }

  // ---- stat, exists, list_dir ----

  predicate SingleOwnFile(p: Path, es: seq<Entry>) {
    |es| == 1 && p != [] && es[0].path != [] && Last(es[0].path) == Last(p) && es[0].fileType == File
  }

  function Find(es: seq<Entry>, p: Path): StatResult {
    if es == [] then Missing(NoSuchFileOrDirectory)
    else if es[0].path == p then Found(es[0])
    else Find(es[1..], p)
  }

  function Stat(s: Server, k: nat, p: Path): (r: (StatResult, seq<Path>))
    decreases |p|
  {
    if p == [] then
      (match s.gate(k) case None => Found(Entry([], Directory)) case Some(kind) => Missing(kind), [])
    else
      var parent := Parent(p);
      match s.list(k, parent)
      case Failed(kind) => (Missing(kind), [parent])
      case Refused =>
        var (absent, lists) := AncestorProvesAbsent(s, k + 1, parent);
        (Missing(if absent then NoSuchFileOrDirectory else PermissionDenied), [parent] + lists)
      case Listed(es) =>
        if SingleOwnFile(parent, es) then
          var (outcome, lists) := Stat(s, k + 1, parent);
          (match outcome
           case Found(e) => if e.fileType == File then Missing(BadFile) else Find(es, p)
           case Missing(kind) => if kind == PermissionDenied then Find(es, p) else outcome,
           [parent] + lists)
        else (Find(es, p), [parent])
  }

  datatype ExistsResult = Answered(present: bool) | Unknown(kind: Kind)

  function Exists(s: Server, k: nat, p: Path): ExistsResult {
    match Stat(s, k, p).0
    case Found(_) => Answered(true)
    case Missing(kind) => if kind == NoSuchFileOrDirectory then Answered(false) else Unknown(kind)
  }

  datatype ListResult = Children(entries: seq<Entry>) | NotListed(kind: Kind)

  function ListDir(s: Server, k: nat, p: Path): (ListResult, seq<Path>) {
    match s.list(k, p)
    case Failed(kind) => (NotListed(kind), [p])
    case Refused =>
      var (absent, lists) := AncestorProvesAbsent(s, k + 1, p);
      (NotListed(if absent then NoSuchFileOrDirectory else PermissionDenied), [p] + lists)
    case Listed(es) =>
      if p != [] && (SingleOwnFile(p, es) || es == []) then
        var (outcome, lists) := Stat(s, k + 1, p);
        (if outcome.Found? && outcome.entry.fileType == File then NotListed(BadFile) else Children(es), [p] + lists)
      else (Children(es), [p])
  }

  // ---- Cost ----

  /** `stat` on a path of depth d issues at most d LISTs, up the chain of its proper ancestors. */
  lemma {:induction false} StatClimbs(s: Server, k: nat, p: Path)
    ensures ClimbsFrom(Stat(s, k, p).1, p)
    decreases |p|
  {
    if p != [] {
      var parent := Parent(p);
      match s.list(k, parent) {
        case Failed(_) => ClimbingGoesOn([], p);
        case Refused =>
          ProbeClimbs(s, k + 1, parent, MAX_PROBES);
          ClimbingGoesOn(AncestorProvesAbsent(s, k + 1, parent).1, p);
        case Listed(es) =>
          if SingleOwnFile(parent, es) {
            StatClimbs(s, k + 1, parent);
            ClimbingGoesOn(Stat(s, k + 1, parent).1, p);
          } else {
            ClimbingGoesOn([], p);
          }
      }
    }
  }

  /** `list_dir` adds the path itself: at most d + 1 LISTs. */
  lemma ListDirClimbs(s: Server, k: nat, p: Path)
    ensures var lists := ListDir(s, k, p).1;
            lists != [] && lists[0] == p && ClimbsFrom(lists[1..], p)
  {
    ProbeClimbs(s, k + 1, p, MAX_PROBES);
    StatClimbs(s, k + 1, p);
    var lists := ListDir(s, k, p).1;
    assert lists[1..] == [] || lists[1..] == AncestorProvesAbsent(s, k + 1, p).1 || lists[1..] == Stat(s, k + 1, p).1;
  }

  // ---- Soundness ----

  lemma {:induction false} PresentMeansAncestorsPresent(t: Tree, p: Path, i: nat)
    requires WellFormed(t) && p in t && i <= |p|
    ensures Ancestor(p, i) in t && (i > 0 ==> t[Ancestor(p, i)] != File)
    decreases i
  {
    if i == 0 {
      assert Ancestor(p, 0) == p;
    } else {
      PresentMeansAncestorsPresent(t, p, i - 1);
      assert Parent(Ancestor(p, i - 1)) == Ancestor(p, i);
    }
  }

  /** A successful listing of a parent names every child that exists. */
  lemma ListingNamesEveryChild(t: Tree, s: Server, k: nat, c: Path)
    requires Honest(t, s) && c in t && c != [] && s.list(k, Parent(c)).Listed?
    ensures Complete(t, Parent(c), s.list(k, Parent(c)).entries) && HasPath(s.list(k, Parent(c)).entries, c)
  {
    assert Fits(t, Parent(c), s.list(k, Parent(c)));
    assert ChildOf(c, Parent(c));
  }

  lemma PresentPathsAreNamed(t: Tree, s: Server, k: nat, p: Path, i: nat)
    requires Honest(t, s) && p in t && 1 <= i <= |p| && s.list(k, Ancestor(p, i)).Listed?
    ensures HasPath(s.list(k, Ancestor(p, i)).entries, Ancestor(p, i - 1))
  {
    PresentMeansAncestorsPresent(t, p, i - 1);
    assert Parent(Ancestor(p, i - 1)) == Ancestor(p, i);
    ListingNamesEveryChild(t, s, k, Ancestor(p, i - 1));
  }

  lemma ProvenMeansAbsent(t: Tree, s: Server, k: nat, p: Path, i: nat)
    requires Honest(t, s) && ProvenAt(s, k, p, i)
    ensures p !in t
  {
    if p in t {
      PresentPathsAreNamed(t, s, k + i - 1, p, i);
    }
  }

  lemma ProbeIsSound(t: Tree, s: Server, k: nat, p: Path)
    requires Honest(t, s) && AncestorProvesAbsent(s, k, p).0
    ensures p !in t
  {
    ProbeMeaning(s, k, p, MAX_PROBES);
    var i :| 1 <= i <= MAX_PROBES && ProvenAt(s, k, p, i);
    ProvenMeansAbsent(t, s, k, p, i);
  }

  lemma {:induction false} FindMeaning(es: seq<Entry>, p: Path)
    ensures Find(es, p).Found? <==> HasPath(es, p)
    ensures Find(es, p).Found? ==> Find(es, p).entry in es && Find(es, p).entry.path == p
    ensures Find(es, p).Missing? ==> Find(es, p).kind == NoSuchFileOrDirectory
  {
    if es != [] {
      FindMeaning(es[1..], p);
      if HasPath(es, p) && es[0].path != p {
        var i :| 0 <= i < |es| && es[i].path == p;
        assert es[1..][i - 1] == es[i];
      }
      if HasPath(es[1..], p) {
        var i :| 0 <= i < |es[1..]| && es[1..][i].path == p;
        assert es[i + 1].path == p;
      }
    }
  }

  /** Soundness of absence: `stat` reports a missing path only when it is missing. */
  lemma {:induction false} StatAbsenceIsSound(t: Tree, s: Server, k: nat, p: Path)
    requires Honest(t, s) && Stat(s, k, p).0 == Missing(NoSuchFileOrDirectory)
    ensures p !in t
    decreases |p|
  {
    if p != [] {
      var parent := Parent(p);
      assert Fits(t, parent, s.list(k, parent));
      assert p in t ==> parent in t;
      match s.list(k, parent) {
        case Refused => ProbeIsSound(t, s, k + 1, parent);
        case Listed(es) =>
          FindMeaning(es, p);
          if SingleOwnFile(parent, es) && Stat(s, k + 1, parent).0 == Missing(NoSuchFileOrDirectory) {
            StatAbsenceIsSound(t, s, k + 1, parent);
          } else if p in t {
            ListingNamesEveryChild(t, s, k, p);
          }
      }
    }
  }

  lemma ExistsAbsenceIsSound(t: Tree, s: Server, k: nat, p: Path)
    requires Honest(t, s) && Exists(s, k, p) == Answered(false)
    ensures p !in t
  {
    StatAbsenceIsSound(t, s, k, p);
  }

  lemma ListDirAbsenceIsSound(t: Tree, s: Server, k: nat, p: Path)
    requires Honest(t, s) && ListDir(s, k, p).0 == NotListed(NoSuchFileOrDirectory)
    ensures p !in t
  {
    assert Fits(t, p, s.list(k, p));
    if s.list(k, p).Refused? { ProbeIsSound(t, s, k + 1, p); }
  }

  /** The LIST was refused with the ambiguous 550, or failed as a denial. */
  predicate Denies(a: Answer) { a.Refused? || a == Failed(PermissionDenied) }

  /** For something that exists, `stat` answers PermissionDenied exactly when its parent's LIST is denied. */
  lemma DeniedIffTheParentIsDenied(t: Tree, s: Server, k: nat, p: Path)
    requires Honest(t, s) && p in t && p != []
    ensures Stat(s, k, p).0 == Missing(PermissionDenied) <==> Denies(s.list(k, Parent(p)))
  {
    var parent := Parent(p);
    match s.list(k, parent) {
      case Refused => if AncestorProvesAbsent(s, k + 1, parent).0 { ProbeIsSound(t, s, k + 1, parent); }
      case Failed(_) =>
      case Listed(es) =>
        ListingNamesEveryChild(t, s, k, p);
        FindMeaning(es, p);
    }
  }

  /**
   * The server answered the listing of a parent that holds nothing with the parent's own row, the
   * path repeats its parent's name, and either the parent is no regular file or the listing of
   * the grandparent, which would have shown that it is one, was denied.
   */
  ghost predicate Phantom(t: Tree, s: Server, k: nat, p: Path) {
    && |p| > 1 && Last(p) == Last(Parent(p))
    && s.list(k, Parent(p)).Listed? && OwnRow(t, Parent(p), s.list(k, Parent(p)).entries)
    && (t[Parent(p)] == File ==> Denies(s.list(k + 1, Parent(Parent(p)))))
  }

  /** What `stat` finds is there, with the right type, except for phantoms. */
  lemma {:induction false} StatPresenceIsSound(t: Tree, s: Server, k: nat, p: Path)
    requires Honest(t, s) && Stat(s, k, p).0.Found?
    ensures var e := Stat(s, k, p).0.entry;
            e.path == p && ((p in t && t[p] == e.fileType) || (Phantom(t, s, k, p) && e.fileType == t[Parent(p)]))
    decreases |p|
  {
    if p != [] {
      var parent := Parent(p);
      assert Fits(t, parent, s.list(k, parent));
      var es := s.list(k, parent).entries;
      FindMeaning(es, p);
      if !Complete(t, parent, es) {
        assert OwnRow(t, parent, es) && p == parent + [Last(parent)];
        DeniedIffTheParentIsDenied(t, s, k + 1, parent);
        if t[parent] == File && Stat(s, k + 1, parent).0.Found? {
          StatPresenceIsSound(t, s, k + 1, parent);
          PhantomsAreAbsent(t, s, k + 1, parent);
        }
      }
    }
  }

  lemma PhantomsAreAbsent(t: Tree, s: Server, k: nat, p: Path)
    ensures Phantom(t, s, k, p) ==> p !in t
  {
    if Phantom(t, s, k, p) {
      assert ChildOf(p, Parent(p));
    }
  }

  /** `stat` finds a path that does not exist exactly when the path is a phantom. */
  lemma StatFindsAnAbsentPathIff(t: Tree, s: Server, k: nat, p: Path)
    requires Honest(t, s)
    ensures Stat(s, k, p).0.Found? && p !in t <==> Phantom(t, s, k, p)
  {
    if Phantom(t, s, k, p) {
      PhantomsAreAbsent(t, s, k, p);
      var parent := Parent(p);
      var es := s.list(k, parent).entries;
      assert p == parent + [Last(parent)];
      assert es[0].path == p && HasPath(es, p);
      FindMeaning(es, p);
      DeniedIffTheParentIsDenied(t, s, k + 1, parent);
    } else if Stat(s, k, p).0.Found? {
      StatPresenceIsSound(t, s, k, p);
    }
  }

  /** A phantom: the file /f below an unlistable root makes /f/f look like a file. */
  lemma PhantomsExist()
    ensures exists t, s, p :: Honest(t, s) && Exists(s, 0, p) == Answered(true) && p !in t
  {
    var f: Path := ["f"];
    var t: Tree := map[[] := Directory, f := File];
    var s := Server((k: nat, p: Path) => if p == f then Listed([Entry(["f", "f"], File)]) else Refused, k => None);
    var p: Path := ["f", "f"];
    assert f + [Last(f)] == p && Parent(p) == f && Parent(f) == [];
    forall c | c in t ensures !ChildOf(c, f) {
      assert c == [] || c == f;
    }
    assert OwnRow(t, f, [Entry(p, File)]);
    assert Honest(t, s);
    assert Phantom(t, s, 0, p);
    StatFindsAnAbsentPathIff(t, s, 0, p);
    assert Exists(s, 0, p) == Answered(true);
  }

  /** A climb from p that starts after k LISTs is answered with a listing at every ancestor. */
  ghost predicate AllListed(s: Server, k: nat, p: Path) {
    forall i | 1 <= i <= |p| :: s.list(k + i - 1, Ancestor(p, i)).Listed?
  }

  lemma ParentIsListedToo(s: Server, k: nat, p: Path)
    requires p != [] && AllListed(s, k, p)
    ensures s.list(k, Parent(p)).Listed? && AllListed(s, k + 1, Parent(p))
  {
    var parent := Parent(p);
    assert Ancestor(p, 1) == parent;
    forall i | 1 <= i <= |parent| ensures s.list(k + 1 + i - 1, Ancestor(parent, i)).Listed? {
      assert Ancestor(parent, i) == Ancestor(p, i + 1);
      assert s.list(k + (i + 1) - 1, Ancestor(p, i + 1)).Listed?;
    }
  }

  /** When no ancestor is refused, everything that exists is found, with its type. */
  lemma {:induction false} StatIsComplete(t: Tree, s: Server, k: nat, p: Path)
    requires Honest(t, s) && p in t && (p == [] ==> s.gate(k) == None)
    requires AllListed(s, k, p)
    ensures Stat(s, k, p).0 == Found(Entry(p, t[p]))
    decreases |p|
  {
    if p != [] {
      var parent := Parent(p);
      ParentIsListedToo(s, k, p);
      ListingNamesEveryChild(t, s, k, p);
      var es := s.list(k, parent).entries;
      FindMeaning(es, p);
      if SingleOwnFile(parent, es) {
        StatIsComplete(t, s, k + 1, parent);
      }
    }
  }

  /** The answers with which `stat` finds what exists: each LIST succeeds, or is denied where that will do. */
  predicate Resolves(s: Server, k: nat, p: Path)
    decreases |p|
  {
    if p == [] then s.gate(k).None?
    else
      && s.list(k, Parent(p)).Listed?
      && (SingleOwnFile(Parent(p), s.list(k, Parent(p)).entries) ==>
            Resolves(s, k + 1, Parent(p)) || Denies(s.list(k + 1, Parent(Parent(p)))))
  }

  lemma {:induction false} PresentPathsAreFoundIff(t: Tree, s: Server, k: nat, p: Path)
    requires Honest(t, s) && p in t
    ensures Stat(s, k, p).0.Found? <==> Resolves(s, k, p)
    decreases |p|
  {
    if p != [] && s.list(k, Parent(p)).Listed? {
      var parent := Parent(p);
      var es := s.list(k, parent).entries;
      ListingNamesEveryChild(t, s, k, p);
      FindMeaning(es, p);
      if SingleOwnFile(parent, es) {
        PresentPathsAreFoundIff(t, s, k + 1, parent);
        DeniedIffTheParentIsDenied(t, s, k + 1, parent);
        if Stat(s, k + 1, parent).0.Found? {
          StatPresenceIsSound(t, s, k + 1, parent);
          PhantomsAreAbsent(t, s, k + 1, parent);
        }
      }
    }
  }

  /**
   * What a `list_dir` whose LIST succeeds means. A regular file is told from a directory exactly
   * when `stat` can find it; otherwise its own row, or nothing, is returned as if it were one.
   * Anything else that exists is returned with its listing. A path that is absent reads as an
   * empty directory, unless it is the phantom of a regular file.
   */
  lemma ListDirMeaning(t: Tree, s: Server, k: nat, p: Path)
    requires Honest(t, s) && s.list(k, p).Listed?
    ensures var es := s.list(k, p).entries;
            ListDir(s, k, p).0 ==
            if p in t then (if t[p] == File && Resolves(s, k + 1, p) then NotListed(BadFile) else Children(es))
            else (if Phantom(t, s, k + 1, p) && t[Parent(p)] == File then NotListed(BadFile) else Children([]))
  {
    assert Fits(t, p, s.list(k, p));
    if p in t {
      PresentPathsAreListed(t, s, k, p);
    } else {
      AbsentPathsReadAsEmpty(t, s, k, p);
    }
  }

  lemma OnlyContainersHaveRows(t: Tree, p: Path, es: seq<Entry>)
    requires WellFormed(t)
    ensures Complete(t, p, es) && es != [] ==> p in t && t[p] != File
  {
    if Complete(t, p, es) && es != [] {
      assert ChildOf(es[0].path, p) && Parent(es[0].path) == p;
    }
  }

  lemma PresentPathsAreListed(t: Tree, s: Server, k: nat, p: Path)
    requires Honest(t, s) && s.list(k, p).Listed? && p in t
    ensures ListDir(s, k, p).0 ==
            if t[p] == File && Resolves(s, k + 1, p) then NotListed(BadFile) else Children(s.list(k, p).entries)
  {
    var es := s.list(k, p).entries;
    assert Fits(t, p, s.list(k, p));
    PresentPathsAreFoundIff(t, s, k + 1, p);
    if Stat(s, k + 1, p).0.Found? {
      StatPresenceIsSound(t, s, k + 1, p);
      PhantomsAreAbsent(t, s, k + 1, p);
    }
    OnlyContainersHaveRows(t, p, es);
  }

  lemma AbsentPathsReadAsEmpty(t: Tree, s: Server, k: nat, p: Path)
    requires Honest(t, s) && s.list(k, p).Listed? && p !in t
    ensures ListDir(s, k, p).0 ==
            if Phantom(t, s, k + 1, p) && t[Parent(p)] == File then NotListed(BadFile) else Children([])
  {
    var es := s.list(k, p).entries;
    assert Fits(t, p, s.list(k, p));
    OnlyContainersHaveRows(t, p, es);
    StatFindsAnAbsentPathIff(t, s, k + 1, p);
    if Stat(s, k + 1, p).0.Found? { StatPresenceIsSound(t, s, k + 1, p); }
  }

  // ---- Exact answers ----

  /** One of the first eight ancestors was listed without the one below it, and the nearer ones were refused. */
  ghost predicate ProvenAbsent(s: Server, k: nat, p: Path) { exists i :: 1 <= i <= 8 && ProvenAt(s, k, p, i) }

  /** A refused parent is reported missing exactly when the probe proves it, and as denied otherwise. */
  lemma RefusedParentsAreMissingIffProven(s: Server, k: nat, p: Path)
    requires p != [] && s.list(k, Parent(p)).Refused?
    ensures Stat(s, k, p).0
         == Missing(if ProvenAbsent(s, k + 1, Parent(p)) then NoSuchFileOrDirectory else PermissionDenied)
  {
    ProbeMeaning(s, k + 1, Parent(p), MAX_PROBES);
  }

  lemma RefusedListingsAreMissingIffProven(s: Server, k: nat, p: Path)
    requires s.list(k, p).Refused?
    ensures ListDir(s, k, p).0
         == NotListed(if ProvenAbsent(s, k + 1, p) then NoSuchFileOrDirectory else PermissionDenied)
  {
    ProbeMeaning(s, k + 1, p, MAX_PROBES);
  }

  lemma FailedListingsKeepTheirKind(s: Server, k: nat, p: Path)
    ensures s.list(k, p).Failed? ==> ListDir(s, k, p).0 == NotListed(s.list(k, p).kind)
    ensures p != [] && s.list(k, Parent(p)).Failed? ==> Stat(s, k, p).0 == Missing(s.list(k, Parent(p)).kind)
  {
  }

  /** What `stat` answers for something that exists. */
  lemma StatOfAPresentPath(t: Tree, s: Server, k: nat, p: Path)
    requires Honest(t, s) && p in t && p != []
    ensures match s.list(k, Parent(p))
            case Failed(kind) => Stat(s, k, p).0 == Missing(kind)
            case Refused => Stat(s, k, p).0 == Missing(PermissionDenied)
            case Listed(_) =>
              Stat(s, k, p).0 == if Resolves(s, k, p) then Found(Entry(p, t[p])) else Stat(s, k + 1, Parent(p)).0
  {
    PresentPathsInTermsOfAnswers(t, s, k, p);
    DeniedIffTheParentIsDenied(t, s, k, p);
    if s.list(k, Parent(p)).Listed? && SingleOwnFile(Parent(p), s.list(k, Parent(p)).entries) {
      PresentPathsInTermsOfAnswers(t, s, k + 1, Parent(p));
    }
  }

  /**
   * What `stat` answers for something that does not exist: a refusal is decided by the probe, a
   * failure keeps its kind, a regular file that the server lists by its own row is a bad file when
   * `stat` can find it, a phantom is found, and everything else is missing. The one remaining case
   * is a single row that may be the parent's own, when `stat` fails on the parent: its failure.
   */
  lemma StatOfAnAbsentPath(t: Tree, s: Server, k: nat, p: Path)
    requires Honest(t, s) && p !in t && p != []
    ensures var parent := Parent(p);
            match s.list(k, parent)
            case Failed(kind) => Stat(s, k, p).0 == Missing(kind)
            case Refused =>
              Stat(s, k, p).0
              == Missing(if ProvenAbsent(s, k + 1, parent) then NoSuchFileOrDirectory else PermissionDenied)
            case Listed(es) =>
              if Phantom(t, s, k, p) then Stat(s, k, p).0 == Found(Entry(p, t[parent]))
              else if !SingleOwnFile(parent, es) then Stat(s, k, p).0 == Missing(NoSuchFileOrDirectory)
              else if Resolves(s, k + 1, parent) then
                parent in t && Stat(s, k, p).0 == Missing(if t[parent] == File then BadFile else NoSuchFileOrDirectory)
              else if Denies(s.list(k + 1, Parent(parent))) then Stat(s, k, p).0 == Missing(NoSuchFileOrDirectory)
              else Stat(s, k, p).0 == Stat(s, k + 1, parent).0
  {
    var parent := Parent(p);
    StatFindsAnAbsentPathIff(t, s, k, p);
    if s.list(k, parent).Refused? { RefusedParentsAreMissingIffProven(s, k, p); }
    if s.list(k, parent).Listed? {
      var es := s.list(k, parent).entries;
      assert Fits(t, parent, s.list(k, parent));
      OnlyContainersHaveRows(t, parent, es);
      FindMeaning(es, p);
      if Phantom(t, s, k, p) {
        StatPresenceIsSound(t, s, k, p);
      } else if SingleOwnFile(parent, es) {
        PresentPathsInTermsOfAnswers(t, s, k + 1, parent);
      }
    }
  }

  lemma PresentPathsInTermsOfAnswers(t: Tree, s: Server, k: nat, p: Path)
    requires Honest(t, s) && p in t && p != []
    ensures Resolves(s, k, p) ==> Stat(s, k, p).0 == Found(Entry(p, t[p]))
    ensures !Resolves(s, k, p) ==> Stat(s, k, p).0.Missing?
    ensures !Resolves(s, k, p) ==> (Stat(s, k, p).0.kind == PermissionDenied <==> Denies(s.list(k, Parent(p))))
  {
    PresentPathsAreFoundIff(t, s, k, p);
    DeniedIffTheParentIsDenied(t, s, k, p);
    if Stat(s, k, p).0.Found? {
      StatPresenceIsSound(t, s, k, p);
      PhantomsAreAbsent(t, s, k, p);
    }
  }

  /** `exists` answers exactly when `stat` finds something or proves that there is nothing. */
  lemma ExistsMeaning(s: Server, k: nat, p: Path)
    ensures Exists(s, k, p) == Answered(true) <==> Stat(s, k, p).0.Found?
    ensures Exists(s, k, p) == Answered(false) <==> Stat(s, k, p).0 == Missing(NoSuchFileOrDirectory)
    ensures Exists(s, k, p).Unknown? ==> Stat(s, k, p).0 == Missing(Exists(s, k, p).kind)
  {
  }

  // ---- Refusal classification ----

  function DestinationParentIsMissing(s: Server, k: nat, p: Path): bool {
    p != [] && Stat(s, k, Parent(p)).0 == Missing(NoSuchFileOrDirectory)
  }

  function ClassifyFileRefusal(s: Server, k: nat, p: Path, err: FtpError): Kind {
    if !IsFileUnavailable(err) then KindOf(err)
    else
      match Stat(s, k, p).0
      case Found(e) => if e.fileType == Directory then BadFile else KindOf(err)
      case Missing(kind) => if kind == NoSuchFileOrDirectory then NoSuchFileOrDirectory else KindOf(err)
  }

  function ClassifyCreateRefusal(s: Server, k: nat, p: Path, err: FtpError): Kind {
    if !IsCreationRefusal(err) then KindOf(err)
    else
      var (outcome, lists) := Stat(s, k, p);
      match outcome
      case Found(e) => if e.fileType == Directory then AlreadyExists else PermissionDenied
      case Missing(kind) =>
        if kind == NoSuchFileOrDirectory && DestinationParentIsMissing(s, k + |lists|, p) then NoSuchFileOrDirectory
        else PermissionDenied
  }

  function ClassifyCreateDirRefusal(s: Server, k: nat, p: Path, err: FtpError): Kind {
    if !IsCreationRefusal(err) then KindOf(err)
    else
      var (outcome, lists) := Stat(s, k, p);
      match outcome
      case Found(_) => AlreadyExists
      case Missing(kind) =>
        if kind == NoSuchFileOrDirectory && DestinationParentIsMissing(s, k + |lists|, p) then NoSuchFileOrDirectory
        else PermissionDenied
  }

  function ClassifyRemoveDirRefusal(s: Server, k: nat, p: Path, err: FtpError): Kind {
    if !IsFileUnavailable(err) then KindOf(err)
    else
      var (outcome, lists) := Stat(s, k, p);
      match outcome
      case Found(e) =>
        if e.fileType != Directory then BadFile
        else
          (match ListDir(s, k + |lists|, p).0
           case Children(es) => if es != [] then DirectoryNotEmpty else PermissionDenied
           case NotListed(_) => PermissionDenied)
      case Missing(kind) => if kind == NoSuchFileOrDirectory then NoSuchFileOrDirectory else PermissionDenied
  }

  function ClassifyRenameRefusal(s: Server, k: nat, src: Path, dest: Path, err: FtpError): Kind {
    if !IsCreationRefusal(err) then KindOf(err)
    else
      var (outcome, lists) := Stat(s, k, src);
      match outcome
      case Missing(kind) => if kind == NoSuchFileOrDirectory then NoSuchFileOrDirectory else PermissionDenied
      case Found(_) =>
        if DestinationParentIsMissing(s, k + |lists|, dest) then NoSuchFileOrDirectory else PermissionDenied
  }

  /** `stat` proves the path missing, and then its parent. */
  predicate BothMissing(s: Server, k: nat, outcome: StatResult, lists: seq<Path>, p: Path) {
    outcome == Missing(NoSuchFileOrDirectory) && p != []
    && Stat(s, k + |lists|, Parent(p)).0 == Missing(NoSuchFileOrDirectory)
  }

  /** Only 550, and for creations and renames 553, are looked into; every other refusal keeps its kind. */
  lemma OtherRefusalsKeepTheirKind(s: Server, k: nat, p: Path, dest: Path, err: FtpError)
    ensures err != UnexpectedResponse(550) ==>
              ClassifyFileRefusal(s, k, p, err) == ClassifyRemoveDirRefusal(s, k, p, err) == KindOf(err)
    ensures err != UnexpectedResponse(550) && err != UnexpectedResponse(553) ==>
              && ClassifyCreateRefusal(s, k, p, err) == KindOf(err)
              && ClassifyCreateDirRefusal(s, k, p, err) == KindOf(err)
              && ClassifyRenameRefusal(s, k, p, dest, err) == KindOf(err)
    ensures IsFileUnavailable(err) <==> err == UnexpectedResponse(550)
    ensures IsCreationRefusal(err) <==> err == UnexpectedResponse(550) || err == UnexpectedResponse(553)
  {
  }

  lemma MissingParentsAreAbsent(t: Tree, s: Server, k: nat, p: Path)
    requires Honest(t, s)
    ensures DestinationParentIsMissing(s, k, p) ==> p != [] && Parent(p) !in t && p !in t
  {
    if DestinationParentIsMissing(s, k, p) {
      StatAbsenceIsSound(t, s, k, Parent(p));
    }
  }

  /** A refused STOR or APPE is blamed on a missing parent, or on a directory in the way, only with proof. */
  lemma CreateRefusalsNeedProof(t: Tree, s: Server, k: nat, p: Path, err: FtpError)
    requires Honest(t, s) && IsCreationRefusal(err)
    ensures match ClassifyCreateRefusal(s, k, p, err)
            case AlreadyExists => p in t && t[p] == Directory
            case NoSuchFileOrDirectory => p != [] && p !in t && Parent(p) !in t
            case kind => kind == PermissionDenied
    ensures var (outcome, lists) := Stat(s, k, p);
            && (ClassifyCreateRefusal(s, k, p, err) == AlreadyExists
                <==> outcome.Found? && outcome.entry.fileType == Directory)
            && (ClassifyCreateRefusal(s, k, p, err) == NoSuchFileOrDirectory <==> BothMissing(s, k, outcome, lists, p))
  {
    var (outcome, lists) := Stat(s, k, p);
    if outcome.Found? {
      StatPresenceIsSound(t, s, k, p);
    } else {
      MissingParentsAreAbsent(t, s, k + |lists|, p);
    }
  }

  lemma CreateDirRefusalsNeedProof(t: Tree, s: Server, k: nat, p: Path, err: FtpError)
    requires Honest(t, s) && IsCreationRefusal(err)
    ensures match ClassifyCreateDirRefusal(s, k, p, err)
            case AlreadyExists => p in t || Phantom(t, s, k, p)
            case NoSuchFileOrDirectory => p != [] && p !in t && Parent(p) !in t
            case kind => kind == PermissionDenied
    ensures var (outcome, lists) := Stat(s, k, p);
            && (ClassifyCreateDirRefusal(s, k, p, err) == AlreadyExists <==> outcome.Found?)
            && (ClassifyCreateDirRefusal(s, k, p, err) == NoSuchFileOrDirectory
                <==> BothMissing(s, k, outcome, lists, p))
  {
    var (outcome, lists) := Stat(s, k, p);
    if outcome.Found? {
      StatPresenceIsSound(t, s, k, p);
    } else {
      MissingParentsAreAbsent(t, s, k + |lists|, p);
    }
  }

  lemma RemoveDirRefusalsNeedProof(t: Tree, s: Server, k: nat, p: Path, err: FtpError)
    requires Honest(t, s) && IsFileUnavailable(err)
    ensures match ClassifyRemoveDirRefusal(s, k, p, err)
            case BadFile => (p in t && t[p] != Directory) || Phantom(t, s, k, p)
            case DirectoryNotEmpty => p in t && t[p] == Directory && exists c :: c in t && ChildOf(c, p)
            case NoSuchFileOrDirectory => p !in t
            case kind => kind == PermissionDenied
  {
    var (outcome, lists) := Stat(s, k, p);
    if outcome.Found? {
      StatPresenceIsSound(t, s, k, p);
      var listing := s.list(k + |lists|, p);
      assert Fits(t, p, listing);
      if listing.Listed? && listing.entries != [] && p in t && t[p] == Directory {
        assert ChildOf(listing.entries[0].path, p);
      }
    } else if outcome.kind == NoSuchFileOrDirectory {
      StatAbsenceIsSound(t, s, k, p);
    }
  }

  /** And given the proof, a refused RMD is blamed on it. */
  lemma RemoveDirRefusalsUseTheirProof(s: Server, k: nat, p: Path, err: FtpError)
    requires IsFileUnavailable(err)
    ensures var (outcome, lists) := Stat(s, k, p);
            var directory := outcome.Found? && outcome.entry.fileType == Directory;
            var listing := ListDir(s, k + |lists|, p).0;
            && (ClassifyRemoveDirRefusal(s, k, p, err) == BadFile <==> outcome.Found? && !directory)
            && (ClassifyRemoveDirRefusal(s, k, p, err) == DirectoryNotEmpty
                <==> directory && listing.Children? && listing.entries != [])
            && (ClassifyRemoveDirRefusal(s, k, p, err) == NoSuchFileOrDirectory
                <==> outcome == Missing(NoSuchFileOrDirectory))
  {
  }

  lemma RenameRefusalsNeedProof(t: Tree, s: Server, k: nat, src: Path, dest: Path, err: FtpError)
    requires Honest(t, s) && IsCreationRefusal(err)
    ensures match ClassifyRenameRefusal(s, k, src, dest, err)
            case NoSuchFileOrDirectory => src !in t || (dest != [] && Parent(dest) !in t)
            case kind => kind == PermissionDenied
    ensures var (outcome, lists) := Stat(s, k, src);
            ClassifyRenameRefusal(s, k, src, dest, err) == NoSuchFileOrDirectory
            <==> outcome == Missing(NoSuchFileOrDirectory)
                 || (outcome.Found? && dest != []
                     && Stat(s, k + |lists|, Parent(dest)).0 == Missing(NoSuchFileOrDirectory))
  {
    var (outcome, lists) := Stat(s, k, src);
    if outcome == Missing(NoSuchFileOrDirectory) {
      StatAbsenceIsSound(t, s, k, src);
    } else {
      MissingParentsAreAbsent(t, s, k + |lists|, dest);
    }
  }

  /** A refused RETR or DELE is the exception: its "no such file" may be the unproved 550 itself. */
  lemma FileRefusalsFallBackToTheRawKind(t: Tree, s: Server, k: nat, p: Path, err: FtpError)
    requires Honest(t, s) && IsFileUnavailable(err)
    ensures ClassifyFileRefusal(s, k, p, err) in {BadFile, NoSuchFileOrDirectory}
    ensures ClassifyFileRefusal(s, k, p, err) == BadFile ==> p in t && t[p] == Directory
    ensures p in t && t[p] == Directory && Stat(s, k, p).0.Found? ==> ClassifyFileRefusal(s, k, p, err) == BadFile
  {
    if Stat(s, k, p).0.Found? {
      StatPresenceIsSound(t, s, k, p);
      PhantomsAreAbsent(t, s, k, p);
    }
  }
}
