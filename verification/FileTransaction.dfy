/**
 replace_file_set of select_navigation_map.py: stage copies, move the old files aside, install, validate; on an
 exception roll back, and in any case clean up. One exception, or one interrupt that the rollback does not catch, may
 strike at any step before the rollback and the cleanup; renames are atomic. Paths are compared as written.
 */
module FileTransaction {
  import opened Options

  type Path = string
  type Content = string
  type Files = map<Path, Content>

  function Lookup(files: Files, p: Path): Option<Content> { if p in files then Some(files[p]) else None }

  lemma SameLookups(a: Files, b: Files)
    requires forall p :: Lookup(a, p) == Lookup(b, p)
    ensures a == b
  {
    forall p
      ensures p in a <==> p in b
      ensures p in a ==> a[p] == b[p]
    {
      assert Lookup(a, p) == Lookup(b, p);
    }
  }

  // ---------- names ----------

  function Temp(d: Path, t: string): Path { d + ".new." + t }
  function Backup(d: Path, t: string): Path { d + ".backup." + t }

  predicate Marked(p: Path, t: string) { |p| >= |t| && p[|p| - |t|..] == t }

  /** Temporary and backup names carry the mark of the transaction and never collide. */
  lemma Names(d: Path, e: Path, t: string)
    ensures Marked(Temp(d, t), t) && Marked(Backup(d, t), t)
    ensures Temp(d, t) == Temp(e, t) ==> d == e
    ensures Backup(d, t) == Backup(e, t) ==> d == e
    ensures Temp(d, t) != Backup(e, t)
  {
    var a, b := Temp(d, t), Backup(e, t);
    assert a[|a| - |t|..] == t && b[|b| - |t|..] == t;
    assert a[|a| - |t| - 2] == 'w' && b[|b| - |t| - 2] == 'p';
    if Temp(d, t) == Temp(e, t) {
      assert d == Temp(d, t)[..|d|] && e == Temp(e, t)[..|e|];
    }
    if Backup(d, t) == Backup(e, t) {
      assert d == Backup(d, t)[..|d|] && e == Backup(e, t)[..|e|];
    }
  }

  // ---------- the transaction ----------

  datatype Plan = Plan(copies: seq<(Path, Path)>, removals: seq<Path>)

  function CopyDests(copies: seq<(Path, Path)>): (r: seq<Path>)
    ensures |r| == |copies| && forall i | 0 <= i < |r| :: r[i] == copies[i].1
  {
    seq(|copies|, i requires 0 <= i < |copies| => copies[i].1)
  }

  function Dests(plan: Plan): seq<Path> { CopyDests(plan.copies) + plan.removals }

  predicate Distinct(s: seq<Path>) { forall i, j | 0 <= i < j < |s| :: s[i] != s[j] }

  /** The mark, a fresh random number, is on no path in sight. */
  predicate FreshMark(files: Files, plan: Plan, t: string) {
    && (forall p | p in files :: !Marked(p, t))
    && (forall p | p in Dests(plan) :: !Marked(p, t))
    && (forall c | c in plan.copies :: !Marked(c.0, t))
  }

  /** A copy may fail before, within or after writing. */
  datatype CopyFault = Before | Partial(written: Content) | After

  /**
   Where the one failure strikes, if it does, and whether it is an Exception, which is caught, or an interrupt. An
   interrupt may also fall between moving a file aside and recording that.
   */
  datatype Fault = NoFault | InStage(at: nat, copy: CopyFault, caught: bool) | InBackup(at: nat, caught: bool)
                 | AfterMove(at: nat) | InInstall(at: nat, caught: bool) | InValidation(caught: bool)

  predicate Caught(fault: Fault) {
    match fault
    case NoFault => true
    case AfterMove(_) => false
    case _ => fault.caught
  }

  datatype Outcome = Replaced | Duplicates | StageFailed(staged: nat) | BackupFailed(moved: nat)
                   | InstallFailed(installed: nat) | ValidationFailed | Interrupted

  /** What the last of the first copies to p brings, if there is one. */
  function Brought(files: Files, copies: seq<(Path, Path)>, p: Path): Option<Content>
    decreases |copies|
  {
    if copies == [] then None
    else if copies[|copies| - 1].1 == p then Lookup(files, copies[|copies| - 1].0)
    else Brought(files, copies[..|copies| - 1], p)
  }

  /** Success: sources at the destinations, removals gone, nothing else touched. */
  ghost predicate AllReplaced(was: Files, plan: Plan, files: Files) {
    forall p :: Lookup(files, p) == if p in CopyDests(plan.copies) then Brought(was, plan.copies, p)
                                    else if p in plan.removals then None else Lookup(was, p)
  }

  /** The destinations an early failure loses: staged and not yet moved aside. */
  predicate Lost(plan: Plan, staged: nat, moved: nat, p: Path)
    requires staged <= |plan.copies| && moved <= |Dests(plan)|
  {
    p in CopyDests(plan.copies)[..staged] && p !in Dests(plan)[..moved]
  }

  /** Rolled back, but for the lost destinations and a leftover temporary file. */
  ghost predicate RolledBack(was: Files, plan: Plan, staged: nat, moved: nat, leak: Files, files: Files)
    requires staged <= |plan.copies| && moved <= |Dests(plan)|
  {
    forall p :: Lookup(files, p) == if p in leak then Some(leak[p]) else if Lost(plan, staged, moved, p) then None
                                    else Lookup(was, p)
  }

  /** The temporary file that a copy failing at `at` leaves behind: it was never recorded as staged. */
  function Leak(was: Files, plan: Plan, t: string, staged: nat, fault: Fault): Files {
    if !fault.InStage? || fault.at != staged || staged >= |plan.copies| || plan.copies[staged].0 !in was then map[]
    else
      var temp := Temp(plan.copies[staged].1, t);
      match fault.copy
      case Before => map[]
      case Partial(written) => map[temp := written]
      case After => map[temp := was[plan.copies[staged].0]]
  }

  // ---------- progress ----------

  /** n copies staged, m destinations moved aside, r copies installed. */
  datatype Progress = Progress(n: nat, m: nat, r: nat)

  predicate ProgressOk(plan: Plan, g: Progress) {
    g.r <= g.n <= |plan.copies| && g.m <= |Dests(plan)| && (g.r > 0 ==> g.m == |Dests(plan)|)
  }

  /** What an unmarked path holds. */
  function Visible(was: Files, plan: Plan, g: Progress, p: Path): Option<Content>
    requires ProgressOk(plan, g)
  {
    if p in CopyDests(plan.copies)[..g.r] then Brought(was, plan.copies[..g.r], p)
    else if p in Dests(plan)[..g.m] then None
    else Lookup(was, p)
  }

  /** How far the transaction got when an interrupt struck. */
  function InterruptedAt(plan: Plan, fault: Fault): Progress {
    var (n, m) := (|plan.copies|, |Dests(plan)|);
    match fault
    case InStage(k, _, _) => Progress(k, 0, 0)
    case InBackup(k, _) => Progress(n, k, 0)
    case AfterMove(k) => Progress(n, k + 1, 0)
    case InInstall(k, _) => Progress(n, m, k)
    case _ => Progress(n, m, n)
  }

  /** What an interrupt leaves under marked names: a half-made copy, or a backup not yet recorded. */
  function Kept(was: Files, plan: Plan, t: string, fault: Fault): Files {
    match fault
    case InStage(k, _, _) => Leak(was, plan, t, k, fault)
    case AfterMove(k) =>
      if k < |Dests(plan)| && Dests(plan)[k] in was
      then map[Backup(Dests(plan)[k], t) := was[Dests(plan)[k]]]
      else map[]
    case _ => map[]
  }

  /** After an interrupt nothing is undone, and the recorded temporary files and backups are gone. */
  ghost predicate Left(was: Files, plan: Plan, t: string, fault: Fault, files: Files)
    requires ProgressOk(plan, InterruptedAt(plan, fault))
  {
    var (kept, g) := (Kept(was, plan, t, fault), InterruptedAt(plan, fault));
    forall p :: Lookup(files, p) == if p in kept then Some(kept[p]) else Visible(was, plan, g, p)
  }

  /** Installed files are what was there before, and no other destination moved aside was there. */
  predicate Unharmed(was: Files, plan: Plan, g: Progress)
    requires ProgressOk(plan, g)
  {
    && (forall i | 0 <= i < g.r :: Lookup(was, plan.copies[i].1) == Lookup(was, plan.copies[i].0))
    && forall k | g.r <= k < g.m :: Dests(plan)[k] !in was
  }

  ghost predicate TempsOk(was: Files, plan: Plan, t: string, g: Progress, leak: Files, files: Files) {
    forall i | 0 <= i < |plan.copies| ::
      Lookup(files, Temp(plan.copies[i].1, t))
      == if g.r <= i < g.n then Lookup(was, plan.copies[i].0) else Lookup(leak, Temp(plan.copies[i].1, t))
  }

  ghost predicate BackupsOk(was: Files, plan: Plan, t: string, m: nat, files: Files) {
    forall k | 0 <= k < |Dests(plan)| ::
      Lookup(files, Backup(Dests(plan)[k], t)) == if k < m then Lookup(was, Dests(plan)[k]) else None
  }

  /** A marked path that the transaction knows about. */
  ghost predicate Ours(plan: Plan, t: string, p: Path) {
    || (exists i | 0 <= i < |plan.copies| :: p == Temp(plan.copies[i].1, t))
    || (exists k | 0 <= k < |Dests(plan)| :: p == Backup(Dests(plan)[k], t))
  }

  ghost predicate OursOnly(plan: Plan, t: string, files: Files) {
    forall p | p in files && Marked(p, t) :: Ours(plan, t, p)
  }

  ghost predicate Setting(was: Files, plan: Plan, t: string) {
    FreshMark(was, plan, t) && Distinct(Dests(plan))
  }

  ghost predicate SourcesThere(was: Files, plan: Plan, n: nat)
    requires n <= |plan.copies|
  {
    forall i | 0 <= i < n :: plan.copies[i].0 in was
  }

  ghost predicate UnmarkedOk(was: Files, plan: Plan, t: string, g: Progress, files: Files)
    requires ProgressOk(plan, g)
  {
    forall p | !Marked(p, t) :: Lookup(files, p) == Visible(was, plan, g, p)
  }

  ghost predicate Underway(was: Files, plan: Plan, t: string, g: Progress, leak: Files, files: Files) {
    && Setting(was, plan, t) && ProgressOk(plan, g) && SourcesThere(was, plan, g.n)
    && UnmarkedOk(was, plan, t, g, files) && TempsOk(was, plan, t, g, leak, files)
    && BackupsOk(was, plan, t, g.m, files) && OursOnly(plan, t, files)
  }

  lemma Begins(was: Files, plan: Plan, t: string)
    requires Setting(was, plan, t)
    ensures Underway(was, plan, t, Progress(0, 0, 0), map[], was)
  {
    forall p
      ensures Marked(p, t) ==> Lookup(was, p) == None
    {
    }
    forall d: Path
      ensures Marked(Temp(d, t), t) && Marked(Backup(d, t), t)
    {
      Names(d, d, t);
    }
  }

  lemma DestAt(plan: Plan, i: nat)
    requires i < |plan.copies|
    ensures i < |Dests(plan)| && Dests(plan)[i] == plan.copies[i].1
  {
  }

  lemma AllNames(t: string)
    ensures forall d: Path :: Marked(Temp(d, t), t) && Marked(Backup(d, t), t)
    ensures forall d: Path, e: Path :: Temp(d, t) == Temp(e, t) ==> d == e
    ensures forall d: Path, e: Path :: Backup(d, t) == Backup(e, t) ==> d == e
    ensures forall d: Path, e: Path :: Temp(d, t) != Backup(e, t)
  {
    forall d: Path, e: Path
      ensures Marked(Temp(d, t), t) && Marked(Backup(d, t), t)
      ensures Temp(d, t) == Temp(e, t) ==> d == e
      ensures Backup(d, t) == Backup(e, t) ==> d == e
      ensures Temp(d, t) != Backup(e, t)
    {
      Names(d, e, t);
    }
  }

  /** One more copy staged. */
  lemma StageStep(was: Files, plan: Plan, t: string, n: nat, files: Files)
    requires Underway(was, plan, t, Progress(n, 0, 0), map[], files)
    requires n < |plan.copies| && plan.copies[n].0 in was
    ensures plan.copies[n].0 in files && files[plan.copies[n].0] == was[plan.copies[n].0]
    ensures Underway(was, plan, t, Progress(n + 1, 0, 0), map[],
                     files[Temp(plan.copies[n].1, t) := was[plan.copies[n].0]])
  {
    AllNames(t);
    DestAt(plan, n);
    hide Temp, Backup, Marked;
    assert plan.copies[n] in plan.copies;
    var src := plan.copies[n].0;
    assert Lookup(files, src) == Visible(was, plan, Progress(n, 0, 0), src);
    forall i | 0 <= i < |plan.copies| && i != n
      ensures plan.copies[i].1 != plan.copies[n].1
    {
      DestAt(plan, i);
    }
  }

  /** A copy that fails with its temporary file written: the file stays, unrecorded. */
  lemma LeakStep(was: Files, plan: Plan, t: string, n: nat, written: Content, files: Files)
    requires Underway(was, plan, t, Progress(n, 0, 0), map[], files) && n < |plan.copies|
    ensures var temp := Temp(plan.copies[n].1, t);
            Underway(was, plan, t, Progress(n, 0, 0), map[temp := written], files[temp := written])
  {
    AllNames(t);
    hide Temp, Backup, Marked;
    forall i | 0 <= i < |plan.copies| && i != n
      ensures plan.copies[i].1 != plan.copies[n].1
    {
      DestAt(plan, i);
      DestAt(plan, n);
    }
  }

  function Renamed(files: Files, from: Path, to: Path): Files
    requires from in files
  {
    (files - {from})[to := files[from]]
  }

  /** A destination that is there moves to its backup name. */
  function MovedAside(files: Files, d: Path, t: string): Files {
    if d in files then Renamed(files, d, Backup(d, t)) else files
  }

  /** The backup of a destination that was there is recorded. */
  function Recorded(backups: map<Path, Path>, d: Path, t: string, there: bool): map<Path, Path> {
    if there then backups[d := Backup(d, t)] else backups
  }

  lemma RenamedLookup(files: Files, from: Path, to: Path)
    requires from in files && from != to
    ensures forall p :: Lookup(Renamed(files, from, to), p)
                        == if p == to then Lookup(files, from) else if p == from then None else Lookup(files, p)
    ensures forall p :: p in files <==> Lookup(files, p) != None
    ensures forall p :: p in Renamed(files, from, to) <==> Lookup(Renamed(files, from, to), p) != None
  {
  }

  lemma OtherDests(plan: Plan, i: nat)
    requires Distinct(Dests(plan)) && i < |plan.copies|
    ensures plan.copies[i].1 in Dests(plan)
    ensures forall j | 0 <= j < |plan.copies| && j != i :: plan.copies[j].1 != plan.copies[i].1
    ensures plan.copies[i].1 !in CopyDests(plan.copies)[..i]
  {
    DestAt(plan, i);
    forall j | 0 <= j < |plan.copies| && j != i
      ensures plan.copies[j].1 != plan.copies[i].1
    {
      DestAt(plan, j);
    }
  }

  lemma BackupUnmarked(was: Files, plan: Plan, t: string, m: nat, files: Files)
    requires Underway(was, plan, t, Progress(|plan.copies|, m, 0), map[], files) && m < |Dests(plan)|
    ensures var d := Dests(plan)[m];
            && (d in files <==> d in was)
            && UnmarkedOk(was, plan, t, Progress(|plan.copies|, m + 1, 0), MovedAside(files, d, t))
  {
    DestVisible(was, plan, t, m, files);
    var d := Dests(plan)[m];
    forall p | !Marked(p, t)
      ensures Lookup(MovedAside(files, d, t), p) == Visible(was, plan, Progress(|plan.copies|, m + 1, 0), p)
    {
      VisibleAfterBackup(was, plan, m, p);
      MovedLookup(files, d, t, p);
      UnmarkedAt(was, plan, t, Progress(|plan.copies|, m, 0), files, p);
    }
    hide Visible, Lookup, MovedAside, Dests, Marked;
  }

  lemma UnmarkedAt(was: Files, plan: Plan, t: string, g: Progress, files: Files, p: Path)
    requires ProgressOk(plan, g) && UnmarkedOk(was, plan, t, g, files) && !Marked(p, t)
    ensures Lookup(files, p) == Visible(was, plan, g, p)
  {
  }

  lemma DestVisible(was: Files, plan: Plan, t: string, m: nat, files: Files)
    requires Underway(was, plan, t, Progress(|plan.copies|, m, 0), map[], files) && m < |Dests(plan)|
    ensures var d := Dests(plan)[m];
            && !Marked(d, t) && d !in Dests(plan)[..m] && (d in files <==> d in was)
  {
    hide Marked, TempsOk, BackupsOk, OursOnly, SourcesThere, UnmarkedOk;
    var d := Dests(plan)[m];
    assert d in Dests(plan);
    UnmarkedAt(was, plan, t, Progress(|plan.copies|, m, 0), files, d);
  }

  lemma MovedLookup(files: Files, d: Path, t: string, p: Path)
    requires !Marked(p, t)
    ensures Lookup(MovedAside(files, d, t), p) == if p == d then None else Lookup(files, p)
  {
    AllNames(t);
    hide Marked, Backup;
  }

  lemma VisibleAfterBackup(was: Files, plan: Plan, m: nat, p: Path)
    requires m < |Dests(plan)|
    ensures Visible(was, plan, Progress(|plan.copies|, m + 1, 0), p)
         == if p == Dests(plan)[m] then None else Visible(was, plan, Progress(|plan.copies|, m, 0), p)
  {
    assert Dests(plan)[..m + 1] == Dests(plan)[..m] + [Dests(plan)[m]];
    hide Dests;
  }

  lemma BackupMarked(was: Files, plan: Plan, t: string, m: nat, files: Files)
    requires Underway(was, plan, t, Progress(|plan.copies|, m, 0), map[], files) && m < |Dests(plan)|
    requires Dests(plan)[m] in files
    ensures var d := Dests(plan)[m]; var files' := Renamed(files, d, Backup(d, t));
            && Lookup(files, d) == Lookup(was, d)
            && TempsOk(was, plan, t, Progress(|plan.copies|, m + 1, 0), map[], files')
            && BackupsOk(was, plan, t, m + 1, files') && OursOnly(plan, t, files')
  {
    AllNames(t);
    hide Temp, Backup, Marked, Renamed;
    var d := Dests(plan)[m];
    assert d in Dests(plan);
    assert Lookup(files, d) == Visible(was, plan, Progress(|plan.copies|, m, 0), d);
    RenamedLookup(files, d, Backup(d, t));
    hide Lookup, Visible, Dests;
  }

  /** One more destination moved aside, if it is there. */
  lemma BackupStep(was: Files, plan: Plan, t: string, m: nat, files: Files)
    requires Underway(was, plan, t, Progress(|plan.copies|, m, 0), map[], files) && m < |Dests(plan)|
    ensures var d := Dests(plan)[m];
            && (d in files <==> d in was)
            && Underway(was, plan, t, Progress(|plan.copies|, m + 1, 0), map[], MovedAside(files, d, t))
  {
    BackupUnmarked(was, plan, t, m, files);
    if Dests(plan)[m] in files {
      BackupMarked(was, plan, t, m, files);
    }
    hide Renamed, Setting, UnmarkedOk, Temp, Backup, OursOnly;
  }

  lemma InstallUnmarked(was: Files, plan: Plan, t: string, r: nat, files: Files)
    requires Underway(was, plan, t, Progress(|plan.copies|, |Dests(plan)|, r), map[], files) && r < |plan.copies|
    ensures var (d, temp) := (plan.copies[r].1, Temp(plan.copies[r].1, t));
            && temp in files
            && UnmarkedOk(was, plan, t, Progress(|plan.copies|, |Dests(plan)|, r + 1), Renamed(files, temp, d))
  {
    AllNames(t);
    OtherDests(plan, r);
    hide Temp, Backup, Marked, Renamed, BackupsOk, OursOnly, Distinct;
    var g := Progress(|plan.copies|, |Dests(plan)|, r);
    var (d, temp) := (plan.copies[r].1, Temp(plan.copies[r].1, t));
    assert Lookup(files, temp) == Lookup(was, plan.copies[r].0);
    RenamedLookup(files, temp, d);
    forall p
      ensures Visible(was, plan, g.(r := r + 1), p) == if p == d then Lookup(was, plan.copies[r].0)
              else Visible(was, plan, g, p)
    {
      VisibleAfterInstall(was, plan, r, p);
    }
    hide Visible, Lookup;
  }

  lemma VisibleAfterInstall(was: Files, plan: Plan, r: nat, p: Path)
    requires r < |plan.copies| && plan.copies[r].1 !in CopyDests(plan.copies)[..r]
    ensures var g := Progress(|plan.copies|, |Dests(plan)|, r);
            Visible(was, plan, g.(r := r + 1), p)
            == if p == plan.copies[r].1 then Lookup(was, plan.copies[r].0) else Visible(was, plan, g, p)
  {
    assert CopyDests(plan.copies)[..r + 1] == CopyDests(plan.copies)[..r] + [plan.copies[r].1];
    assert plan.copies[..r + 1] == plan.copies[..r] + [plan.copies[r]];
    assert plan.copies[..r + 1][..r] == plan.copies[..r];
  }

  lemma InstallMarked(was: Files, plan: Plan, t: string, r: nat, files: Files)
    requires Underway(was, plan, t, Progress(|plan.copies|, |Dests(plan)|, r), map[], files) && r < |plan.copies|
    requires Temp(plan.copies[r].1, t) in files
    ensures var d := plan.copies[r].1; var files' := Renamed(files, Temp(d, t), d);
            && TempsOk(was, plan, t, Progress(|plan.copies|, |Dests(plan)|, r + 1), map[], files')
            && BackupsOk(was, plan, t, |Dests(plan)|, files') && OursOnly(plan, t, files')
  {
    AllNames(t);
    OtherDests(plan, r);
    hide Temp, Backup, Marked, Renamed, Distinct, UnmarkedOk;
    var d := plan.copies[r].1;
    RenamedLookup(files, Temp(d, t), d);
    assert !Marked(d, t);
    assert Lookup(map[], Temp(d, t)) == None;
    hide Dests;
    hide Lookup;
  }

  /** One more copy put in place. */
  lemma InstallStep(was: Files, plan: Plan, t: string, r: nat, files: Files)
    requires Underway(was, plan, t, Progress(|plan.copies|, |Dests(plan)|, r), map[], files) && r < |plan.copies|
    ensures var (d, temp) := (plan.copies[r].1, Temp(plan.copies[r].1, t));
            && temp in files
            && Underway(was, plan, t, Progress(|plan.copies|, |Dests(plan)|, r + 1), map[], Renamed(files, temp, d))
  {
    InstallUnmarked(was, plan, t, r, files);
    InstallMarked(was, plan, t, r, files);
    hide Renamed, Setting, UnmarkedOk, Temp, Backup, OursOnly, TempsOk, BackupsOk;
  }

  // ---------- undoing and cleaning up ----------

  function TempNames(plan: Plan, t: string, n: nat): (r: seq<Path>)
    requires n <= |plan.copies|
    ensures |r| == n && forall i | 0 <= i < n :: r[i] == Temp(plan.copies[i].1, t)
  {
    seq(n, i requires 0 <= i < n => Temp(plan.copies[i].1, t))
  }

  function BackupNames(plan: Plan, t: string, m: nat): (r: seq<Path>)
    requires m <= |Dests(plan)|
    ensures |r| == m && forall k | 0 <= k < m :: r[k] == Backup(Dests(plan)[k], t)
  {
    seq(m, k requires 0 <= k < m => Backup(Dests(plan)[k], t))
  }

  ghost predicate Minus(files: Files, files': Files, paths: seq<Path>) {
    forall p :: Lookup(files', p) == if p in paths then None else Lookup(files, p)
  }

  /** The first m destinations, as far as they were there, hold their old contents again. */
  ghost predicate Restored(was: Files, plan: Plan, t: string, m: nat, files: Files, files': Files)
    requires m <= |Dests(plan)|
  {
    forall p :: Lookup(files', p) == if p in Dests(plan)[..m] && p in was then Lookup(was, p)
                                     else if p in BackupNames(plan, t, m) then None else Lookup(files, p)
  }

  /** Leftovers belong to copies that were never recorded as staged. */
  ghost predicate LeakOk(plan: Plan, t: string, n: nat, leak: Files) {
    forall p | p in leak :: exists i | n <= i < |plan.copies| :: p == Temp(plan.copies[i].1, t)
  }

  lemma MembersMarked(plan: Plan, t: string, n: nat, m: nat)
    requires n <= |plan.copies| && m <= |Dests(plan)|
    ensures forall p | p in TempNames(plan, t, n) :: Marked(p, t)
    ensures forall p | p in BackupNames(plan, t, m) :: Marked(p, t)
  {
    AllNames(t);
  }

  lemma RollbackUnmarked(was: Files, plan: Plan, t: string, g: Progress, p: Path)
    requires Setting(was, plan, t) && ProgressOk(plan, g) && (g.m > 0 ==> g.n == |plan.copies|) && !Marked(p, t)
    ensures (if p in Dests(plan)[..g.m] && p in was then Lookup(was, p)
             else if p in CopyDests(plan.copies)[..g.n] then None else Visible(was, plan, g, p))
         == if Lost(plan, g.n, g.m, p) then None else Lookup(was, p)
  {
    hide Marked, Setting;
    var copied, dests := CopyDests(plan.copies), Dests(plan);
    assert p in copied[..g.r] ==> p in copied[..g.n];
    assert p in copied[..g.n] ==> p in dests;
    if g.m == |dests| {
      assert dests[..g.m] == dests;
    }
  }

  lemma RollbackMarked(was: Files, plan: Plan, t: string, g: Progress, leak: Files, files: Files, p: Path)
    requires Underway(was, plan, t, g, leak, files) && LeakOk(plan, t, g.n, leak) && Marked(p, t)
    ensures (if p in TempNames(plan, t, g.n) || p in BackupNames(plan, t, g.m) then None else Lookup(files, p))
         == Lookup(leak, p)
  {
    var temps, backups := TempNames(plan, t, g.n), BackupNames(plan, t, g.m);
    if p in leak {
      LeakSurvives(was, plan, t, g, leak, files, p);
    } else if p in files {
      assert Ours(plan, t, p);
      if i :| 0 <= i < |plan.copies| && p == Temp(plan.copies[i].1, t) {
        assert i < g.n ==> temps[i] == p;
      } else {
        var k :| 0 <= k < |Dests(plan)| && p == Backup(Dests(plan)[k], t);
        assert k < g.m ==> backups[k] == p;
      }
    }
  }

  lemma LeakSurvives(was: Files, plan: Plan, t: string, g: Progress, leak: Files, files: Files, p: Path)
    requires Underway(was, plan, t, g, leak, files) && LeakOk(plan, t, g.n, leak) && p in leak
    ensures p !in TempNames(plan, t, g.n) && p !in BackupNames(plan, t, g.m) && Lookup(files, p) == Some(leak[p])
  {
    AllNames(t);
    hide Temp, Backup, Marked, UnmarkedOk, SourcesThere, OursOnly, BackupsOk;
    var i :| g.n <= i < |plan.copies| && p == Temp(plan.copies[i].1, t);
    OtherDests(plan, i);
    assert Lookup(files, p) == Lookup(leak, p);
  }

  lemma DestsUnmarked(was: Files, plan: Plan, t: string, p: Path)
    requires Setting(was, plan, t) && Marked(p, t)
    ensures p !in was && p !in Dests(plan) && p !in CopyDests(plan.copies)
    ensures forall m | 0 <= m <= |Dests(plan)| :: p !in Dests(plan)[..m]
    ensures forall n | 0 <= n <= |plan.copies| :: p !in CopyDests(plan.copies)[..n]
  {
    hide Marked;
    assert forall d | d in CopyDests(plan.copies) :: d in Dests(plan);
  }

  /** The rollback and the cleanup together. */
  lemma RollbackResult(was: Files, plan: Plan, t: string, g: Progress, leak: Files,
                       f0: Files, f1: Files, f2: Files, f3: Files, f4: Files)
    requires Underway(was, plan, t, g, leak, f0) && LeakOk(plan, t, g.n, leak) && (g.m > 0 ==> g.n == |plan.copies|)
    requires Minus(f0, f1, CopyDests(plan.copies)[..g.n]) && Restored(was, plan, t, g.m, f1, f2)
    requires Minus(f2, f3, TempNames(plan, t, g.n)) && Minus(f3, f4, BackupNames(plan, t, g.m))
    ensures RolledBack(was, plan, g.n, g.m, leak, f4)
  {
    MembersMarked(plan, t, g.n, g.m);
    hide Marked, Setting, Visible, TempsOk, BackupsOk, OursOnly, SourcesThere, TempNames, BackupNames, Dests, CopyDests;
    forall p
      ensures Lookup(f4, p) == if p in leak then Some(leak[p]) else if Lost(plan, g.n, g.m, p) then None
              else Lookup(was, p)
    {
      if Marked(p, t) {
        RollbackMarked(was, plan, t, g, leak, f0, p);
        DestsUnmarked(was, plan, t, p);
      } else {
        RollbackUnmarked(was, plan, t, g, p);
        LeakMarked(plan, t, g.n, leak, p);
      }
    }
  }

  lemma LeakMarked(plan: Plan, t: string, n: nat, leak: Files, p: Path)
    requires LeakOk(plan, t, n, leak) && !Marked(p, t)
    ensures p !in leak
  {
    AllNames(t);
    hide Temp, Marked;
  }

  /** The cleanup after a success. */
  lemma SuccessResult(was: Files, plan: Plan, t: string, f0: Files, f1: Files, f2: Files)
    requires Underway(was, plan, t, Progress(|plan.copies|, |Dests(plan)|, |plan.copies|), map[], f0)
    requires Minus(f0, f1, TempNames(plan, t, |plan.copies|)) && Minus(f1, f2, BackupNames(plan, t, |Dests(plan)|))
    ensures AllReplaced(was, plan, f2)
  {
    var g := Progress(|plan.copies|, |Dests(plan)|, |plan.copies|);
    MembersMarked(plan, t, g.n, g.m);
    assert plan.copies[..g.r] == plan.copies && Dests(plan)[..g.m] == Dests(plan);
    assert CopyDests(plan.copies)[..g.r] == CopyDests(plan.copies);
    hide Marked, TempsOk, BackupsOk, OursOnly, SourcesThere, TempNames, BackupNames, Brought, CopyDests, Distinct;
    forall p
      ensures Lookup(f2, p) == if p in CopyDests(plan.copies) then Brought(was, plan.copies, p)
                               else if p in plan.removals then None else Lookup(was, p)
    {
      if Marked(p, t) {
        RollbackMarked(was, plan, t, g, map[], f0, p);
        DestsUnmarked(was, plan, t, p);
      }
    }
  }

  // ---------- outcomes ----------

  predicate StageFails(was: Files, plan: Plan, fault: Fault, i: nat)
    requires i < |plan.copies|
  {
    plan.copies[i].0 !in was || (fault.InStage? && fault.at == i)
  }

  /** How the transaction ends once everything is staged. */
  function LaterOutcome(plan: Plan, fault: Fault): Outcome {
    match fault
    case InBackup(k, caught) => if k >= |Dests(plan)| then Replaced else if caught then BackupFailed(k) else Interrupted
    case AfterMove(k) => if k >= |Dests(plan)| then Replaced else Interrupted
    case InInstall(k, caught) =>
      if k >= |plan.copies| then Replaced else if caught then InstallFailed(k) else Interrupted
    case InValidation(caught) => if caught then ValidationFailed else Interrupted
    case _ => Replaced
  }

  ghost predicate StagedUpTo(was: Files, plan: Plan, fault: Fault, n: nat)
    requires n <= |plan.copies|
  {
    forall i: nat | i < n :: !StageFails(was, plan, fault, i)
  }

  /** The map from destinations to backups records exactly the destinations that were there. */
  ghost predicate Records(was: Files, plan: Plan, t: string, m: nat, backups: map<Path, Path>)
    requires m <= |Dests(plan)|
  {
    forall k | 0 <= k < m ::
      && (Dests(plan)[k] in backups <==> Dests(plan)[k] in was)
      && (Dests(plan)[k] in backups ==> backups[Dests(plan)[k]] == Backup(Dests(plan)[k], t))
  }

  ghost predicate Unrecorded(plan: Plan, m: nat, backups: map<Path, Path>) {
    forall k | m <= k < |Dests(plan)| :: Dests(plan)[k] !in backups
  }

  lemma DestsDistinct(was: Files, plan: Plan, t: string, g: Progress, leak: Files, files: Files)
    requires Underway(was, plan, t, g, leak, files)
    ensures Distinct(Dests(plan))
  {
  }

  lemma NoneRecorded(was: Files, plan: Plan, t: string)
    ensures Records(was, plan, t, 0, map[]) && Unrecorded(plan, 0, map[])
  {
  }

  lemma RecordStep(was: Files, plan: Plan, t: string, m: nat, backups: map<Path, Path>)
    requires m < |Dests(plan)| && Distinct(Dests(plan))
    requires Records(was, plan, t, m, backups) && Unrecorded(plan, m, backups)
    ensures var d := Dests(plan)[m]; var backups' := Recorded(backups, d, t, d in was);
            Records(was, plan, t, m + 1, backups') && Unrecorded(plan, m + 1, backups')
  {
    hide Backup, Dests;
  }

  ghost predicate BackupsThere(was: Files, plan: Plan, t: string, m: nat, files: Files)
    requires m <= |Dests(plan)|
  {
    forall k | 0 <= k < m :: Lookup(files, Backup(Dests(plan)[k], t)) == Lookup(was, Dests(plan)[k])
  }

  lemma RestoreNames(was: Files, plan: Plan, t: string, v: nat)
    requires v < |Dests(plan)| && Setting(was, plan, t)
    ensures var d := Dests(plan)[v];
            && d !in Dests(plan)[..v] && d !in BackupNames(plan, t, v) && Backup(d, t) != d
            && Backup(d, t) !in Dests(plan)[..v] && Backup(d, t) !in BackupNames(plan, t, v)
            && Dests(plan)[..v + 1] == Dests(plan)[..v] + [d]
            && BackupNames(plan, t, v + 1) == BackupNames(plan, t, v) + [Backup(d, t)]
  {
    AllNames(t);
    var d := Dests(plan)[v];
    assert d in Dests(plan) && !Marked(d, t);
    BackupNotEarlier(plan, t, v);
    MembersMarked(plan, t, 0, v);
    assert forall p | p in Dests(plan)[..v] :: p in Dests(plan);
    hide Backup, Marked;
  }

  lemma RestoreStep(was: Files, plan: Plan, t: string, v: nat, f1: Files, files: Files)
    requires v < |Dests(plan)| && Setting(was, plan, t) && BackupsThere(was, plan, t, v + 1, f1)
    requires Restored(was, plan, t, v, f1, files)
    ensures var d := Dests(plan)[v];
            && (d in was <==> Backup(d, t) in files)
            && Restored(was, plan, t, v + 1, f1, if d in was then Renamed(files, Backup(d, t), d) else files)
  {
    RestoreNames(was, plan, t, v);
    hide Temp, Backup, Marked, Renamed, BackupNames, Dests, Setting;
    var d := Dests(plan)[v];
    assert Lookup(files, Backup(d, t)) == Lookup(was, d);
    if d in was {
      RenamedLookup(files, Backup(d, t), d);
    }
  }

  lemma BackupNotEarlier(plan: Plan, t: string, v: nat)
    requires v < |Dests(plan)| && Distinct(Dests(plan))
    ensures Backup(Dests(plan)[v], t) !in BackupNames(plan, t, v)
  {
    AllNames(t);
    hide Backup;
  }

  // ---------- as it is programmed ----------

  class FileStore {
    var files: Files

    constructor (files: Files)
      ensures this.files == files
    {
      this.files := files;
    }

    method Unlink(p: Path)
      requires p in files
      modifies this
      ensures files == old(files) - {p}
    {
      files := files - {p};
    }

    method Write(p: Path, content: Content)
      modifies this
      ensures files == old(files)[p := content]
    {
      files := files[p := content];
    }

    method Rename(from: Path, to: Path)
      requires from in files
      modifies this
      ensures files == Renamed(old(files), from, to)
    {
      files := Renamed(files, from, to);
    }

    method UnlinkAll(paths: seq<Path>)
      modifies this
      ensures Minus(old(files), files, paths)
    {
      for i := 0 to |paths|
        invariant Minus(old(files), files, paths[..i])
      {
        if paths[i] in files {
          Unlink(paths[i]);
        }
        assert paths[..i + 1] == paths[..i] + [paths[i]];
      }
      assert paths[..|paths|] == paths;
    }

    /** Copy every source to its temporary name. */
    method Stage(plan: Plan, t: string, fault: Fault) returns (staged: nat, failed: bool, missing: bool)
      requires Setting(files, plan, t)
      modifies this
      ensures staged <= |plan.copies| && StagedUpTo(old(files), plan, fault, staged)
      ensures failed <==> staged < |plan.copies|
      ensures failed ==> StageFails(old(files), plan, fault, staged)
      ensures missing <==> failed && plan.copies[staged].0 !in old(files)
      ensures Underway(old(files), plan, t, Progress(staged, 0, 0), Leak(old(files), plan, t, staged, fault), files)
    {
      ghost var was := files;
      Begins(was, plan, t);
      hide Underway, Temp;
      staged := 0;
      while staged < |plan.copies|
        invariant staged <= |plan.copies| && StagedUpTo(was, plan, fault, staged)
        invariant Underway(was, plan, t, Progress(staged, 0, 0), map[], files)
      {
        var (source, destination) := plan.copies[staged];
        var temporary := Temp(destination, t);
        SourceUntouched(was, plan, t, staged, files);
        if source !in files {
          return staged, true, true;
        }
        if fault.InStage? && fault.at == staged {
          match fault.copy {
            case Before =>
            case Partial(written) =>
              LeakStep(was, plan, t, staged, written, files);
              Write(temporary, written);
            case After =>
              LeakStep(was, plan, t, staged, files[source], files);
              Write(temporary, files[source]);
          }
          return staged, true, false;
        }
        StageStep(was, plan, t, staged, files);
        Write(temporary, files[source]);
        staged := staged + 1;
      }
      failed, missing := false, false;
    }

    /** One destination moved aside; `backups'` is what the record becomes. */
    method MoveOne(plan: Plan, t: string, moved: nat, backups: map<Path, Path>, ghost was: Files)
      returns (backups': map<Path, Path>)
      requires moved < |Dests(plan)| && Underway(was, plan, t, Progress(|plan.copies|, moved, 0), map[], files)
      requires Records(was, plan, t, moved, backups) && Unrecorded(plan, moved, backups)
      modifies this
      ensures Underway(was, plan, t, Progress(|plan.copies|, moved + 1, 0), map[], files)
      ensures Records(was, plan, t, moved + 1, backups') && Unrecorded(plan, moved + 1, backups')
    {
      BackupStep(was, plan, t, moved, files);
      DestsDistinct(was, plan, t, Progress(|plan.copies|, moved, 0), map[], files);
      RecordStep(was, plan, t, moved, backups);
      hide Underway, Records, Unrecorded, Dests, Backup, Renamed, Distinct;
      var d := Dests(plan)[moved];
      backups' := backups;
      if d in files {
        Rename(d, Backup(d, t));
        backups' := backups[d := Backup(d, t)];
      }
    }

    /** Move every destination that is there to its backup name. */
    method MoveAside(plan: Plan, t: string, fault: Fault, ghost was: Files)
      returns (moved: nat, backups: map<Path, Path>, failed: bool)
      requires Underway(was, plan, t, Progress(|plan.copies|, 0, 0), map[], files)
      modifies this
      ensures moved <= |Dests(plan)| && Records(was, plan, t, moved, backups)
      ensures failed && fault.AfterMove? ==> Underway(was, plan, t, Progress(|plan.copies|, moved + 1, 0), map[], files)
      ensures !(failed && fault.AfterMove?) ==> Underway(was, plan, t, Progress(|plan.copies|, moved, 0), map[], files)
      ensures failed <==> moved < |Dests(plan)|
      ensures failed ==> fault == AfterMove(moved) || (fault.InBackup? && fault.at == moved)
      ensures !failed && (fault.InBackup? || fault.AfterMove?) ==> fault.at >= |Dests(plan)|
    {
      NoneRecorded(was, plan, t);
      hide *;
      moved, backups := 0, map[];
      while moved < |Dests(plan)|
        invariant moved <= |Dests(plan)| && Records(was, plan, t, moved, backups)
        invariant Underway(was, plan, t, Progress(|plan.copies|, moved, 0), map[], files)
        invariant Unrecorded(plan, moved, backups)
        invariant fault.InBackup? || fault.AfterMove? ==> fault.at >= moved
      {
        if fault.InBackup? && fault.at == moved {
          return moved, backups, true;
        }
        var noted := MoveOne(plan, t, moved, backups, was);
        if fault == AfterMove(moved) {
          return moved, backups, true;
        }
        backups := noted;
        moved := moved + 1;
      }
      failed := false;
    }

    /** Move every temporary file to its destination. */
    method Install(plan: Plan, t: string, fault: Fault, ghost was: Files) returns (installed: nat, failed: bool)
      requires Underway(was, plan, t, Progress(|plan.copies|, |Dests(plan)|, 0), map[], files)
      modifies this
      ensures installed <= |plan.copies|
      ensures Underway(was, plan, t, Progress(|plan.copies|, |Dests(plan)|, installed), map[], files)
      ensures failed <==> installed < |plan.copies|
      ensures failed ==> fault.InInstall? && fault.at == installed
      ensures !failed && fault.InInstall? ==> fault.at >= |plan.copies|
    {
      hide Underway, Renamed, Temp, Dests;
      installed := 0;
      while installed < |plan.copies|
        invariant installed <= |plan.copies|
        invariant Underway(was, plan, t, Progress(|plan.copies|, |Dests(plan)|, installed), map[], files)
        invariant fault.InInstall? ==> fault.at >= installed
      {
        if fault.InInstall? && fault.at == installed {
          return installed, true;
        }
        InstallStep(was, plan, t, installed, files);
        var d := plan.copies[installed].1;
        Rename(Temp(d, t), d);
        installed := installed + 1;
      }
      failed := false;
    }

    method Restore(plan: Plan, t: string, moved: nat, backups: map<Path, Path>, ghost was: Files)
      requires moved <= |Dests(plan)| && Setting(was, plan, t)
      requires Records(was, plan, t, moved, backups) && BackupsThere(was, plan, t, moved, files)
      modifies this
      ensures Restored(was, plan, t, moved, old(files), files)
    {
      ghost var f1 := files;
      hide Dests, Backup, Renamed, Setting;
      for k := 0 to moved
        invariant Restored(was, plan, t, k, f1, files)
      {
        RestoreStep(was, plan, t, k, f1, files);
        var d := Dests(plan)[k];
        if d in backups && backups[d] in files {
          Rename(backups[d], d);
        }
      }
    }

    /** The backups that were recorded and are still there. */
    method CleanBackups(plan: Plan, t: string, moved: nat, backups: map<Path, Path>, ghost was: Files)
      requires moved <= |Dests(plan)| && Records(was, plan, t, moved, backups)
      requires forall k | 0 <= k < moved && Dests(plan)[k] !in was :: Lookup(files, Backup(Dests(plan)[k], t)) == None
      modifies this
      ensures Minus(old(files), files, BackupNames(plan, t, moved))
    {
      ghost var f1 := files;
      hide Dests, Backup;
      for k := 0 to moved
        invariant Minus(f1, files, BackupNames(plan, t, k))
      {
        var d := Dests(plan)[k];
        assert BackupNames(plan, t, k + 1) == BackupNames(plan, t, k) + [Backup(d, t)];
        if d in backups && backups[d] in files {
          Unlink(backups[d]);
        }
      }
    }

    /** The except branch, then the finally branch. */
    method RollBack(plan: Plan, t: string, staged: nat, moved: nat, backups: map<Path, Path>,
                    ghost was: Files, ghost installed: nat, ghost leak: Files)
      requires Underway(was, plan, t, Progress(staged, moved, installed), leak, files)
      requires LeakOk(plan, t, staged, leak) && (moved > 0 ==> staged == |plan.copies|)
      requires Records(was, plan, t, moved, backups)
      modifies this
      ensures RolledBack(was, plan, staged, moved, leak, files)
    {
      ghost var g, f0 := Progress(staged, moved, installed), files;
      UnlinkAll(CopyDests(plan.copies)[..staged]);
      ghost var f1 := files;
      BackupsSurvive(was, plan, t, g, leak, f0, f1);
      Restore(plan, t, moved, backups, was);
      ghost var f2 := files;
      UnlinkAll(TempNames(plan, t, staged));
      ghost var f3 := files;
      NoBackupsLeft(was, plan, t, moved, staged, f1, f2, f3);
      hide Underway, Restored, Minus, LeakOk, Setting, Records, BackupsThere;
      CleanBackups(plan, t, moved, backups, was);
      RollbackResult(was, plan, t, g, leak, f0, f1, f2, f3, files);
    }

    /** The finally branch alone: what an interrupt is followed by. */
    method CleanUp(plan: Plan, t: string, fault: Fault, staged: nat, moved: nat, backups: map<Path, Path>,
                   ghost was: Files)
      requires !fault.NoFault? && InterruptedHere(was, plan, t, fault, staged, moved, files)
      requires Records(was, plan, t, moved, backups)
      modifies this
      ensures Left(was, plan, t, fault, files)
      ensures files == was <==>
              Kept(was, plan, t, fault) == map[] && Unharmed(was, plan, InterruptedAt(plan, fault))
    {
      ghost var f0 := files;
      UnlinkAll(TempNames(plan, t, staged));
      ghost var f1 := files;
      UnrecordedAbsent(was, plan, t, fault, staged, moved, f0, f1);
      hide InterruptedHere, Left, Minus, Unharmed, Kept;
      CleanBackups(plan, t, moved, backups, was);
      LeftResult(was, plan, t, fault, staged, moved, f0, f1, files);
      InterruptExactIff(was, plan, t, fault, files);
    }

    /**
     The whole transaction. A success replaces everything and leaves no temporary or backup file. An Exception while
     installing or validating restores the files exactly; an earlier one loses exactly the destinations that were
     staged, there, and not yet moved aside, and leaves the temporary file of a copy that failed half-way. An interrupt
     undoes nothing, and the backups recorded so far are deleted.
     */
    method ReplaceFileSet(plan: Plan, t: string, fault: Fault) returns (outcome: Outcome)
      requires FreshMark(files, plan, t)
      modifies this
      ensures outcome.Duplicates? <==> !Distinct(Dests(plan))
      ensures outcome.Duplicates? ==> files == old(files)
      ensures outcome.Replaced? ==> AllReplaced(old(files), plan, files)
      ensures outcome.InstallFailed? ==> files == old(files) && fault == InInstall(outcome.installed, true)
      ensures outcome.ValidationFailed? ==> files == old(files) && fault == InValidation(true)
      ensures outcome.StageFailed? ==>
                && outcome.staged < |plan.copies| && StageFails(old(files), plan, fault, outcome.staged)
                && StagedUpTo(old(files), plan, fault, outcome.staged)
                && RolledBack(old(files), plan, outcome.staged, 0, Leak(old(files), plan, t, outcome.staged, fault),
                              files)
                && (files == old(files) <==> StageLeavesNoTrace(old(files), plan, fault, outcome.staged))
      ensures outcome.BackupFailed? ==>
                && outcome.moved < |Dests(plan)| && fault == InBackup(outcome.moved, true)
                && RolledBack(old(files), plan, |plan.copies|, outcome.moved, map[], files)
                && (files == old(files) <==>
                      forall i | outcome.moved <= i < |plan.copies| :: plan.copies[i].1 !in old(files))
      ensures outcome.Interrupted? ==>
                && !Caught(fault) && ProgressOk(plan, InterruptedAt(plan, fault))
                && Left(old(files), plan, t, fault, files)
                && (files == old(files) <==>
                      && Kept(old(files), plan, t, fault) == map[]
                      && Unharmed(old(files), plan, InterruptedAt(plan, fault)))
      ensures outcome.Duplicates? || outcome.StageFailed? || (outcome.Interrupted? && fault.InStage?)
              || StagedUpTo(old(files), plan, fault, |plan.copies|)
      ensures fault.NoFault? && Distinct(Dests(plan)) && (forall c | c in plan.copies :: c.0 in old(files))
              ==> outcome.Replaced?
      ensures Distinct(Dests(plan)) && StagedUpTo(old(files), plan, fault, |plan.copies|)
              ==> outcome == LaterOutcome(plan, fault)
    {
      ghost var was := files;
      hide StageLeavesNoTrace, RolledBack, LeakOk, Records, Minus, AllReplaced, Leak, Left, Unharmed, Kept;
      var distinct := AllDistinct(Dests(plan));
      if !distinct {
        return Duplicates;
      }
      var staged, failed, missing := Stage(plan, t, fault);
      if failed {
        NoneRecorded(was, plan, t);
        LeakIsOurs(was, plan, t, staged, fault);
        if !missing && !fault.caught {
          InterruptedInStage(was, plan, t, fault, files);
          CleanUp(plan, t, fault, staged, 0, map[], was);
          return Interrupted;
        }
        RollBack(plan, t, staged, 0, map[], was, 0, Leak(was, plan, t, staged, fault));
        StageFailureExactIff(was, plan, t, staged, fault, files);
        return StageFailed(staged);
      }
      outcome := MoveAndInstall(plan, t, fault, was);
    }

    /** Everything after staging. */
    method MoveAndInstall(plan: Plan, t: string, fault: Fault, ghost was: Files) returns (outcome: Outcome)
      requires Underway(was, plan, t, Progress(|plan.copies|, 0, 0), map[], files)
      requires StagedUpTo(was, plan, fault, |plan.copies|)
      modifies this
      ensures !outcome.Duplicates? && !outcome.StageFailed?
      ensures outcome.Replaced? ==> AllReplaced(was, plan, files)
      ensures outcome.InstallFailed? ==> files == was && fault == InInstall(outcome.installed, true)
      ensures outcome.ValidationFailed? ==> files == was && fault == InValidation(true)
      ensures outcome.BackupFailed? ==>
                && outcome.moved < |Dests(plan)| && fault == InBackup(outcome.moved, true)
                && RolledBack(was, plan, |plan.copies|, outcome.moved, map[], files)
                && (files == was <==> forall i | outcome.moved <= i < |plan.copies| :: plan.copies[i].1 !in was)
      ensures outcome.Interrupted? ==>
                && !Caught(fault) && ProgressOk(plan, InterruptedAt(plan, fault)) && Left(was, plan, t, fault, files)
                && (files == was <==>
                      Kept(was, plan, t, fault) == map[] && Unharmed(was, plan, InterruptedAt(plan, fault)))
      ensures outcome == LaterOutcome(plan, fault)
    {
      hide RolledBack, LeakOk, Records, Minus, AllReplaced, Left, Unharmed, Kept, Underway, StagedUpTo;
      SettingOf(was, plan, t, Progress(|plan.copies|, 0, 0), map[], files);
      hide Setting;
      var moved, backups, stuck := MoveAside(plan, t, fault, was);
      if stuck {
        if !Caught(fault) {
          InterruptedInBackup(was, plan, t, fault, moved, files);
          CleanUp(plan, t, fault, |plan.copies|, moved, backups, was);
          return Interrupted;
        }
        NoLeak(plan, t);
        RollBack(plan, t, |plan.copies|, moved, backups, was, 0, map[]);
        BackupFailureExactIff(was, plan, t, moved, files);
        return BackupFailed(moved);
      }
      var installed, broken := Install(plan, t, fault, was);
      if broken || fault.InValidation? {
        if !fault.caught {
          InterruptedLater(was, plan, t, fault, installed, files);
          CleanUp(plan, t, fault, |plan.copies|, moved, backups, was);
          return Interrupted;
        }
        NoLeak(plan, t);
        RollBack(plan, t, |plan.copies|, moved, backups, was, installed, map[]);
        NothingLost(was, plan, files);
        return if broken then InstallFailed(installed) else ValidationFailed;
      }
      Finish(plan, t, moved, backups, was);
      return Replaced;
    }

    /** The finally branch after a success. */
    method Finish(plan: Plan, t: string, moved: nat, backups: map<Path, Path>, ghost was: Files)
      requires Underway(was, plan, t, Progress(|plan.copies|, |Dests(plan)|, |plan.copies|), map[], files)
      requires moved == |Dests(plan)| && Records(was, plan, t, moved, backups)
      modifies this
      ensures AllReplaced(was, plan, files)
    {
      hide Underway, Records, Minus, AllReplaced;
      ghost var f0 := files;
      UnlinkAll(TempNames(plan, t, |plan.copies|));
      ghost var f1 := files;
      BackupsAbsent(was, plan, t, Progress(|plan.copies|, |Dests(plan)|, |plan.copies|), map[], moved, f0, f1);
      CleanBackups(plan, t, moved, backups, was);
      SuccessResult(was, plan, t, f0, f1, files);
    }
  }

  // ---------- interrupts ----------

  /** The state in which an interrupt finds the files, with so many copies staged and moves recorded. */
  ghost predicate InterruptedHere(was: Files, plan: Plan, t: string, fault: Fault, staged: nat, moved: nat,
                                  files: Files) {
    var g := InterruptedAt(plan, fault);
    var leak := if fault.InStage? then Leak(was, plan, t, fault.at, fault) else map[];
    && ProgressOk(plan, g) && staged == g.n && g.m == (if fault.AfterMove? then moved + 1 else moved)
    && Underway(was, plan, t, g, leak, files) && LeakOk(plan, t, g.n, leak)
  }

  lemma SettingOf(was: Files, plan: Plan, t: string, g: Progress, leak: Files, files: Files)
    requires Underway(was, plan, t, g, leak, files)
    ensures Setting(was, plan, t)
  {
  }

  lemma InterruptedInStage(was: Files, plan: Plan, t: string, fault: Fault, files: Files)
    requires fault.InStage? && fault.at <= |plan.copies|
    requires Underway(was, plan, t, Progress(fault.at, 0, 0), Leak(was, plan, t, fault.at, fault), files)
    requires LeakOk(plan, t, fault.at, Leak(was, plan, t, fault.at, fault))
    ensures InterruptedHere(was, plan, t, fault, fault.at, 0, files)
  {
    hide Underway, LeakOk, Leak;
  }

  lemma InterruptedInBackup(was: Files, plan: Plan, t: string, fault: Fault, moved: nat, files: Files)
    requires moved < |Dests(plan)| && (fault == AfterMove(moved) || (fault.InBackup? && fault.at == moved))
    requires fault.AfterMove? ==> Underway(was, plan, t, Progress(|plan.copies|, moved + 1, 0), map[], files)
    requires fault.InBackup? ==> Underway(was, plan, t, Progress(|plan.copies|, moved, 0), map[], files)
    ensures InterruptedHere(was, plan, t, fault, |plan.copies|, moved, files)
  {
    NoLeak(plan, t);
    hide Underway, LeakOk;
  }

  lemma InterruptedLater(was: Files, plan: Plan, t: string, fault: Fault, installed: nat, files: Files)
    requires installed <= |plan.copies|
    requires Underway(was, plan, t, Progress(|plan.copies|, |Dests(plan)|, installed), map[], files)
    requires (fault.InInstall? && fault.at == installed) || (fault.InValidation? && installed == |plan.copies|)
    ensures InterruptedHere(was, plan, t, fault, |plan.copies|, |Dests(plan)|, files)
  {
    NoLeak(plan, t);
    hide Underway, LeakOk;
  }

  lemma BackupsAbsent(was: Files, plan: Plan, t: string, g: Progress, leak: Files, moved: nat, f0: Files, f1: Files)
    requires Underway(was, plan, t, g, leak, f0) && moved <= g.m && Minus(f0, f1, TempNames(plan, t, g.n))
    ensures forall k | 0 <= k < moved && Dests(plan)[k] !in was :: Lookup(f1, Backup(Dests(plan)[k], t)) == None
  {
    hide UnmarkedOk, TempsOk, OursOnly, Setting;
  }

  lemma UnrecordedAbsent(was: Files, plan: Plan, t: string, fault: Fault, staged: nat, moved: nat, f0: Files, f1: Files)
    requires InterruptedHere(was, plan, t, fault, staged, moved, f0) && Minus(f0, f1, TempNames(plan, t, staged))
    ensures forall k | 0 <= k < moved && Dests(plan)[k] !in was :: Lookup(f1, Backup(Dests(plan)[k], t)) == None
  {
    hide Underway, Minus, LeakOk;
    BackupsAbsent(was, plan, t, InterruptedAt(plan, fault),
                  if fault.InStage? then Leak(was, plan, t, fault.at, fault) else map[], moved, f0, f1);
  }

  lemma AfterMoveMarked(was: Files, plan: Plan, t: string, m: nat, files: Files, p: Path)
    requires m < |Dests(plan)| && Marked(p, t)
    requires Underway(was, plan, t, Progress(|plan.copies|, m + 1, 0), map[], files)
    ensures (if p in TempNames(plan, t, |plan.copies|) || p in BackupNames(plan, t, m) then None else Lookup(files, p))
         == Lookup(Kept(was, plan, t, AfterMove(m)), p)
  {
    var b := Backup(Dests(plan)[m], t);
    NoLeak(plan, t);
    RollbackMarked(was, plan, t, Progress(|plan.copies|, m + 1, 0), map[], files, p);
    BackupNotEarlier(plan, t, m);
    BackupOf(was, plan, t, Progress(|plan.copies|, m + 1, 0), map[], files, m);
    AllNames(t);
    hide Underway, Marked, Temp, Backup;
    assert BackupNames(plan, t, m + 1) == BackupNames(plan, t, m) + [b];
    assert b !in TempNames(plan, t, |plan.copies|);
  }

  lemma BackupOf(was: Files, plan: Plan, t: string, g: Progress, leak: Files, files: Files, k: nat)
    requires Underway(was, plan, t, g, leak, files) && k < g.m
    ensures Lookup(files, Backup(Dests(plan)[k], t)) == Lookup(was, Dests(plan)[k])
  {
    hide UnmarkedOk, TempsOk, OursOnly, Setting;
  }

  lemma KeptIsMarked(was: Files, plan: Plan, t: string, fault: Fault, p: Path)
    requires p in Kept(was, plan, t, fault)
    ensures Marked(p, t)
  {
    AllNames(t);
    hide Marked, Temp, Backup;
  }

  lemma KeptIsNew(was: Files, plan: Plan, t: string, fault: Fault, p: Path)
    requires Setting(was, plan, t) && p in Kept(was, plan, t, fault)
    ensures Lookup(was, p) == None
  {
    KeptIsMarked(was, plan, t, fault, p);
    DestsUnmarked(was, plan, t, p);
    hide Kept, Setting;
  }

  lemma MarkedShowsNothing(was: Files, plan: Plan, t: string, g: Progress, p: Path)
    requires Setting(was, plan, t) && ProgressOk(plan, g) && Marked(p, t)
    ensures Visible(was, plan, g, p) == None
  {
    DestsUnmarked(was, plan, t, p);
    hide Setting, Marked;
  }

  lemma LeftMarked(was: Files, plan: Plan, t: string, fault: Fault, staged: nat, moved: nat, files: Files, p: Path)
    requires InterruptedHere(was, plan, t, fault, staged, moved, files) && Marked(p, t)
    ensures (if p in TempNames(plan, t, staged) || p in BackupNames(plan, t, moved) then None else Lookup(files, p))
         == Lookup(Kept(was, plan, t, fault), p)
  {
    hide Underway, Marked, LeakOk, Leak, TempNames, BackupNames;
    if fault.AfterMove? {
      AfterMoveMarked(was, plan, t, moved, files, p);
    } else {
      var leak := if fault.InStage? then Leak(was, plan, t, fault.at, fault) else map[];
      RollbackMarked(was, plan, t, InterruptedAt(plan, fault), leak, files, p);
    }
  }

  lemma SettingHere(was: Files, plan: Plan, t: string, fault: Fault, staged: nat, moved: nat, files: Files)
    requires InterruptedHere(was, plan, t, fault, staged, moved, files)
    ensures Setting(was, plan, t) && staged <= |plan.copies| && moved <= |Dests(plan)|
    ensures ProgressOk(plan, InterruptedAt(plan, fault))
  {
    hide LeakOk, Leak, UnmarkedOk, TempsOk, BackupsOk, OursOnly, SourcesThere;
  }

  /** The cleanup after an interrupt. */
  lemma LeftResult(was: Files, plan: Plan, t: string, fault: Fault, staged: nat, moved: nat,
                   f0: Files, f1: Files, f2: Files)
    requires staged <= |plan.copies| && moved <= |Dests(plan)|
    requires InterruptedHere(was, plan, t, fault, staged, moved, f0)
    requires Minus(f0, f1, TempNames(plan, t, staged)) && Minus(f1, f2, BackupNames(plan, t, moved))
    ensures ProgressOk(plan, InterruptedAt(plan, fault)) && Left(was, plan, t, fault, f2)
  {
    SettingHere(was, plan, t, fault, staged, moved, f0);
    hide InterruptedHere, Marked, Setting, TempNames, BackupNames, Visible, InterruptedAt, Kept, ProgressOk, Dests;
    var kept := Kept(was, plan, t, fault);
    MembersMarked(plan, t, staged, moved);
    UnmarkedOf(was, plan, t, fault, staged, moved, f0);
    forall p
      ensures Lookup(f2, p) == if p in kept then Some(kept[p]) else Visible(was, plan, InterruptedAt(plan, fault), p)
    {
      if Marked(p, t) {
        MarkedShowsNothing(was, plan, t, InterruptedAt(plan, fault), p);
        LeftMarked(was, plan, t, fault, staged, moved, f0, p);
      } else if p in kept {
        KeptIsMarked(was, plan, t, fault, p);
      }
    }
  }

  lemma UnmarkedOf(was: Files, plan: Plan, t: string, fault: Fault, staged: nat, moved: nat, files: Files)
    requires InterruptedHere(was, plan, t, fault, staged, moved, files)
    ensures ProgressOk(plan, InterruptedAt(plan, fault))
    ensures forall p | !Marked(p, t) :: Lookup(files, p) == Visible(was, plan, InterruptedAt(plan, fault), p)
  {
    hide TempsOk, BackupsOk, OursOnly, Setting, LeakOk, Leak, Visible, Marked;
  }

  /** What the first copies bring to one of their destinations. */
  lemma {:induction false} BroughtAt(was: Files, copies: seq<(Path, Path)>, i: nat)
    requires i < |copies| && Distinct(CopyDests(copies))
    ensures Brought(was, copies, copies[i].1) == Lookup(was, copies[i].0)
    decreases |copies|
  {
    var n := |copies| - 1;
    if i < n {
      assert CopyDests(copies)[i] != CopyDests(copies)[n];
      assert CopyDests(copies[..n]) == CopyDests(copies)[..n];
      BroughtAt(was, copies[..n], i);
    }
  }

  lemma VisibleInstalled(was: Files, plan: Plan, g: Progress, i: nat)
    requires ProgressOk(plan, g) && Distinct(Dests(plan)) && i < g.r
    ensures Visible(was, plan, g, plan.copies[i].1) == Lookup(was, plan.copies[i].0)
  {
    var first := plan.copies[..g.r];
    assert CopyDests(first) == CopyDests(plan.copies)[..g.r] && CopyDests(first)[i] == plan.copies[i].1;
    assert Distinct(CopyDests(first)) by {
      assert forall j | 0 <= j < g.r :: CopyDests(first)[j] == Dests(plan)[j];
    }
    BroughtAt(was, first, i);
  }

  lemma VisibleMoved(was: Files, plan: Plan, g: Progress, k: nat)
    requires ProgressOk(plan, g) && Distinct(Dests(plan)) && g.r <= k < g.m
    ensures Visible(was, plan, g, Dests(plan)[k]) == None
  {
    var d := Dests(plan)[k];
    assert Dests(plan)[..g.m][k] == d;
    assert forall j | 0 <= j < g.r :: CopyDests(plan.copies)[j] == Dests(plan)[j];
  }

  lemma FirstDests(plan: Plan, r: nat)
    requires r <= |plan.copies|
    ensures forall k | 0 <= k < r :: Dests(plan)[k] in CopyDests(plan.copies)[..r]
  {
    forall k | 0 <= k < r
      ensures Dests(plan)[k] in CopyDests(plan.copies)[..r]
    {
      assert CopyDests(plan.copies)[..r][k] == Dests(plan)[k];
    }
  }

  lemma UnharmedShowsAll(was: Files, plan: Plan, g: Progress, p: Path)
    requires ProgressOk(plan, g) && Distinct(Dests(plan)) && Unharmed(was, plan, g)
    ensures Visible(was, plan, g, p) == Lookup(was, p)
  {
    if p in CopyDests(plan.copies)[..g.r] {
      var i :| 0 <= i < g.r && CopyDests(plan.copies)[..g.r][i] == p;
      VisibleInstalled(was, plan, g, i);
    } else if p in Dests(plan)[..g.m] {
      var k :| 0 <= k < g.m && Dests(plan)[..g.m][k] == p;
      FirstDests(plan, g.r);
    }
  }

  /**
   An interrupt leaves the files as they were exactly when nothing stays under a marked name, each file already
   installed is what its destination held, and no other destination moved aside was there.
   */
  lemma InterruptExactIff(was: Files, plan: Plan, t: string, fault: Fault, files: Files)
    requires ProgressOk(plan, InterruptedAt(plan, fault)) && Setting(was, plan, t) && Left(was, plan, t, fault, files)
    ensures files == was <==>
            Kept(was, plan, t, fault) == map[] && Unharmed(was, plan, InterruptedAt(plan, fault))
  {
    var g, kept := InterruptedAt(plan, fault), Kept(was, plan, t, fault);
    if kept == map[] && Unharmed(was, plan, g) {
      forall p
        ensures Lookup(files, p) == Lookup(was, p)
      {
        UnharmedShowsAll(was, plan, g, p);
      }
      SameLookups(files, was);
    }
    if files == was {
      InterruptExact(was, plan, t, fault);
    }
  }

  lemma InterruptExact(was: Files, plan: Plan, t: string, fault: Fault)
    requires ProgressOk(plan, InterruptedAt(plan, fault)) && Setting(was, plan, t) && Left(was, plan, t, fault, was)
    ensures Kept(was, plan, t, fault) == map[] && Unharmed(was, plan, InterruptedAt(plan, fault))
  {
    var g, kept := InterruptedAt(plan, fault), Kept(was, plan, t, fault);
    forall p
      ensures p !in kept
    {
      if p in kept {
        KeptIsNew(was, plan, t, fault, p);
      }
    }
    hide Kept, Setting, Dests;
    forall i: nat | i < g.r
      ensures Lookup(was, plan.copies[i].1) == Lookup(was, plan.copies[i].0)
    {
      VisibleInstalled(was, plan, g, i);
    }
    forall k: nat | g.r <= k < g.m
      ensures Dests(plan)[k] !in was
    {
      VisibleMoved(was, plan, g, k);
      assert Lookup(was, Dests(plan)[k]) == None;
    }
  }

  lemma SourceUntouched(was: Files, plan: Plan, t: string, n: nat, files: Files)
    requires Underway(was, plan, t, Progress(n, 0, 0), map[], files) && n < |plan.copies|
    ensures Lookup(files, plan.copies[n].0) == Lookup(was, plan.copies[n].0)
  {
    assert plan.copies[n] in plan.copies;
    var source := plan.copies[n].0;
    assert Lookup(files, source) == Visible(was, plan, Progress(n, 0, 0), source);
  }

  method AllDistinct(s: seq<Path>) returns (distinct: bool)
    ensures distinct <==> Distinct(s)
  {
    var seen: set<Path> := {};
    for i := 0 to |s|
      invariant seen == set p | p in s[..i]
      invariant Distinct(s[..i])
    {
      if s[i] in seen {
        assert !Distinct(s);
        return false;
      }
      seen := seen + {s[i]};
      assert s[..i + 1] == s[..i] + [s[i]];
    }
    assert s[..|s|] == s;
    return true;
  }

  lemma BackupsSurvive(was: Files, plan: Plan, t: string, g: Progress, leak: Files, f0: Files, f1: Files)
    requires Underway(was, plan, t, g, leak, f0) && Minus(f0, f1, CopyDests(plan.copies)[..g.n])
    ensures BackupsThere(was, plan, t, g.m, f1)
  {
    AllNames(t);
    assert forall d | d in CopyDests(plan.copies) :: d in Dests(plan);
    hide Backup, Temp, Marked, UnmarkedOk, TempsOk, OursOnly;
  }

  lemma NoBackupsLeft(was: Files, plan: Plan, t: string, moved: nat, staged: nat, f1: Files, f2: Files, f3: Files)
    requires Setting(was, plan, t) && moved <= |Dests(plan)| && staged <= |plan.copies|
    requires Restored(was, plan, t, moved, f1, f2) && Minus(f2, f3, TempNames(plan, t, staged))
    ensures forall k | 0 <= k < moved :: Lookup(f3, Backup(Dests(plan)[k], t)) == None
  {
    AllNames(t);
    hide Backup, Temp, Marked;
    forall k | 0 <= k < moved
      ensures Lookup(f3, Backup(Dests(plan)[k], t)) == None
    {
      assert BackupNames(plan, t, moved)[k] in BackupNames(plan, t, moved);
    }
  }

  lemma LeakIsOurs(was: Files, plan: Plan, t: string, staged: nat, fault: Fault)
    requires staged <= |plan.copies|
    ensures LeakOk(plan, t, staged, Leak(was, plan, t, staged, fault))
  {
  }

  lemma NoLeak(plan: Plan, t: string)
    ensures LeakOk(plan, t, |plan.copies|, map[])
  {
  }

  /** Once every destination has been moved aside, the rollback is exact. */
  lemma NothingLost(was: Files, plan: Plan, files: Files)
    requires RolledBack(was, plan, |plan.copies|, |Dests(plan)|, map[], files)
    ensures files == was
  {
    assert Dests(plan)[..|Dests(plan)|] == Dests(plan);
    assert forall d | d in CopyDests(plan.copies) :: d in Dests(plan);
    SameLookups(files, was);
  }

  /**
   A failed transaction leaves the files as they were exactly when no staged destination was there without
   having been moved aside, and no half-made copy was left.
   */
  lemma RollbackExactIff(was: Files, plan: Plan, t: string, staged: nat, moved: nat, leak: Files, files: Files)
    requires staged <= |plan.copies| && moved <= |Dests(plan)| && Setting(was, plan, t)
    requires LeakOk(plan, t, staged, leak) && RolledBack(was, plan, staged, moved, leak, files)
    ensures files == was <==> leak == map[] && forall i | 0 <= i < staged :: plan.copies[i].1 in was ==>
                                                 plan.copies[i].1 in Dests(plan)[..moved]
  {
    AllNames(t);
    var copied := CopyDests(plan.copies);
    forall p | p in leak
      ensures p !in was && files != was
    {
      assert Marked(p, t);
      assert Lookup(files, p) == Some(leak[p]);
    }
    if i: nat :| i < staged && plan.copies[i].1 in was && plan.copies[i].1 !in Dests(plan)[..moved] {
      var d := plan.copies[i].1;
      assert copied[..staged][i] == d;
      assert Lookup(files, d) == None || d in leak;
    } else if leak == map[] {
      assert forall p | p in copied[..staged] && p in was :: p in Dests(plan)[..moved];
      SameLookups(files, was);
    }
  }

  predicate NothingWritten(was: Files, plan: Plan, fault: Fault, staged: nat)
    requires staged < |plan.copies|
  {
    plan.copies[staged].0 in was ==> fault.InStage? && fault.at == staged && fault.copy == Before
  }

  /** Copying failed before anything was written, and no destination of an earlier copy was there. */
  predicate StageLeavesNoTrace(was: Files, plan: Plan, fault: Fault, staged: nat)
    requires staged < |plan.copies|
  {
    && NothingWritten(was, plan, fault, staged)
    && forall i | 0 <= i < staged :: plan.copies[i].1 !in was
  }

  lemma StageFailureExactIff(was: Files, plan: Plan, t: string, staged: nat, fault: Fault, files: Files)
    requires staged < |plan.copies| && Setting(was, plan, t) && StageFails(was, plan, fault, staged)
    requires RolledBack(was, plan, staged, 0, Leak(was, plan, t, staged, fault), files)
    ensures files == was <==> StageLeavesNoTrace(was, plan, fault, staged)
  {
    LeakIsOurs(was, plan, t, staged, fault);
    RollbackExactIff(was, plan, t, staged, 0, Leak(was, plan, t, staged, fault), files);
    hide RolledBack, Setting;
    LeakOrNone(was, plan, t, staged, fault);
    hide Leak;
  }

  lemma LeakOrNone(was: Files, plan: Plan, t: string, staged: nat, fault: Fault)
    requires staged < |plan.copies| && StageFails(was, plan, fault, staged)
    ensures Leak(was, plan, t, staged, fault) == map[]
            <==> NothingWritten(was, plan, fault, staged)
  {
    var temp := Temp(plan.copies[staged].1, t);
    if !NothingWritten(was, plan, fault, staged) {
      assert temp in Leak(was, plan, t, staged, fault);
    }
  }

  lemma BackupFailureExactIff(was: Files, plan: Plan, t: string, moved: nat, files: Files)
    requires moved <= |Dests(plan)| && Setting(was, plan, t)
    requires RolledBack(was, plan, |plan.copies|, moved, map[], files)
    ensures files == was <==> forall i | moved <= i < |plan.copies| :: plan.copies[i].1 !in was
  {
    NoLeak(plan, t);
    RollbackExactIff(was, plan, t, |plan.copies|, moved, map[], files);
    hide RolledBack;
    forall i | 0 <= i < |plan.copies|
      ensures plan.copies[i].1 in Dests(plan)[..moved] <==> i < moved
    {
      DestAt(plan, i);
      if i < moved {
        assert Dests(plan)[..moved][i] == plan.copies[i].1;
      }
    }
  }

  const TWO_COPIES := Plan([("new.pcd", "map.pcd"), ("new.pickle", "map.pickle")], [])
  const OLD_PAIR: Files := map["new.pcd" := "new map", "new.pickle" := "new info",
                               "map.pcd" := "old map", "map.pickle" := "old info"]
  const HALF_PAIR: Files := map["new.pcd" := "new map", "new.pickle" := "new info", "map.pcd" := "new map"]

  lemma HalfInstalled(files: Files)
    requires Left(OLD_PAIR, TWO_COPIES, "#", InInstall(1, false), files)
    ensures files == HALF_PAIR
  {
    var g := Progress(2, 2, 1);
    assert Dests(TWO_COPIES) == ["map.pcd", "map.pickle"];
    assert CopyDests(TWO_COPIES.copies)[..1] == ["map.pcd"] && Dests(TWO_COPIES)[..2] == Dests(TWO_COPIES);
    VisibleInstalled(OLD_PAIR, TWO_COPIES, g, 0);
    hide Brought, Dests, CopyDests;
    forall p
      ensures Lookup(files, p) == Lookup(HALF_PAIR, p)
    {
      assert Lookup(files, p) == Visible(OLD_PAIR, TWO_COPIES, g, p);
    }
    SameLookups(files, HALF_PAIR);
  }

  lemma TwoCopiesFresh()
    ensures FreshMark(OLD_PAIR, TWO_COPIES, "#") && Distinct(Dests(TWO_COPIES))
    ensures StagedUpTo(OLD_PAIR, TWO_COPIES, InInstall(1, false), 2)
  {
    assert Dests(TWO_COPIES) == ["map.pcd", "map.pickle"];
  }

  /** An interrupt between two installs: the first file is the new one, the second is neither new nor old. */
  method LosesFileOnInterrupt() returns (store: FileStore, outcome: Outcome)
    ensures fresh(store) && outcome == Interrupted && store.files == HALF_PAIR
  {
    TwoCopiesFresh();
    hide FreshMark, Distinct, StagedUpTo, Left, Unharmed, Kept, AllReplaced, StageFails, StageLeavesNoTrace, RolledBack;
    store := new FileStore(OLD_PAIR);
    outcome := store.ReplaceFileSet(TWO_COPIES, "#", InInstall(1, false));
    HalfInstalled(store.files);
  }

  const ONE_SOURCE: Files := map["new.pcd" := "new map", "map.pcd" := "old map"]

  lemma FirstLost(files: Files)
    requires RolledBack(ONE_SOURCE, TWO_COPIES, 1, 0, map[], files)
    ensures files == map["new.pcd" := "new map"]
  {
    assert CopyDests(TWO_COPIES.copies)[..1] == ["map.pcd"];
    SameLookups(files, map["new.pcd" := "new map"]);
  }

  lemma OneSourceFails()
    ensures FreshMark(ONE_SOURCE, TWO_COPIES, "#") && Distinct(Dests(TWO_COPIES))
    ensures StageFails(ONE_SOURCE, TWO_COPIES, NoFault, 1) && !StageFails(ONE_SOURCE, TWO_COPIES, NoFault, 0)
    ensures Leak(ONE_SOURCE, TWO_COPIES, "#", 1, NoFault) == map[]
  {
    assert Dests(TWO_COPIES) == ["map.pcd", "map.pickle"];
  }

  /** The second source is missing: the first destination, there before, is gone after the rollback. */
  method LosesFirstDestination() returns (store: FileStore, outcome: Outcome)
    ensures fresh(store) && outcome == StageFailed(1)
    ensures "map.pcd" !in store.files && store.files == map["new.pcd" := "new map"]
  {
    OneSourceFails();
    hide FreshMark, Distinct, StageFails, Left, Unharmed, Kept, AllReplaced, StageLeavesNoTrace, RolledBack, Leak;
    store := new FileStore(ONE_SOURCE);
    outcome := store.ReplaceFileSet(TWO_COPIES, "#", NoFault);
    FirstLost(store.files);
  }
}
