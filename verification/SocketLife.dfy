/**
 The life of a daemon's socket: bind, reclaim, serve, drop - one system call at a time.

 The kernel is reduced to what the code can tell apart: a path names an inode or nothing, an inode is
 a socket or not, and a socket's listener is open or closed. Every system call may also fail for a
 reason of its own (`fault`). Process ids are positions in a sequence and are never reused.
 */
module SocketLife {
  import opened Prelude

  type Path = string

  datatype Kind = SocketNode | FileNode | DanglingLink

  datatype Inode = Inode(kind: Kind, listening: bool)

  datatype Fs = Fs(entries: map<Path, nat>, inodes: map<nat, Inode>, next: nat)

  datatype Syscall = Metadata | Remove | BindPath | Listen | Chmod

  datatype BindError = AlreadyActive | NotASocket | Unverifiable | Io(during: Syscall)

  ghost predicate WellFormed(fs: Fs) {
    && (forall p :: p in fs.entries ==> fs.entries[p] in fs.inodes)
    && (forall i :: i in fs.inodes ==> i < fs.next)
    && (forall i :: i in fs.inodes && fs.inodes[i].listening ==> fs.inodes[i].kind == SocketNode)
  }

  // ---------------------------------------------------------------------
  // System calls
  // ---------------------------------------------------------------------

  function NodeAt(fs: Fs, p: Path): Option<Inode> {
    if p in fs.entries && fs.entries[p] in fs.inodes then Some(fs.inodes[fs.entries[p]]) else None
  }

  /** `Path::exists` follows links, and reads any error as absence. */
  predicate Exists(fs: Fs, p: Path, fault: bool) {
    !fault && NodeAt(fs, p).Some? && NodeAt(fs, p).value.kind != DanglingLink
  }

  /** `symlink_metadata` does not follow links. */
  function Lstat(fs: Fs, p: Path, fault: bool): Option<Kind> {
    if fault || NodeAt(fs, p).None? then None else Some(NodeAt(fs, p).value.kind)
  }

  datatype Probe = Connected | ConnectionRefused | NotFound | OtherError

  /** A path without a listener behind it refuses, whether or not it is a socket. */
  function Connect(fs: Fs, p: Path, fault: bool): Probe {
    if fault then OtherError
    else match NodeAt(fs, p)
      case None => NotFound
      case Some(node) => if node.listening then Connected else ConnectionRefused
  }

  function Unlink(fs: Fs, p: Path, fault: bool): Option<Fs> {
    if fault || NodeAt(fs, p).None? then None else Some(fs.(entries := fs.entries - {p}))
  }

  /** `bind(2)` creates the inode, and refuses a path that names anything. */
  function Mknod(fs: Fs, p: Path, fault: bool): Option<Fs> {
    if fault || p in fs.entries then None
    else Some(Fs(fs.entries[p := fs.next], fs.inodes[fs.next := Inode(SocketNode, false)], fs.next + 1))
  }

  function SetListening(fs: Fs, ino: nat, listening: bool): Fs {
    if ino in fs.inodes then fs.(inodes := fs.inodes[ino := fs.inodes[ino].(listening := listening)]) else fs
  }

  // ---------------------------------------------------------------------
  // One process
  // ---------------------------------------------------------------------

  /** The next system call of a daemon, or how its life ended. */
  datatype Stage =
    | CheckExists | ReadMetadata | TryConnect | RemoveStale | BindNode
    | StartListening(ino: nat) | SetMode(ino: nat) | RemoveOwn(ino: nat) | CloseFailed(ino: nat)
    | Serving(ino: nat)
    | DropUnlink(ino: nat) | DropClose(ino: nat)
    | Failed(error: BindError) | Dropped | Crashed

  datatype Removal = Removal(ino: nat, node: Inode)

  /** `created`, `reclaimed` and `removed` are history: what this process made and unlinked. */
  datatype Proc = Proc(
    path: Path, stage: Stage, created: Option<nat>, reclaimed: Option<nat>, removed: seq<Removal>)

  function Start(p: Path): Proc { Proc(p, CheckExists, None, None, []) }

  predicate Over(st: Stage) { st.Failed? || st.Dropped? || st.Crashed? }

  /** `Socket::bind` has not returned yet. */
  predicate Starting(st: Stage) {
    !st.Serving? && !st.DropUnlink? && !st.DropClose? && !Over(st)
  }

  predicate BeforeBind(st: Stage) {
    st.CheckExists? || st.ReadMetadata? || st.TryConnect? || st.RemoveStale? || st.BindNode?
  }

  /** The listening descriptor the process has open. */
  function Held(st: Stage): Option<nat> {
    match st
    case StartListening(i) => Some(i)
    case SetMode(i) => Some(i)
    case RemoveOwn(i) => Some(i)
    case CloseFailed(i) => Some(i)
    case Serving(i) => Some(i)
    case DropUnlink(i) => Some(i)
    case DropClose(i) => Some(i)
    case _ => None
  }

  /** The process after its unlink of its path, whether or not the unlink worked. */
  function Unlinked(fs: Fs, pr: Proc, fault: bool, stage: Stage): Proc {
    if Unlink(fs, pr.path, fault).Some?
    then pr.(stage := stage, removed := pr.removed + [Removal(fs.entries[pr.path], NodeAt(fs, pr.path).value)])
    else pr.(stage := stage)
  }

  function OrSame(fs: Fs, fs': Option<Fs>): Fs { if fs'.Some? then fs'.value else fs }

  /** One system call of `bind`, `reclaim_stale_socket` or `drop`. A serving daemon begins its drop. */
  function Advance(fs: Fs, pr: Proc, fault: bool): (Fs, Proc) {
    match pr.stage
    case CheckExists =>
      (fs, pr.(stage := if Exists(fs, pr.path, fault) then ReadMetadata else BindNode))
    case ReadMetadata =>
      (fs, pr.(stage := match Lstat(fs, pr.path, fault)
                        case None => Failed(Io(Metadata))
                        case Some(kind) => if kind == SocketNode then TryConnect else Failed(NotASocket)))
    case TryConnect =>
      (fs, pr.(stage := match Connect(fs, pr.path, fault)
                        case Connected => Failed(AlreadyActive)
                        case ConnectionRefused => RemoveStale
                        case NotFound => BindNode
                        case OtherError => Failed(Unverifiable)))
    case RemoveStale =>
      if Unlink(fs, pr.path, fault).Some?
      then (Unlink(fs, pr.path, fault).value,
            Unlinked(fs, pr, fault, BindNode).(reclaimed := Some(fs.entries[pr.path])))
      else (fs, pr.(stage := Failed(Io(Remove))))
    case BindNode =>
      (OrSame(fs, Mknod(fs, pr.path, fault)),
       if Mknod(fs, pr.path, fault).Some?
       then pr.(stage := StartListening(fs.next), created := Some(fs.next))
       else pr.(stage := Failed(Io(BindPath))))
    case StartListening(i) =>
      if fault then (fs, pr.(stage := Failed(Io(Listen))))
      else (SetListening(fs, i, true), pr.(stage := SetMode(i)))
    case SetMode(i) =>
      (fs, pr.(stage := if fault || NodeAt(fs, pr.path).None? then RemoveOwn(i) else Serving(i)))
    case RemoveOwn(i) =>
      (OrSame(fs, Unlink(fs, pr.path, fault)), Unlinked(fs, pr, fault, CloseFailed(i)))
    case CloseFailed(i) =>
      (SetListening(fs, i, false), pr.(stage := Failed(Io(Chmod))))
    case Serving(i) =>
      (fs, pr.(stage := DropUnlink(i)))
    case DropUnlink(i) =>
      (OrSame(fs, Unlink(fs, pr.path, fault)), Unlinked(fs, pr, fault, DropClose(i)))
    case DropClose(i) =>
      (SetListening(fs, i, false), pr.(stage := Dropped))
    case _ => (fs, pr)
  }

  /** The process dies: the kernel closes what it had open, and the path stays as it is. */
  function Die(fs: Fs, pr: Proc): (Fs, Proc) {
    (if Held(pr.stage).Some? then SetListening(fs, Held(pr.stage).value, false) else fs,
     pr.(stage := Crashed))
  }

  // ---------------------------------------------------------------------
  // Many processes
  // ---------------------------------------------------------------------

  datatype System = System(fs: Fs, procs: seq<Proc>)

  datatype Action = Spawn(path: Path) | Proceed(pid: nat, fault: bool) | Crash(pid: nat)

  /** Any live process may move or die; a daemon starts on a path only if no other start is under way there. */
  predicate Enabled(s: System, a: Action) {
    match a
    case Spawn(p) => forall i :: 0 <= i < |s.procs| && s.procs[i].path == p ==> !Starting(s.procs[i].stage)
    case Proceed(pid, _) => pid < |s.procs| && !Over(s.procs[pid].stage)
    case Crash(pid) => pid < |s.procs| && !Over(s.procs[pid].stage)
  }

  function Act(s: System, a: Action): System
    requires Enabled(s, a)
  {
    match a
    case Spawn(p) => s.(procs := s.procs + [Start(p)])
    case Proceed(pid, fault) =>
      var (fs, pr) := Advance(s.fs, s.procs[pid], fault);
      System(fs, s.procs[pid := pr])
    case Crash(pid) =>
      var (fs, pr) := Die(s.fs, s.procs[pid]);
      System(fs, s.procs[pid := pr])
  }

  /** No process, and no open listener; paths may already name stale sockets, files or links. */
  ghost predicate Init(s: System) {
    && s.procs == [] && WellFormed(s.fs)
    && forall i :: i in s.fs.inodes ==> !s.fs.inodes[i].listening
  }

  ghost predicate NextAt(ss: seq<System>, i: int) {
    0 <= i < |ss| - 1 && exists a :: Enabled(ss[i], a) && ss[i + 1] == Act(ss[i], a)
  }

  ghost predicate Run(ss: seq<System>) {
    |ss| > 0 && Init(ss[0]) && forall i :: 0 <= i < |ss| - 1 ==> NextAt(ss, i)
  }

  // ---------------------------------------------------------------------
  // What every step keeps
  // ---------------------------------------------------------------------

  /** The path names the process's own inode. */
  ghost predicate Owns(fs: Fs, pr: Proc, i: nat, listening: bool) {
    && pr.path in fs.entries && fs.entries[pr.path] == i
    && i in fs.inodes && fs.inodes[i].listening == listening
  }

  ghost predicate StageOk(fs: Fs, pr: Proc) {
    match pr.stage
    case TryConnect => NodeAt(fs, pr.path).Some? ==> NodeAt(fs, pr.path).value.kind == SocketNode
    case RemoveStale => NodeAt(fs, pr.path) == Some(Inode(SocketNode, false))
    case StartListening(i) => Owns(fs, pr, i, false)
    case SetMode(i) => Owns(fs, pr, i, true)
    case RemoveOwn(i) => Owns(fs, pr, i, true)
    case CloseFailed(i) => i in fs.inodes && fs.inodes[i].listening
    case Serving(i) => Owns(fs, pr, i, true)
    case DropUnlink(i) => Owns(fs, pr, i, true)
    case DropClose(i) => i in fs.inodes && fs.inodes[i].listening
    case _ => true
  }

  ghost predicate CreatedOk(fs: Fs, pr: Proc) {
    && (pr.created.Some? ==>
          && pr.created.value in fs.inodes && fs.inodes[pr.created.value].kind == SocketNode
          && (forall p :: p in fs.entries && fs.entries[p] == pr.created.value ==> p == pr.path)
          && (fs.inodes[pr.created.value].listening ==> Held(pr.stage) == pr.created))
    && (Held(pr.stage).Some? ==> pr.created == Held(pr.stage))
    && (BeforeBind(pr.stage) ==> pr.created.None?)
  }

  function Stale(pr: Proc): seq<Removal> {
    if pr.reclaimed.Some? then [Removal(pr.reclaimed.value, Inode(SocketNode, false))] else []
  }

  function Own(pr: Proc): seq<Removal> {
    if pr.created.Some? then [Removal(pr.created.value, Inode(SocketNode, true))] else []
  }

  /** The history: at most one stale socket, then at most the process's own. */
  ghost predicate HistoryOk(fs: Fs, pr: Proc) {
    && (pr.reclaimed.Some? ==> pr.reclaimed.value in fs.inodes && pr.created != pr.reclaimed)
    && (pr.removed == Stale(pr) || (pr.removed == Stale(pr) + Own(pr) && !BeforeBind(pr.stage)))
    && (pr.removed != Stale(pr) ==>
          pr.stage.CloseFailed? || pr.stage.DropClose? || pr.stage.Dropped? || pr.stage.Crashed?
          || pr.stage == Failed(Io(Chmod)))
    && (BeforeBind(pr.stage) && !pr.stage.BindNode? ==> pr.reclaimed.None?)
    && (pr.stage.Failed? && !(pr.stage.error.Io? && pr.stage.error.during in {BindPath, Listen, Chmod}) ==>
          pr.reclaimed.None? && pr.created.None?)
    && (pr.stage == Failed(Io(Chmod)) ==> pr.created.Some?)
  }

  ghost predicate ProcOk(fs: Fs, pr: Proc) {
    StageOk(fs, pr) && CreatedOk(fs, pr) && HistoryOk(fs, pr)
  }

  ghost predicate Apart(a: Proc, b: Proc) {
    && (a.created.Some? ==> a.created != b.created)
    && !(a.path == b.path && Starting(a.stage) && Starting(b.stage))
  }

  /** Every open listener belongs to a live process. */
  ghost predicate Listened(s: System, i: nat) {
    exists a :: 0 <= a < |s.procs| && Held(s.procs[a].stage) == Some(i)
  }

  ghost predicate Inv(s: System) {
    && WellFormed(s.fs)
    && (forall a :: 0 <= a < |s.procs| ==> ProcOk(s.fs, s.procs[a]))
    && (forall a, b :: 0 <= a < |s.procs| && 0 <= b < |s.procs| && a != b ==> Apart(s.procs[a], s.procs[b]))
    && (forall i :: i in s.fs.inodes && s.fs.inodes[i].listening ==> Listened(s, i))
  }

  /** What one process can do to the file system: touch its own path, its own inode, and make new ones. */
  ghost predicate Touches(fs: Fs, fs': Fs, pr: Proc, pr': Proc) {
    && (forall p :: p != pr.path ==> (p in fs.entries <==> p in fs'.entries))
    && (forall p :: p != pr.path && p in fs.entries ==> fs'.entries[p] == fs.entries[p])
    && (forall i :: i in fs.inodes ==> i in fs'.inodes && fs'.inodes[i].kind == fs.inodes[i].kind)
    && (forall i :: i in fs.inodes && pr.created != Some(i) ==> fs'.inodes[i] == fs.inodes[i])
    && (forall i :: i in fs'.inodes && i !in fs.inodes ==> pr'.created == Some(i))
    && (pr.path in fs'.entries ==> pr.path in fs.entries || pr'.created == Some(fs'.entries[pr.path]))
    && (pr.path in fs'.entries && pr.path in fs.entries ==> fs'.entries[pr.path] == fs.entries[pr.path])
    && (pr.path in fs'.entries && pr.path !in fs.entries ==> Starting(pr.stage))
    && (pr.path in fs.entries && pr.path !in fs'.entries ==>
          || (Starting(pr.stage) && NodeAt(fs, pr.path) == Some(Inode(SocketNode, false)))
          || (pr.created == Some(fs.entries[pr.path]) && NodeAt(fs, pr.path) == Some(Inode(SocketNode, true))))
    && (forall i :: i in fs.inodes && fs'.inodes[i].listening && !fs.inodes[i].listening ==> Starting(pr.stage))
    && pr'.path == pr.path
    && (pr.created.Some? ==> pr'.created == pr.created)
    && (pr'.created.Some? && pr.created.None? ==> pr'.created.value == fs.next && Starting(pr.stage))
    && (Starting(pr'.stage) ==> Starting(pr.stage))
  }

  ghost predicate KeepsOwn(fs: Fs, fs': Fs, pr: Proc, pr': Proc) {
    WellFormed(fs') && ProcOk(fs', pr') && Touches(fs, fs', pr, pr')
  }

  lemma {:induction false} LookingKeepsOwn(fs: Fs, pr: Proc, fault: bool)
    requires WellFormed(fs) && ProcOk(fs, pr)
    requires pr.stage.CheckExists? || pr.stage.ReadMetadata? || pr.stage.TryConnect?
    ensures var (fs', pr') := Advance(fs, pr, fault); KeepsOwn(fs, fs', pr, pr')
  {
  }

  lemma {:induction false} HoldingKeepsOwn(fs: Fs, pr: Proc, fault: bool)
    requires WellFormed(fs) && ProcOk(fs, pr) && (pr.stage.SetMode? || pr.stage.Serving?)
    ensures var (fs', pr') := Advance(fs, pr, fault); KeepsOwn(fs, fs', pr, pr')
  {
  }

  lemma {:induction false} ReclaimKeepsOwn(fs: Fs, pr: Proc, fault: bool)
    requires WellFormed(fs) && ProcOk(fs, pr) && pr.stage.RemoveStale?
    ensures var (fs', pr') := Advance(fs, pr, fault); KeepsOwn(fs, fs', pr, pr')
  {
  }

  lemma {:induction false} BindingKeepsOwn(fs: Fs, pr: Proc, fault: bool)
    requires WellFormed(fs) && ProcOk(fs, pr) && pr.stage.BindNode?
    ensures var (fs', pr') := Advance(fs, pr, fault); KeepsOwn(fs, fs', pr, pr')
  {
  }

  lemma {:induction false} ListeningKeepsOwn(fs: Fs, pr: Proc, fault: bool)
    requires WellFormed(fs) && ProcOk(fs, pr) && pr.stage.StartListening?
    ensures var (fs', pr') := Advance(fs, pr, fault); KeepsOwn(fs, fs', pr, pr')
  {
  }

  lemma {:induction false} ClosingKeepsOwn(fs: Fs, pr: Proc, fault: bool)
    requires WellFormed(fs) && ProcOk(fs, pr) && (pr.stage.CloseFailed? || pr.stage.DropClose?)
    ensures var (fs', pr') := Advance(fs, pr, fault); KeepsOwn(fs, fs', pr, pr')
  {
  }

  lemma {:induction false} GivingUpKeepsOwn(fs: Fs, pr: Proc, fault: bool)
    requires WellFormed(fs) && ProcOk(fs, pr) && pr.stage.RemoveOwn?
    ensures var (fs', pr') := Advance(fs, pr, fault); KeepsOwn(fs, fs', pr, pr')
  {
  }

  lemma {:induction false} DroppingKeepsOwn(fs: Fs, pr: Proc, fault: bool)
    requires WellFormed(fs) && ProcOk(fs, pr) && pr.stage.DropUnlink?
    ensures var (fs', pr') := Advance(fs, pr, fault); KeepsOwn(fs, fs', pr, pr')
  {
  }

  lemma {:induction false} DyingKeepsOwn(fs: Fs, pr: Proc)
    requires WellFormed(fs) && ProcOk(fs, pr) && !Over(pr.stage)
    ensures var (fs', pr') := Die(fs, pr); KeepsOwn(fs, fs', pr, pr')
  {
  }

  lemma {:induction false} AdvanceKeepsOwn(fs: Fs, pr: Proc, fault: bool)
    requires WellFormed(fs) && ProcOk(fs, pr) && !Over(pr.stage)
    ensures var (fs', pr') := Advance(fs, pr, fault); KeepsOwn(fs, fs', pr, pr')
  {
    match pr.stage
    case RemoveStale => ReclaimKeepsOwn(fs, pr, fault);
    case BindNode => BindingKeepsOwn(fs, pr, fault);
    case StartListening(_) => ListeningKeepsOwn(fs, pr, fault);
    case CloseFailed(_) => ClosingKeepsOwn(fs, pr, fault);
    case DropClose(_) => ClosingKeepsOwn(fs, pr, fault);
    case SetMode(_) => HoldingKeepsOwn(fs, pr, fault);
    case Serving(_) => HoldingKeepsOwn(fs, pr, fault);
    case RemoveOwn(_) => GivingUpKeepsOwn(fs, pr, fault);
    case DropUnlink(_) => DroppingKeepsOwn(fs, pr, fault);
    case _ => LookingKeepsOwn(fs, pr, fault);
  }

  lemma {:induction false} OthersKeepStage(fs: Fs, fs': Fs, a: Proc, a': Proc, b: Proc)
    requires WellFormed(fs) && ProcOk(fs, a) && ProcOk(fs, b) && Apart(a, b) && Apart(b, a)
    requires KeepsOwn(fs, fs', a, a')
    ensures StageOk(fs', b)
  {
  }

  /** A step of one process leaves what is known of every other process true. */
  lemma {:induction false} OthersKeepOwn(fs: Fs, fs': Fs, a: Proc, a': Proc, b: Proc)
    requires WellFormed(fs) && ProcOk(fs, a) && ProcOk(fs, b) && Apart(a, b) && Apart(b, a)
    requires KeepsOwn(fs, fs', a, a')
    ensures ProcOk(fs', b) && Apart(a', b) && Apart(b, a')
  {
    assert b.created.Some? ==> fs'.inodes[b.created.value] == fs.inodes[b.created.value];
    OthersKeepStage(fs, fs', a, a', b);
    assert CreatedOk(fs', b);
    assert HistoryOk(fs', b);
  }

  lemma {:induction false} MoveKeepsInv(s: System, pid: nat, fs': Fs, pr': Proc)
    requires Inv(s) && pid < |s.procs| && KeepsOwn(s.fs, fs', s.procs[pid], pr')
    ensures Inv(System(fs', s.procs[pid := pr']))
  {
    var s' := System(fs', s.procs[pid := pr']);
    forall b | 0 <= b < |s.procs| && b != pid
      ensures ProcOk(fs', s.procs[b]) && Apart(pr', s.procs[b]) && Apart(s.procs[b], pr')
    {
      OthersKeepOwn(s.fs, fs', s.procs[pid], pr', s.procs[b]);
    }
    forall i | i in fs'.inodes && fs'.inodes[i].listening
      ensures Listened(s', i)
    {
      if pr'.created == Some(i) {
        assert s'.procs[pid] == pr' && Held(pr'.stage) == Some(i);
      } else {
        assert s.fs.inodes[i].listening;
        var c :| 0 <= c < |s.procs| && Held(s.procs[c].stage) == Some(i);
        assert ProcOk(s.fs, s.procs[c]);
        assert c != pid;
        assert s'.procs[c] == s.procs[c];
      }
    }
  }

  lemma {:induction false} StepKeepsInv(s: System, a: Action)
    requires Inv(s) && Enabled(s, a)
    ensures Inv(Act(s, a))
  {
    match a
    case Spawn(p) =>
      var s' := Act(s, a);
      assert forall i :: 0 <= i < |s.procs| ==> s'.procs[i] == s.procs[i];
      assert ProcOk(s.fs, Start(p));
      forall i | i in s.fs.inodes && s.fs.inodes[i].listening
        ensures Listened(s', i)
      {
        var c :| 0 <= c < |s.procs| && Held(s.procs[c].stage) == Some(i);
        assert s'.procs[c] == s.procs[c];
      }
    case Proceed(pid, fault) =>
      AdvanceKeepsOwn(s.fs, s.procs[pid], fault);
      var (fs', pr') := Advance(s.fs, s.procs[pid], fault);
      MoveKeepsInv(s, pid, fs', pr');
    case Crash(pid) =>
      DyingKeepsOwn(s.fs, s.procs[pid]);
      var (fs', pr') := Die(s.fs, s.procs[pid]);
      MoveKeepsInv(s, pid, fs', pr');
  }

  lemma {:induction false} RunKeepsInv(ss: seq<System>, i: nat)
    requires Run(ss) && i < |ss|
    ensures Inv(ss[i])
  {
    if i > 0 {
      RunKeepsInv(ss, i - 1);
      assert NextAt(ss, i - 1);
      var a :| Enabled(ss[i - 1], a) && ss[i] == Act(ss[i - 1], a);
      StepKeepsInv(ss[i - 1], a);
    }
  }

  // ---------------------------------------------------------------------
  // Safety over every run
  // ---------------------------------------------------------------------

  /**
   In every run - any number of daemons serving, dropping or crashing, one start at a time on each path -
   the path of a serving daemon names its own listening inode.
   */
  lemma {:induction false} ServingDaemonsKeepTheirPath(ss: seq<System>, i: nat)
    requires Run(ss) && i < |ss|
    ensures forall a :: 0 <= a < |ss[i].procs| && ss[i].procs[a].stage.Serving? ==>
              Owns(ss[i].fs, ss[i].procs[a], ss[i].procs[a].stage.ino, true)
    ensures forall a, b :: 0 <= a < b < |ss[i].procs| ==>
              !(ss[i].procs[a].stage.Serving? && ss[i].procs[b].stage.Serving?
                && ss[i].procs[a].path == ss[i].procs[b].path)
  {
    RunKeepsInv(ss, i);
    assert forall a :: 0 <= a < |ss[i].procs| ==> ProcOk(ss[i].fs, ss[i].procs[a]);
    forall a, b | 0 <= a < b < |ss[i].procs|
                  && ss[i].procs[a].stage.Serving? && ss[i].procs[b].stage.Serving?
      ensures ss[i].procs[a].path != ss[i].procs[b].path
    {
      assert Apart(ss[i].procs[a], ss[i].procs[b]);
    }
  }

  /** Every unlink in every run removed a socket nobody was listening on, or the unlinker's own. */
  lemma {:induction false} UnlinksAreSafe(ss: seq<System>, i: nat, a: nat)
    requires Run(ss) && i < |ss| && a < |ss[i].procs|
    ensures forall r :: r in ss[i].procs[a].removed ==>
              r.node.kind == SocketNode && (!r.node.listening || ss[i].procs[a].created == Some(r.ino))
  {
    RunKeepsInv(ss, i);
    assert ProcOk(ss[i].fs, ss[i].procs[a]);
  }

  /**
   A start that ends because the path was active, was not a socket or could not be verified has removed
   nothing. One that fails at chmod has removed nothing but its own inode exactly when it had not
   reclaimed a stale socket on the way, and never more than those two.
   */
  lemma {:induction false} FailedStartsLeaveOthersAlone(ss: seq<System>, i: nat, a: nat)
    requires Run(ss) && i < |ss| && a < |ss[i].procs| && ss[i].procs[a].stage.Failed?
    ensures var pr := ss[i].procs[a];
            && (!pr.stage.error.Io? ==> pr.removed == [] && pr.created.None?)
            && (pr.stage.error == Io(Chmod) ==>
                  ((forall r :: r in pr.removed ==> pr.created == Some(r.ino)) <==> pr.reclaimed.None?))
            && (forall r :: r in pr.removed ==> Some(r.ino) == pr.reclaimed || Some(r.ino) == pr.created)
  {
    RunKeepsInv(ss, i);
    var pr := ss[i].procs[a];
    assert ProcOk(ss[i].fs, pr);
    if pr.reclaimed.Some? {
      assert Removal(pr.reclaimed.value, Inode(SocketNode, false)) in Stale(pr);
      assert pr.removed[0] == Stale(pr)[0];
    }
  }

  // ---------------------------------------------------------------------
  // A start nobody interrupts
  // ---------------------------------------------------------------------

  /** Which system calls of one start fail for reasons of their own. */
  datatype Faults = Faults(
    exists_: bool, metadata: bool, connect: bool, remove: bool, bind: bool, listen: bool, chmod: bool, cleanup: bool)

  const NO_FAULTS := Faults(false, false, false, false, false, false, false, false)

  function FaultAt(f: Faults, st: Stage): bool {
    match st
    case CheckExists => f.exists_
    case ReadMetadata => f.metadata
    case TryConnect => f.connect
    case RemoveStale => f.remove
    case BindNode => f.bind
    case StartListening(_) => f.listen
    case SetMode(_) => f.chmod
    case RemoveOwn(_) => f.cleanup
    case _ => false
  }

  function Rank(st: Stage): nat {
    match st
    case CheckExists => 9
    case ReadMetadata => 8
    case TryConnect => 7
    case RemoveStale => 6
    case BindNode => 5
    case StartListening(_) => 4
    case SetMode(_) => 3
    case RemoveOwn(_) => 2
    case CloseFailed(_) => 1
    case _ => 0
  }

  /** The rest of a start, run to its end. */
  function Complete(fs: Fs, pr: Proc, f: Faults): (Fs, Proc)
    decreases Rank(pr.stage)
  {
    if !Starting(pr.stage) then (fs, pr)
    else
      var (fs', pr') := Advance(fs, pr, FaultAt(f, pr.stage));
      Complete(fs', pr', f)
  }

  ghost predicate EndsServing(fs: Fs, pr: Proc) {
    var (fs', pr') := Complete(fs, pr, NO_FAULTS);
    pr'.stage.Serving? && Owns(fs', pr', pr'.stage.ino, true)
  }

  lemma {:induction false} ListeningEndsServing(fs: Fs, pr: Proc)
    requires (pr.stage.StartListening? && Owns(fs, pr, pr.stage.ino, false))
             || (pr.stage.SetMode? && Owns(fs, pr, pr.stage.ino, true))
    ensures EndsServing(fs, pr)
    decreases Rank(pr.stage)
  {
    var (fs1, pr1) := Advance(fs, pr, false);
    assert Complete(fs, pr, NO_FAULTS) == Complete(fs1, pr1, NO_FAULTS);
    if Starting(pr1.stage) {
      ListeningEndsServing(fs1, pr1);
    }
  }

  lemma {:induction false} BindingEndsServing(fs: Fs, pr: Proc)
    requires WellFormed(fs)
    requires pr.stage.BindNode? || (pr.stage.StartListening? && Owns(fs, pr, pr.stage.ino, false))
             || (pr.stage.SetMode? && Owns(fs, pr, pr.stage.ino, true))
    ensures EndsServing(fs, pr) <==> !(pr.stage.BindNode? && pr.path in fs.entries)
  {
    var (fs1, pr1) := Advance(fs, pr, false);
    assert Complete(fs, pr, NO_FAULTS) == Complete(fs1, pr1, NO_FAULTS);
    if Starting(pr1.stage) {
      ListeningEndsServing(fs1, pr1);
    }
  }

  lemma {:induction false} ReclaimingEndsServing(fs: Fs, pr: Proc)
    requires WellFormed(fs) && (pr.stage.TryConnect? || pr.stage.RemoveStale?)
    requires NodeAt(fs, pr.path) == Some(Inode(SocketNode, false)) || (pr.stage.TryConnect? && pr.path !in fs.entries)
    ensures EndsServing(fs, pr)
    decreases Rank(pr.stage)
  {
    var (fs1, pr1) := Advance(fs, pr, false);
    assert Complete(fs, pr, NO_FAULTS) == Complete(fs1, pr1, NO_FAULTS);
    if pr1.stage.RemoveStale? {
      ReclaimingEndsServing(fs1, pr1);
    } else {
      BindingEndsServing(fs1, pr1);
    }
  }

  /** The two ways the path can have changed under a start that looked too early. */
  predicate LookedTooEarly(fs: Fs, pr: Proc) {
    || (pr.stage.ReadMetadata? && pr.path !in fs.entries)
    || (pr.stage.BindNode? && pr.path in fs.entries)
  }

  lemma {:induction false} CompletingEndsServing(fs: Fs, pr: Proc)
    requires WellFormed(fs) && StageOk(fs, pr)
    requires Starting(pr.stage) && !pr.stage.RemoveOwn? && !pr.stage.CloseFailed?
    requires BeforeBind(pr.stage) ==> pr.path !in fs.entries || NodeAt(fs, pr.path) == Some(Inode(SocketNode, false))
    ensures EndsServing(fs, pr) <==> !LookedTooEarly(fs, pr)
  {
    if pr.stage.CheckExists? || pr.stage.ReadMetadata? {
      var (fs1, pr1) := Advance(fs, pr, false);
      assert Complete(fs, pr, NO_FAULTS) == Complete(fs1, pr1, NO_FAULTS);
      if pr1.stage.ReadMetadata? {
        var (fs2, pr2) := Advance(fs1, pr1, false);
        assert Complete(fs1, pr1, NO_FAULTS) == Complete(fs2, pr2, NO_FAULTS);
        ReclaimingEndsServing(fs2, pr2);
      } else if pr1.stage.BindNode? {
        BindingEndsServing(fs1, pr1);
      } else if pr1.stage.TryConnect? {
        ReclaimingEndsServing(fs1, pr1);
      }
    } else if pr.stage.TryConnect? || pr.stage.RemoveStale? {
      ReclaimingEndsServing(fs, pr);
    } else {
      BindingEndsServing(fs, pr);
    }
  }

  ghost predicate LiveOwner(s: System, p: Path, c: int) {
    0 <= c < |s.procs| && s.procs[c].path == p && Held(s.procs[c].stage).Some?
  }

  lemma {:induction false} ListenersHaveLiveOwners(s: System, p: Path)
    requires Inv(s)
    ensures NodeAt(s.fs, p).Some? && NodeAt(s.fs, p).value.listening ==> exists c :: LiveOwner(s, p, c)
  {
    if NodeAt(s.fs, p).Some? && NodeAt(s.fs, p).value.listening {
      var ino := s.fs.entries[p];
      assert Listened(s, ino);
      var c :| 0 <= c < |s.procs| && Held(s.procs[c].stage) == Some(ino);
      assert ProcOk(s.fs, s.procs[c]);
      assert LiveOwner(s, p, c);
    }
  }

  /**
   Crash recovery: in every reachable state where every other owner of the path has crashed, dropped or
   failed and the path names nothing or a socket, a start that meets no unrelated error from here on ends
   serving with a live listener on its path - wherever it already is - exactly unless it has read the
   path as taken and the path is gone before the metadata read, or has read it as free and it is taken.
   */
  lemma {:induction false} CrashRecovery(ss: seq<System>, i: nat, a: nat)
    requires Run(ss) && i < |ss| && a < |ss[i].procs|
    requires var pr := ss[i].procs[a];
             && Starting(pr.stage) && !pr.stage.RemoveOwn? && !pr.stage.CloseFailed?
             && (pr.path in ss[i].fs.entries ==>
                   NodeAt(ss[i].fs, pr.path).Some? && NodeAt(ss[i].fs, pr.path).value.kind == SocketNode)
             && forall b :: 0 <= b < |ss[i].procs| && b != a && ss[i].procs[b].path == pr.path ==>
                  Over(ss[i].procs[b].stage)
    ensures EndsServing(ss[i].fs, ss[i].procs[a]) <==> !LookedTooEarly(ss[i].fs, ss[i].procs[a])
    ensures ss[i].procs[a].stage.CheckExists? ==> EndsServing(ss[i].fs, ss[i].procs[a])
  {
    RunKeepsInv(ss, i);
    var s, pr := ss[i], ss[i].procs[a];
    assert ProcOk(s.fs, pr);
    ListenersHaveLiveOwners(s, pr.path);
    CompletingEndsServing(s.fs, pr);
  }

  // ---------------------------------------------------------------------
  // Which answer a start gets
  // ---------------------------------------------------------------------

  /** `exists` answers yes: the path names something that is not a dangling link, and the call did not fail. */
  predicate SeesSomething(fs: Fs, p: Path, f: Faults)
    requires p in fs.entries ==> fs.entries[p] in fs.inodes
  {
    !f.exists_ && p in fs.entries && fs.inodes[fs.entries[p]].kind != DanglingLink
  }

  /** The metadata were read, and are those of a socket. */
  predicate FindsSocket(fs: Fs, p: Path, f: Faults)
    requires p in fs.entries ==> fs.entries[p] in fs.inodes
  {
    SeesSomething(fs, p, f) && !f.metadata && fs.inodes[fs.entries[p]].kind == SocketNode
  }

  /** When the path is bound it names nothing: it never did, or a stale socket was removed from it. */
  predicate ReachesFreePath(fs: Fs, p: Path, f: Faults)
    requires p in fs.entries ==> fs.entries[p] in fs.inodes
  {
    p !in fs.entries || (FindsSocket(fs, p, f) && !f.connect && !fs.inodes[fs.entries[p]].listening && !f.remove)
  }

  lemma {:induction false} ListeningAnswers(fs: Fs, pr: Proc, f: Faults)
    requires pr.stage.StartListening? && Owns(fs, pr, pr.stage.ino, false)
    ensures var end := Complete(fs, pr, f).1.stage;
            && (end == Failed(Io(Listen)) <==> f.listen)
            && (end == Failed(Io(Chmod)) <==> !f.listen && f.chmod)
            && (end == Serving(pr.stage.ino) <==> !f.listen && !f.chmod)
            && (end.Serving? ==> end.ino == pr.stage.ino)
  {
    var (fs1, pr1) := Advance(fs, pr, f.listen);
    assert Complete(fs, pr, f) == Complete(fs1, pr1, f);
    if !f.listen {
      var (fs2, pr2) := Advance(fs1, pr1, f.chmod);
      assert Complete(fs1, pr1, f) == Complete(fs2, pr2, f);
      if f.chmod {
        var (fs3, pr3) := Advance(fs2, pr2, f.cleanup);
        assert Complete(fs2, pr2, f) == Complete(fs3, pr3, f);
        var (fs4, pr4) := Advance(fs3, pr3, false);
        assert Complete(fs3, pr3, f) == Complete(fs4, pr4, f) == (fs4, pr4);
      }
    }
  }

  lemma {:induction false} BindingAnswers(fs: Fs, pr: Proc, f: Faults)
    requires WellFormed(fs) && pr.stage.BindNode?
    ensures var end := Complete(fs, pr, f).1.stage;
            && (end == Failed(Io(BindPath)) <==> f.bind || pr.path in fs.entries)
            && (end == Failed(Io(Listen)) <==> pr.path !in fs.entries && !f.bind && f.listen)
            && (end == Failed(Io(Chmod)) <==> pr.path !in fs.entries && !f.bind && !f.listen && f.chmod)
            && (end == Serving(fs.next) <==> pr.path !in fs.entries && !f.bind && !f.listen && !f.chmod)
            && (end.Failed? ==> end.error.Io? && end.error.during in {BindPath, Listen, Chmod})
            && (end.Serving? ==> end.ino == fs.next)
  {
    var (fs1, pr1) := Advance(fs, pr, f.bind);
    assert Complete(fs, pr, f) == Complete(fs1, pr1, f);
    if !f.bind && pr.path !in fs.entries {
      ListeningAnswers(fs1, pr1, f);
    }
  }

  lemma {:induction false} ConnectingAnswers(fs: Fs, pr: Proc, f: Faults)
    requires WellFormed(fs) && pr.stage.TryConnect? && pr.path in fs.entries
    ensures var end, listening := Complete(fs, pr, f).1.stage, fs.inodes[fs.entries[pr.path]].listening;
            && (end == Failed(AlreadyActive) <==> !f.connect && listening)
            && (end == Failed(Unverifiable) <==> f.connect)
            && (end == Failed(Io(Remove)) <==> !f.connect && !listening && f.remove)
            && var free := !f.connect && !listening && !f.remove;
               && (end == Failed(Io(BindPath)) <==> free && f.bind)
               && (end == Failed(Io(Listen)) <==> free && !f.bind && f.listen)
               && (end == Failed(Io(Chmod)) <==> free && !f.bind && !f.listen && f.chmod)
               && (end == Serving(fs.next) <==> free && !f.bind && !f.listen && !f.chmod)
               && (end.Serving? ==> end.ino == fs.next)
               && end != Failed(NotASocket) && end != Failed(Io(Metadata))
  {
    var (fs1, pr1) := Advance(fs, pr, f.connect);
    assert Complete(fs, pr, f) == Complete(fs1, pr1, f);
    if pr1.stage.RemoveStale? {
      var (fs2, pr2) := Advance(fs1, pr1, f.remove);
      assert Complete(fs1, pr1, f) == Complete(fs2, pr2, f);
      if !f.remove {
        BindingAnswers(fs2, pr2, f);
      }
    }
  }

  /**
   The answer of a start nobody interrupts, read off the file system it begins in and the calls that
   fail, for every well-formed file system, path and pattern of failures.
   */
  lemma {:induction false} StartAnswersExactly(fs: Fs, p: Path, f: Faults)
    requires WellFormed(fs)
    ensures var end := Complete(fs, Start(p), f).1.stage;
            && (end == Failed(NotASocket) <==>
                  SeesSomething(fs, p, f) && !f.metadata && fs.inodes[fs.entries[p]].kind == FileNode)
            && (end == Failed(AlreadyActive) <==>
                  FindsSocket(fs, p, f) && !f.connect && fs.inodes[fs.entries[p]].listening)
            && (end == Failed(Unverifiable) <==> FindsSocket(fs, p, f) && f.connect)
            && (end == Failed(Io(Metadata)) <==> SeesSomething(fs, p, f) && f.metadata)
            && (end == Failed(Io(Remove)) <==>
                  FindsSocket(fs, p, f) && !f.connect && !fs.inodes[fs.entries[p]].listening && f.remove)
    ensures var end := Complete(fs, Start(p), f).1.stage;
            && (end == Failed(Io(BindPath)) <==>
                  if ReachesFreePath(fs, p, f) then f.bind else !SeesSomething(fs, p, f))
            && (end == Failed(Io(Listen)) <==> ReachesFreePath(fs, p, f) && !f.bind && f.listen)
            && (end == Failed(Io(Chmod)) <==> ReachesFreePath(fs, p, f) && !f.bind && !f.listen && f.chmod)
            && (end == Serving(fs.next) <==> ReachesFreePath(fs, p, f) && !f.bind && !f.listen && !f.chmod)
            && (end.Serving? ==> end.ino == fs.next)
  {
    var pr := Start(p);
    var (fs1, pr1) := Advance(fs, pr, f.exists_);
    assert Complete(fs, pr, f) == Complete(fs1, pr1, f);
    if !SeesSomething(fs, p, f) {
      BindingAnswers(fs1, pr1, f);
    } else {
      var (fs2, pr2) := Advance(fs1, pr1, f.metadata);
      assert Complete(fs1, pr1, f) == Complete(fs2, pr2, f);
      if FindsSocket(fs, p, f) {
        ConnectingAnswers(fs2, pr2, f);
      }
    }
  }

  /** In every run, a start is told that the path is active only while a live process holds the listener there. */
  lemma {:induction false} ActiveMeansServed(ss: seq<System>, i: nat, a: nat)
    requires Run(ss) && i + 1 < |ss| && a < |ss[i].procs| && a < |ss[i + 1].procs|
    requires ss[i].procs[a].stage != Failed(AlreadyActive) && ss[i + 1].procs[a].stage == Failed(AlreadyActive)
    ensures var s, p := ss[i], ss[i].procs[a].path;
            && p in s.fs.entries && s.fs.entries[p] in s.fs.inodes && s.fs.inodes[s.fs.entries[p]].listening
            && exists b :: 0 <= b < |s.procs| && b != a && !Over(s.procs[b].stage)
                           && Held(s.procs[b].stage) == Some(s.fs.entries[p])
  {
    RunKeepsInv(ss, i);
    var s, p := ss[i], ss[i].procs[a].path;
    assert NextAt(ss, i);
    var act :| Enabled(s, act) && ss[i + 1] == Act(s, act);
    assert act.Proceed? && act.pid == a && s.procs[a].stage.TryConnect?;
    assert Listened(s, s.fs.entries[p]);
  }

  lemma {:induction false} StartAdvances(fs: Fs, pr: Proc, f: Faults)
    requires WellFormed(fs) && ProcOk(fs, pr) && Starting(pr.stage)
    ensures var (fs', pr') := Advance(fs, pr, FaultAt(f, pr.stage));
            && WellFormed(fs') && ProcOk(fs', pr') && pr'.path == pr.path && Rank(pr'.stage) < Rank(pr.stage)
            && Complete(fs, pr, f) == Complete(fs', pr', f)
            && (!BeforeBind(pr.stage) || pr.stage.BindNode? ==> pr'.reclaimed == pr.reclaimed && !BeforeBind(pr'.stage))
  {
    AdvanceKeepsOwn(fs, pr, FaultAt(f, pr.stage));
  }

  /** Completing a start keeps its history honest. */
  lemma {:induction false} CompleteKeepsOk(fs: Fs, pr: Proc, f: Faults)
    requires WellFormed(fs) && ProcOk(fs, pr)
    ensures var (fs', pr') := Complete(fs, pr, f); WellFormed(fs') && ProcOk(fs', pr')
    ensures !BeforeBind(pr.stage) || pr.stage.BindNode? ==> Complete(fs, pr, f).1.reclaimed == pr.reclaimed
    decreases Rank(pr.stage)
  {
    if Starting(pr.stage) {
      StartAdvances(fs, pr, f);
      var (fs', pr') := Advance(fs, pr, FaultAt(f, pr.stage));
      CompleteKeepsOk(fs', pr', f);
    }
  }

  lemma {:induction false} ReclaimsOnlyWhenRefused(fs: Fs, pr: Proc, f: Faults)
    requires WellFormed(fs) && ProcOk(fs, pr) && (pr.stage.ReadMetadata? || pr.stage.TryConnect? || pr.stage.RemoveStale?)
    requires pr.path in fs.entries
    ensures Complete(fs, pr, f).1.stage == Failed(Io(Chmod)) ==> Complete(fs, pr, f).1.reclaimed.Some?
    decreases Rank(pr.stage)
  {
    var fault := FaultAt(f, pr.stage);
    AdvanceKeepsOwn(fs, pr, fault);
    var (fs', pr') := Advance(fs, pr, fault);
    assert Complete(fs, pr, f) == Complete(fs', pr', f);
    if pr'.stage.BindNode? {
      CompleteKeepsOk(fs', pr', f);
    } else if Starting(pr'.stage) {
      ReclaimsOnlyWhenRefused(fs', pr', f);
    }
  }

  /** For a start nobody interrupts, a failing chmod leaves all but its own inode alone exactly when `exists` said no. */
  lemma {:induction false} ChmodFailureRemovesOnlyOwnExactly(fs: Fs, p: Path, f: Faults)
    requires WellFormed(fs) && Complete(fs, Start(p), f).1.stage == Failed(Io(Chmod))
    ensures var pr' := Complete(fs, Start(p), f).1;
            (forall r :: r in pr'.removed ==> pr'.created == Some(r.ino)) <==> !Exists(fs, p, f.exists_)
  {
    var pr := Start(p);
    CompleteKeepsOk(fs, pr, f);
    AdvanceKeepsOwn(fs, pr, f.exists_);
    var (fs1, pr1) := Advance(fs, pr, f.exists_);
    assert Complete(fs, pr, f) == Complete(fs1, pr1, f);
    var pr' := Complete(fs, pr, f).1;
    if Exists(fs, p, f.exists_) {
      ReclaimsOnlyWhenRefused(fs1, pr1, f);
      assert pr'.removed[0] == Stale(pr')[0];
    } else {
      CompleteKeepsOk(fs1, pr1, f);
    }
  }

  lemma {:induction false} ChmodFailureGivesUp(fs: Fs, pr: Proc, f: Faults)
    requires pr.stage.SetMode? && f == NO_FAULTS.(chmod := true) && Owns(fs, pr, pr.stage.ino, true)
    ensures Complete(fs, pr, f).1.stage == Failed(Io(Chmod))
    ensures Complete(fs, pr, f).1.removed == pr.removed + [Removal(pr.stage.ino, fs.inodes[pr.stage.ino])]
  {
    var i := pr.stage.ino;
    var own := pr.(stage := RemoveOwn(i));
    assert Advance(fs, pr, true) == (fs, own);
    var (fs1, pr1) := Advance(fs, own, false);
    assert pr1.stage == CloseFailed(i) && pr1.removed == pr.removed + [Removal(i, fs.inodes[i])];
    assert Complete(fs, pr, f) == Complete(fs, own, f) == Complete(fs1, pr1, f);
    var (fs2, pr2) := Advance(fs1, pr1, false);
    assert Complete(fs1, pr1, f) == Complete(fs2, pr2, f) == (fs2, pr2);
  }

  lemma {:induction false} BoundThenChmodFails(fs: Fs, pr: Proc, f: Faults)
    requires WellFormed(fs) && pr.stage.BindNode? && pr.path !in fs.entries && f == NO_FAULTS.(chmod := true)
    ensures Complete(fs, pr, f).1.stage == Failed(Io(Chmod))
    ensures Complete(fs, pr, f).1.removed == pr.removed + [Removal(fs.next, Inode(SocketNode, true))]
  {
    var i := fs.next;
    var fs1 := Fs(fs.entries[pr.path := i], fs.inodes[i := Inode(SocketNode, false)], i + 1);
    var pr1 := pr.(stage := StartListening(i), created := Some(i));
    var fs2 := fs1.(inodes := fs1.inodes[i := Inode(SocketNode, true)]);
    var pr2 := pr1.(stage := SetMode(i));
    assert Advance(fs, pr, false) == (fs1, pr1) && Advance(fs1, pr1, false) == (fs2, pr2);
    assert Complete(fs, pr, f) == Complete(fs1, pr1, f) == Complete(fs2, pr2, f);
    ChmodFailureGivesUp(fs2, pr2, f);
  }

  /** The failing family: over a stale socket, a start whose chmod fails has unlinked that socket and its own. */
  lemma {:induction false} ChmodFailureOverAStaleSocket(fs: Fs, p: Path, f: Faults)
    requires WellFormed(fs) && NodeAt(fs, p) == Some(Inode(SocketNode, false)) && f == NO_FAULTS.(chmod := true)
    ensures Complete(fs, Start(p), f).1.stage == Failed(Io(Chmod))
    ensures Complete(fs, Start(p), f).1.removed
            == [Removal(fs.entries[p], Inode(SocketNode, false)), Removal(fs.next, Inode(SocketNode, true))]
  {
    var pr := Start(p);
    assert Advance(fs, pr, false) == (fs, pr.(stage := ReadMetadata));
    assert Advance(fs, pr.(stage := ReadMetadata), false) == (fs, pr.(stage := TryConnect));
    assert Advance(fs, pr.(stage := TryConnect), false) == (fs, pr.(stage := RemoveStale));
    assert Complete(fs, pr, f) == Complete(fs, pr.(stage := ReadMetadata), f);
    assert Complete(fs, pr.(stage := ReadMetadata), f) == Complete(fs, pr.(stage := RemoveStale), f);
    var (fs1, pr1) := Advance(fs, pr.(stage := RemoveStale), false);
    assert Complete(fs, pr.(stage := RemoveStale), f) == Complete(fs1, pr1, f);
    BoundThenChmodFails(fs1, pr1, f);
  }

  /** A daemon starts on "s" and serves; another looks, sees the path taken, and the first drops. */
  function Scene(i: nat): System
    requires i <= 10
  {
    var bound := Fs(map["s" := 0], map[0 := Inode(SocketNode, false)], 1);
    var live := Fs(map["s" := 0], map[0 := Inode(SocketNode, true)], 1);
    var p, q := Start("s").(created := Some(0)), Start("s");
    var r := p.(removed := [Removal(0, Inode(SocketNode, true))]);
    match i
    case 0 => System(Fs(map[], map[], 0), [])
    case 1 => System(Fs(map[], map[], 0), [q])
    case 2 => System(Fs(map[], map[], 0), [q.(stage := BindNode)])
    case 3 => System(bound, [p.(stage := StartListening(0))])
    case 4 => System(live, [p.(stage := SetMode(0))])
    case 5 => System(live, [p.(stage := Serving(0))])
    case 6 => System(live, [p.(stage := Serving(0)), q])
    case 7 => System(live, [p.(stage := Serving(0)), q.(stage := ReadMetadata)])
    case 8 => System(live, [p.(stage := DropUnlink(0)), q.(stage := ReadMetadata)])
    case 9 => System(live.(entries := map[]), [r.(stage := DropClose(0)), q.(stage := ReadMetadata)])
    case _ => System(bound.(entries := map[]), [r.(stage := Dropped), q.(stage := ReadMetadata)])
  }

  function Choice(i: nat): Action {
    if i == 0 || i == 5 then Spawn("s") else Proceed(if i == 6 then 1 else 0, false)
  }

  lemma FirstDaemonStarts(i: nat)
    requires i < 5
    ensures Enabled(Scene(i), Choice(i)) && Scene(i + 1) == Act(Scene(i), Choice(i))
  {
  }

  lemma FirstDaemonDrops(i: nat)
    requires 5 <= i < 10
    ensures Enabled(Scene(i), Choice(i)) && Scene(i + 1) == Act(Scene(i), Choice(i))
  {
    var taken, none: map<Path, nat> := map["s" := 0], map[];
    assert taken - {"s"} == none;
    var open, closed := map[0 := Inode(SocketNode, true)], map[0 := Inode(SocketNode, false)];
    assert open[0 := Inode(SocketNode, false)] == closed;
    var s, s' := Scene(i), Act(Scene(i), Choice(i));
    assert s'.fs == Scene(i + 1).fs;
    var own := [Removal(0, Inode(SocketNode, true))];
    assert [] + own == own;
    assert forall k :: 0 <= k < |s'.procs| ==> s'.procs[k] == Scene(i + 1).procs[k];
  }

  /**
   The exception in `CrashRecovery` is reachable: a predecessor that drops between a successor's `exists`
   and its metadata read leaves that start to fail on a path that is free.
   */
  lemma {:induction false} DropBeforeMetadataIsReachable() returns (ss: seq<System>)
    ensures Run(ss)
    ensures var s := ss[|ss| - 1];
            && |s.procs| == 2 && s.procs[0].stage.Dropped? && s.procs[1].stage.ReadMetadata?
            && s.procs[1].path !in s.fs.entries && !EndsServing(s.fs, s.procs[1])
  {
    ss := seq(11, i requires 0 <= i < 11 => Scene(i));
    forall i | 0 <= i < 10
      ensures NextAt(ss, i)
    {
      if i < 5 { FirstDaemonStarts(i); } else { FirstDaemonDrops(i); }
      assert Enabled(ss[i], Choice(i)) && ss[i + 1] == Act(ss[i], Choice(i));
    }
    CrashRecovery(ss, 10, 1);
  }
}
