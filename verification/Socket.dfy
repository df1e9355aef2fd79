/**
 The code of the socket, call by call against a mutable host, proved to do what one process of
 `SocketLife` does when nobody interrupts it.
 */
module Socket {
  import opened Prelude
  import opened SocketLife

  /** What the code asks of the kernel. */
  datatype SystemCall =
    | ExistsAt(path: Path) | LstatAt(path: Path) | ConnectTo(path: Path) | UnlinkAt(path: Path) | BindAt(path: Path)
    | ListenOn(ino: nat) | ChmodAt(path: Path) | CloseOf(ino: nat)

  /** The call a process of the model is about to make, none once it is over or serving. */
  function CallOf(pr: Proc): seq<SystemCall> {
    match pr.stage
    case CheckExists => [ExistsAt(pr.path)]
    case ReadMetadata => [LstatAt(pr.path)]
    case TryConnect => [ConnectTo(pr.path)]
    case RemoveStale => [UnlinkAt(pr.path)]
    case BindNode => [BindAt(pr.path)]
    case StartListening(i) => [ListenOn(i)]
    case SetMode(_) => [ChmodAt(pr.path)]
    case RemoveOwn(_) => [UnlinkAt(pr.path)]
    case CloseFailed(i) => [CloseOf(i)]
    case DropUnlink(_) => [UnlinkAt(pr.path)]
    case DropClose(i) => [CloseOf(i)]
    case _ => []
  }

  /** The calls made so far, and those the rest of a start makes, in order. */
  function Trail(calls: seq<SystemCall>, fs: Fs, pr: Proc, f: Faults): seq<SystemCall>
    decreases Rank(pr.stage)
  {
    if !Starting(pr.stage) then calls
    else
      var (fs', pr') := Advance(fs, pr, FaultAt(f, pr.stage));
      Trail(calls + CallOf(pr), fs', pr', f)
  }

  /** From both points the start makes the same calls and ends in the same way. */
  ghost predicate OnTheWay(
    calls: seq<SystemCall>, fs: Fs, pr: Proc, calls': seq<SystemCall>, fs': Fs, pr': Proc, f: Faults)
  {
    Complete(fs, pr, f) == Complete(fs', pr', f) && Trail(calls, fs, pr, f) == Trail(calls', fs', pr', f)
  }

  /** The part of the kernel the code talks to. Each method is one system call, and is recorded. */
  class Host {
    var fs: Fs
    ghost var calls: seq<SystemCall>

    constructor (fs: Fs)
      ensures this.fs == fs && calls == []
    {
      this.fs, calls := fs, [];
    }

    method Exists(p: Path, fault: bool) returns (there: bool)
      modifies this`calls
      ensures calls == old(calls) + [ExistsAt(p)]
      ensures there == SocketLife.Exists(fs, p, fault)
    {
      calls := calls + [ExistsAt(p)];
      there := SocketLife.Exists(fs, p, fault);
    }

    method Lstat(p: Path, fault: bool) returns (kind: Option<Kind>)
      modifies this`calls
      ensures calls == old(calls) + [LstatAt(p)]
      ensures kind == SocketLife.Lstat(fs, p, fault)
    {
      calls := calls + [LstatAt(p)];
      kind := SocketLife.Lstat(fs, p, fault);
    }

    method Connect(p: Path, fault: bool) returns (probe: Probe)
      modifies this`calls
      ensures calls == old(calls) + [ConnectTo(p)]
      ensures probe == SocketLife.Connect(fs, p, fault)
    {
      calls := calls + [ConnectTo(p)];
      probe := SocketLife.Connect(fs, p, fault);
    }

    method RemoveFile(p: Path, fault: bool) returns (ok: bool)
      modifies this
      ensures calls == old(calls) + [UnlinkAt(p)]
      ensures ok == Unlink(old(fs), p, fault).Some?
      ensures fs == OrSame(old(fs), Unlink(old(fs), p, fault))
    {
      calls := calls + [UnlinkAt(p)];
      var after := Unlink(fs, p, fault);
      ok := after.Some?;
      fs := OrSame(fs, after);
    }

    method BindSocket(p: Path, fault: bool) returns (ino: Option<nat>)
      modifies this
      ensures calls == old(calls) + [BindAt(p)]
      ensures fs == OrSame(old(fs), Mknod(old(fs), p, fault))
      ensures ino == if Mknod(old(fs), p, fault).Some? then Some(old(fs).next) else None
    {
      calls := calls + [BindAt(p)];
      var after := Mknod(fs, p, fault);
      ino := if after.Some? then Some(fs.next) else None;
      fs := OrSame(fs, after);
    }

    method Listen(ino: nat, fault: bool) returns (ok: bool)
      modifies this
      ensures calls == old(calls) + [ListenOn(ino)]
      ensures ok == !fault
      ensures fs == if fault then old(fs) else SetListening(old(fs), ino, true)
    {
      calls := calls + [ListenOn(ino)];
      ok := !fault;
      if ok {
        fs := SetListening(fs, ino, true);
      }
    }

    method SetPermissions(p: Path, fault: bool) returns (ok: bool)
      modifies this`calls
      ensures calls == old(calls) + [ChmodAt(p)]
      ensures ok == (!fault && NodeAt(fs, p).Some?)
    {
      calls := calls + [ChmodAt(p)];
      ok := !fault && NodeAt(fs, p).Some?;
    }

    method Close(ino: nat)
      modifies this
      ensures calls == old(calls) + [CloseOf(ino)]
      ensures fs == SetListening(old(fs), ino, false)
    {
      calls := calls + [CloseOf(ino)];
      fs := SetListening(fs, ino, false);
    }
  }

  class Socket {
    const host: Host
    const path: Path
    /** The listening descriptor. */
    const listener: nat

    constructor (host: Host, path: Path, listener: nat)
      ensures this.host == host && this.path == path && this.listener == listener
    {
      this.host, this.path, this.listener := host, path, listener;
    }

    /** Remove the path only once nothing is shown to be behind it. `pr` follows the process of the model. */
    static method ReclaimStaleSocket(host: Host, p: Path, f: Faults, ghost pr: Proc)
      returns (r: Result<(), BindError>, ghost pr': Proc)
      requires pr.path == p && pr.stage.ReadMetadata?
      modifies host
      ensures OnTheWay(old(host.calls), old(host.fs), pr, host.calls, host.fs, pr', f) && pr'.path == p
      ensures pr'.stage == (if r.Ok? then BindNode else Stage.Failed(r.error))
      ensures NodeAt(old(host.fs), p).None? ==> r == Err(Io(Metadata))
      ensures var fs := old(host.fs);
              p in fs.entries && fs.entries[p] in fs.inodes ==>
                var node := fs.inodes[fs.entries[p]];
                && (r == Err(Io(Metadata)) <==> f.metadata)
                && (r == Err(NotASocket) <==> !f.metadata && node.kind != SocketNode)
                && (r == Err(AlreadyActive) <==>
                      !f.metadata && node.kind == SocketNode && !f.connect && node.listening)
                && (r == Err(Unverifiable) <==> !f.metadata && node.kind == SocketNode && f.connect)
                && (r == Err(Io(Remove)) <==>
                      !f.metadata && node.kind == SocketNode && !f.connect && !node.listening && f.remove)
    {
      pr' := pr;
      var kind := host.Lstat(p, f.metadata);
      pr' := Advance(host.fs, pr', f.metadata).1;
      if kind.None? {
        return Err(Io(Metadata)), pr';
      }
      if kind.value != SocketNode {
        return Err(NotASocket), pr';
      }
      assert OnTheWay(old(host.calls), old(host.fs), pr, host.calls, host.fs, pr', f);
      var probe := host.Connect(p, f.connect);
      pr' := Advance(host.fs, pr', f.connect).1;
      match probe {
        case Connected =>
          return Err(AlreadyActive), pr';
        case ConnectionRefused =>
          assert OnTheWay(old(host.calls), old(host.fs), pr, host.calls, host.fs, pr', f);
          pr' := Advance(host.fs, pr', f.remove).1;
          var removed := host.RemoveFile(p, f.remove);
          if !removed {
            return Err(Io(Remove)), pr';
          }
          return Ok(()), pr';
        case NotFound =>
          return Ok(()), pr';
        case OtherError =>
          return Err(Unverifiable), pr';
      }
    }

    /** A socket nobody can open is worse than none: the path goes, then the listener closes. */
    static method GiveUp(host: Host, p: Path, ino: nat, f: Faults, ghost pr: Proc)
      requires pr.path == p && pr.stage == RemoveOwn(ino)
      modifies host
      ensures Complete(old(host.fs), pr, f).0 == host.fs
      ensures Trail(old(host.calls), old(host.fs), pr, f) == host.calls
      ensures Complete(old(host.fs), pr, f).1.stage == Stage.Failed(Io(Chmod))
    {
      ghost var now := Advance(host.fs, pr, f.cleanup).1;
      var _ := host.RemoveFile(p, f.cleanup);
      assert OnTheWay(old(host.calls), old(host.fs), pr, host.calls, host.fs, now, f);
      now := Advance(host.fs, now, false).1;
      host.Close(ino);
      assert OnTheWay(old(host.calls), old(host.fs), pr, host.calls, host.fs, now, f);
    }

    /** Bind, listen and set the mode, giving the path up again if the mode cannot be set. */
    static method BindAndSetMode(host: Host, p: Path, f: Faults, ghost pr: Proc)
      returns (r: Result<Socket, BindError>)
      requires pr.path == p && pr.stage.BindNode?
      modifies host
      ensures var (fs', pr') := Complete(old(host.fs), pr, f);
              && host.fs == fs' && host.calls == Trail(old(host.calls), old(host.fs), pr, f)
              && match r
                 case Ok(socket) => pr'.stage == Serving(socket.listener) && socket.host == host && socket.path == p
                 case Err(error) => pr'.stage == Stage.Failed(error)
    {
      ghost var now := Advance(host.fs, pr, f.bind).1;
      var ino := host.BindSocket(p, f.bind);
      assert OnTheWay(old(host.calls), old(host.fs), pr, host.calls, host.fs, now, f);
      if ino.None? {
        return Err(Io(BindPath));
      }
      now := Advance(host.fs, now, f.listen).1;
      var listening := host.Listen(ino.value, f.listen);
      assert OnTheWay(old(host.calls), old(host.fs), pr, host.calls, host.fs, now, f);
      if !listening {
        return Err(Io(Listen));
      }
      var moded := host.SetPermissions(p, f.chmod);
      now := Advance(host.fs, now, f.chmod).1;
      assert OnTheWay(old(host.calls), old(host.fs), pr, host.calls, host.fs, now, f);
      if !moded {
        GiveUp(host, p, ino.value, f, now);
        return Err(Io(Chmod));
      }
      var socket := new Socket(host, p, ino.value);
      return Ok(socket);
    }

    /** `Socket::bind`. */
    static method Bind(host: Host, p: Path, f: Faults) returns (r: Result<Socket, BindError>)
      modifies host
      ensures var (fs', pr') := Complete(old(host.fs), Start(p), f);
              && host.fs == fs' && host.calls == Trail(old(host.calls), old(host.fs), Start(p), f)
              && match r
                 case Ok(socket) => pr'.stage == Serving(socket.listener) && socket.host == host && socket.path == p
                 case Err(error) => pr'.stage == Stage.Failed(error)
      ensures var fs := old(host.fs);
              WellFormed(fs) ==>
                && (r == Err(NotASocket) <==>
                      SeesSomething(fs, p, f) && !f.metadata && fs.inodes[fs.entries[p]].kind == FileNode)
                && (r == Err(AlreadyActive) <==>
                      FindsSocket(fs, p, f) && !f.connect && fs.inodes[fs.entries[p]].listening)
                && (r == Err(Unverifiable) <==> FindsSocket(fs, p, f) && f.connect)
                && (r.Ok? <==> ReachesFreePath(fs, p, f) && !f.bind && !f.listen && !f.chmod)
    {
      if WellFormed(host.fs) {
        StartAnswersExactly(host.fs, p, f);
      }
      var there := host.Exists(p, f.exists_);
      ghost var pr := Advance(host.fs, Start(p), f.exists_).1;
      assert OnTheWay(old(host.calls), old(host.fs), Start(p), host.calls, host.fs, pr, f);
      if there {
        var reclaimed;
        reclaimed, pr := ReclaimStaleSocket(host, p, f, pr);
        if reclaimed.Err? {
          return Err(reclaimed.error);
        }
      }
      r := BindAndSetMode(host, p, f, pr);
    }

    /** `Drop`: the path goes first, then the listener closes. */
    method Drop(fault: bool)
      modifies host
      ensures host.calls == old(host.calls) + [UnlinkAt(path), CloseOf(listener)]
      ensures var (fs1, pr1) := Advance(old(host.fs), Proc(path, DropUnlink(listener), Some(listener), None, []), fault);
              host.fs == Advance(fs1, pr1, false).0 && Advance(fs1, pr1, false).1.stage == Dropped
      ensures !fault && NodeAt(old(host.fs), path).Some? && old(host.fs).entries[path] == listener ==>
                path !in host.fs.entries && !host.fs.inodes[listener].listening
    {
      var _ := host.RemoveFile(path, fault);
      host.Close(listener);
    }
  }
}
