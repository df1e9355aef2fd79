/**
 The memo of account names: a map behind a mutex, two short critical sections, and an NSS lookup
 between them that holds nothing.
 */
module Memo {
  import opened Prelude
  import Text

  const MAX_CALLER_NAME_CHARS: nat := 64

  /** What the memo holds: the sanitised name of a uid, or the fact that no account owns it. */
  type Names = map<U32, Option<string>>

  /** How one NSS lookup ends: with an account or its absence, or not at all. */
  datatype Lookup = Answered(account: Option<string>) | Unavailable

  function Sanitize(name: string): (r: string)
    ensures Text.OneLine(r) && |r| == (if |name| <= 64 then |name| else 64)
    ensures forall i :: 0 <= i < |r| ==> r[i] == (if name[i] == '\n' || name[i] == '\r' then ' ' else name[i])
  {
    Text.Bounded(name, MAX_CALLER_NAME_CHARS)
  }

  /** `name` is the first 64 characters of the account's name with spaces for line breaks, or there is no account. */
  predicate NamesAccount(name: Option<string>, account: Option<string>) {
    match account
    case None => name.None?
    case Some(n) =>
      && name.Some? && |name.value| == (if |n| <= 64 then |n| else 64)
      && forall i :: 0 <= i < |name.value| ==>
           name.value[i] == (if n[i] == '\n' || n[i] == '\r' then ' ' else n[i])
  }

  function Resolved(account: Option<string>): (name: Option<string>)
    ensures NamesAccount(name, account)
  {
    if account.Some? then Some(Sanitize(account.value)) else None
  }

  function Get(names: Names, uid: U32): Option<Option<string>> {
    if uid in names then Some(names[uid]) else None
  }

  /** One undisturbed call: the name it returns and the memo it leaves. */
  function Resolve(names: Names, uid: U32, lookup: Lookup): (Option<string>, Names) {
    if uid in names then (names[uid], names)
    else match lookup
      case Unavailable => (None, names)
      case Answered(account) => (Resolved(account), names[uid := Resolved(account)])
  }

  class NameCache {
    var names: Names

    constructor ()
      ensures names == map[]
    {
      names := map[];
    }

    /** The first critical section. */
    method Peek(uid: U32) returns (cached: Option<Option<string>>)
      ensures cached == Get(names, uid)
    {
      if uid in names {
        return Some(names[uid]);
      }
      return None;
    }

    /** The second critical section. */
    method Remember(uid: U32, resolved: Option<string>)
      modifies this
      ensures names == old(names)[uid := resolved]
    {
      names := names[uid := resolved];
    }

    method NameForUid(uid: U32, lookup: Lookup) returns (name: Option<string>)
      modifies this
      ensures (name, names) == Resolve(old(names), uid, lookup)
      ensures uid in old(names) ==> name == old(names)[uid] && names == old(names)
      ensures uid !in old(names) && lookup.Unavailable? ==> name.None? && names == old(names)
      ensures uid !in old(names) && lookup.Answered? ==>
                NamesAccount(name, lookup.account) && names == old(names)[uid := name]
    {
      var cached := Peek(uid);
      if cached.Some? {
        return cached.value;
      }
      match lookup {
        case Unavailable =>
          return None;
        case Answered(account) =>
          name := Resolved(account);
          Remember(uid, name);
      }
    }
  }

  // ---------------------------------------------------------------------
  // Many threads
  // ---------------------------------------------------------------------

  /** Where a thread is in its call. `Reading` and `Writing` hold the mutex. */
  datatype Stage =
    | Outside
    | WantRead(uid: U32)
    | Reading(uid: U32)
    | InNss(uid: U32)
    | WantWrite(uid: U32, resolved: Option<string>)
    | Writing(uid: U32, resolved: Option<string>)

  /** `stored` remembers what the memo held for the uid when the call began. */
  datatype Thread = Thread(stage: Stage, stored: Option<Option<string>>)

  /** One finished call. */
  datatype Returned = Returned(
    uid: U32, name: Option<string>, stored: Option<Option<string>>, consulted: bool, failed: bool)

  datatype System = System(names: Names, mutex: Option<nat>, threads: seq<Thread>, finished: seq<Returned>)

  predicate Holding(stage: Stage) { stage.Reading? || stage.Writing? }

  ghost predicate Init(s: System) {
    && s.names == map[] && s.mutex == None && s.finished == []
    && forall t :: 0 <= t < |s.threads| ==> s.threads[t] == Thread(Outside, None)
  }

  /** What a thread may do next. Only NSS has a choice: it answers or it fails. */
  datatype Action = Begin(uid: U32) | Lock | Look | NssFails | NssAnswers | Store

  predicate Enabled(s: System, t: nat, a: Action) {
    && t < |s.threads|
    && match s.threads[t].stage
       case Outside => a.Begin?
       case WantRead(_) => a.Lock? && s.mutex.None?
       case Reading(_) => a.Look?
       case InNss(_) => a.NssFails? || a.NssAnswers?
       case WantWrite(_, _) => a.Lock? && s.mutex.None?
       case Writing(_, _) => a.Store?
  }

  /** What the step leaves of the thread that took it. */
  function ThreadAfter(oracle: U32 -> Option<string>, s: System, t: nat, a: Action): Thread
    requires Enabled(s, t, a)
  {
    var th := s.threads[t];
    match a
    case Begin(uid) => Thread(WantRead(uid), Get(s.names, uid))
    case Lock =>
      th.(stage := if th.stage.WantRead? then Reading(th.stage.uid) else Writing(th.stage.uid, th.stage.resolved))
    case Look => if th.stage.uid in s.names then Thread(Outside, None) else th.(stage := InNss(th.stage.uid))
    case NssFails => Thread(Outside, None)
    case NssAnswers => th.(stage := WantWrite(th.stage.uid, Resolved(oracle(th.stage.uid))))
    case Store => Thread(Outside, None)
  }

  /** What the step returns to the caller, if it ends the call. */
  function Result(s: System, t: nat, a: Action): seq<Returned>
    requires Enabled(s, t, a)
  {
    var th := s.threads[t];
    match a
    case Look =>
      if th.stage.uid in s.names
      then [Returned(th.stage.uid, s.names[th.stage.uid], th.stored, false, false)]
      else []
    case NssFails => [Returned(th.stage.uid, None, th.stored, true, true)]
    case Store => [Returned(th.stage.uid, th.stage.resolved, th.stored, true, false)]
    case _ => []
  }

  function Act(oracle: U32 -> Option<string>, s: System, t: nat, a: Action): System
    requires Enabled(s, t, a)
  {
    var th := s.threads[t];
    System(
      if a.Store? then s.names[th.stage.uid := th.stage.resolved] else s.names,
      if a.Lock? then Some(t) else if a.Look? || a.Store? then None else s.mutex,
      s.threads[t := ThreadAfter(oracle, s, t, a)],
      s.finished + Result(s, t, a))
  }

  ghost predicate Step(oracle: U32 -> Option<string>, s: System, s': System, t: nat, a: Action) {
    Enabled(s, t, a) && s' == Act(oracle, s, t, a)
  }

  ghost predicate Next(oracle: U32 -> Option<string>, s: System, s': System) {
    exists t: nat, a :: Step(oracle, s, s', t, a)
  }

  ghost predicate NextAt(oracle: U32 -> Option<string>, ss: seq<System>, i: int) {
    0 <= i < |ss| - 1 && Next(oracle, ss[i], ss[i + 1])
  }

  ghost predicate Run(oracle: U32 -> Option<string>, ss: seq<System>) {
    && |ss| > 0 && Init(ss[0])
    && forall i :: 0 <= i < |ss| - 1 ==> NextAt(oracle, ss, i)
  }

  /** What is known of a thread inside its call. */
  ghost predicate ThreadOk(oracle: U32 -> Option<string>, names: Names, th: Thread) {
    match th.stage
    case Outside => th.stored.None?
    case WantRead(uid) => th.stored.Some? ==> uid in names && names[uid] == th.stored.value
    case Reading(uid) => th.stored.Some? ==> uid in names && names[uid] == th.stored.value
    case InNss(_) => th.stored.None?
    case WantWrite(uid, resolved) => th.stored.None? && resolved == Resolved(oracle(uid))
    case Writing(uid, resolved) => th.stored.None? && resolved == Resolved(oracle(uid))
  }

  /** A failed lookup returns `None`; every other call returns the sanitised answer of the oracle. */
  ghost predicate ReturnOk(oracle: U32 -> Option<string>, r: Returned) {
    && r.name == (if r.failed then None else Resolved(oracle(r.uid)))
    && (r.failed ==> r.consulted)
    && (r.stored.Some? ==> !r.consulted && r.name == r.stored.value)
  }

  ghost predicate Completed(finished: seq<Returned>, uid: U32) {
    exists i :: 0 <= i < |finished| && finished[i].uid == uid && finished[i].consulted && !finished[i].failed
  }

  ghost predicate NamesOk(oracle: U32 -> Option<string>, s: System) {
    && (forall uid :: uid in s.names ==> s.names[uid] == Resolved(oracle(uid)))
    && (forall uid :: uid in s.names <==> Completed(s.finished, uid))
  }

  ghost predicate ThreadsOk(oracle: U32 -> Option<string>, s: System) {
    forall t :: 0 <= t < |s.threads| ==> ThreadOk(oracle, s.names, s.threads[t])
  }

  ghost predicate MutexOk(s: System) {
    forall t :: 0 <= t < |s.threads| ==> (Holding(s.threads[t].stage) <==> s.mutex == Some(t))
  }

  ghost predicate ReturnsOk(oracle: U32 -> Option<string>, s: System) {
    forall i :: 0 <= i < |s.finished| ==> ReturnOk(oracle, s.finished[i])
  }

  ghost predicate Inv(oracle: U32 -> Option<string>, s: System) {
    NamesOk(oracle, s) && ThreadsOk(oracle, s) && MutexOk(s) && ReturnsOk(oracle, s)
  }

  lemma CompletedAppend(finished: seq<Returned>, r: Returned, uid: U32)
    ensures Completed(finished + [r], uid) <==>
            Completed(finished, uid) || (r.uid == uid && r.consulted && !r.failed)
  {
    var more := finished + [r];
    if Completed(finished, uid) {
      var i :| 0 <= i < |finished| && finished[i].uid == uid && finished[i].consulted && !finished[i].failed;
      assert more[i] == finished[i];
    }
    if r.uid == uid && r.consulted && !r.failed {
      assert more[|finished|] == r;
    }
  }

  lemma {:induction false} StepKeepsNames(oracle: U32 -> Option<string>, s: System, s': System, t: nat, a: Action)
    requires Inv(oracle, s) && Step(oracle, s, s', t, a)
    ensures NamesOk(oracle, s')
  {
    assert ThreadOk(oracle, s.names, s.threads[t]);
    if Result(s, t, a) == [] {
      assert s'.finished == s.finished;
    } else {
      var r := Result(s, t, a)[0];
      assert s'.finished == s.finished + [r];
      forall uid: U32
        ensures uid in s'.names <==> Completed(s'.finished, uid)
      {
        CompletedAppend(s.finished, r, uid);
      }
    }
  }

  lemma {:induction false} StepKeepsInv(oracle: U32 -> Option<string>, s: System, s': System, t: nat, a: Action)
    requires Inv(oracle, s) && Step(oracle, s, s', t, a)
    ensures Inv(oracle, s')
  {
    StepKeepsNames(oracle, s, s', t, a);
    assert ThreadOk(oracle, s.names, s.threads[t]);
    assert ThreadOk(oracle, s'.names, s'.threads[t]);
    assert forall u :: 0 <= u < |s.threads| && u != t ==> s'.threads[u] == s.threads[u];
    assert ThreadsOk(oracle, s');
  }

  lemma {:induction false} RunKeepsInv(oracle: U32 -> Option<string>, ss: seq<System>, i: nat)
    requires Run(oracle, ss) && i < |ss|
    ensures Inv(oracle, ss[i])
  {
    if i > 0 {
      RunKeepsInv(oracle, ss, i - 1);
      assert NextAt(oracle, ss, i - 1);
      var t: nat, a :| Step(oracle, ss[i - 1], ss[i], t, a);
      StepKeepsInv(oracle, ss[i - 1], ss[i], t, a);
    }
  }

  /**
   The memo refines the oracle, in every interleaving: every entry, and every name returned by a call
   whose lookup did not fail, is the account's name cut to 64 characters on one line, or its absence; a
   failed lookup returns no name; and no thread is in NSS while it holds the mutex - which at most one
   thread does.
   */
  lemma {:induction false} MemoRefinesOracle(oracle: U32 -> Option<string>, ss: seq<System>, i: nat)
    requires Run(oracle, ss) && i < |ss|
    ensures forall uid :: uid in ss[i].names ==> NamesAccount(ss[i].names[uid], oracle(uid))
    ensures forall r :: r in ss[i].finished ==>
              if r.failed then r.name.None? && r.consulted else NamesAccount(r.name, oracle(r.uid))
    ensures forall r, q :: r in ss[i].finished && q in ss[i].finished && r.uid == q.uid && !r.failed && !q.failed ==>
              r.name == q.name
    ensures forall t :: 0 <= t < |ss[i].threads| && ss[i].threads[t].stage.InNss? ==> ss[i].mutex != Some(t)
    ensures forall t, u :: 0 <= t < |ss[i].threads| && 0 <= u < |ss[i].threads| ==>
              Holding(ss[i].threads[t].stage) && Holding(ss[i].threads[u].stage) ==> t == u
  {
    RunKeepsInv(oracle, ss, i);
  }

  /** The memo holds exactly the uids some lookup completed for; failures and hits leave no trace. */
  lemma {:induction false} MemoRemembersExactlyTheCompleted(oracle: U32 -> Option<string>, ss: seq<System>, i: nat)
    requires Run(oracle, ss) && i < |ss|
    ensures forall uid :: uid in ss[i].names <==> Completed(ss[i].finished, uid)
  {
    RunKeepsInv(oracle, ss, i);
  }

  /** `s'` holds all that `s` holds, and has returned all that `s` had. */
  ghost predicate Grows(s: System, s': System) {
    && (forall uid :: uid in s.names ==> uid in s'.names && s'.names[uid] == s.names[uid])
    && |s.finished| <= |s'.finished| && s'.finished[..|s.finished|] == s.finished
    && |s.threads| == |s'.threads|
  }

  lemma {:induction false} StepGrows(oracle: U32 -> Option<string>, s: System, s': System)
    requires Inv(oracle, s) && Next(oracle, s, s')
    ensures Grows(s, s')
  {
    var t: nat, a :| Step(oracle, s, s', t, a);
    assert ThreadOk(oracle, s.names, s.threads[t]);
  }

  lemma GrowsOn(a: System, b: System, c: System)
    requires Grows(a, b) && Grows(b, c)
    ensures Grows(a, c)
  {
    assert c.finished[..|a.finished|] == c.finished[..|b.finished|][..|a.finished|];
  }

  /** Nothing is ever forgotten or changed. */
  lemma {:induction false} MemoOnlyGrows(oracle: U32 -> Option<string>, ss: seq<System>, i: nat, j: nat)
    requires Run(oracle, ss) && i <= j < |ss|
    ensures Grows(ss[i], ss[j])
    decreases j - i
  {
    if i < j {
      MemoOnlyGrows(oracle, ss, i, j - 1);
      RunKeepsInv(oracle, ss, j - 1);
      assert NextAt(oracle, ss, j - 1);
      StepGrows(oracle, ss[j - 1], ss[j]);
      GrowsOn(ss[i], ss[j - 1], ss[j]);
    }
  }

  /** Thread `t` begins a call for `uid` in the step after `j`, and is still in it at `k`. */
  ghost predicate InCallFrom(ss: seq<System>, t: nat, uid: U32, j: nat, k: nat) {
    && j < k < |ss| && t < |ss[j].threads| && (forall m :: j < m <= k ==> t < |ss[m].threads|)
    && ss[j].threads[t].stage.Outside? && ss[j + 1].threads[t].stage == WantRead(uid)
    && forall m :: j < m <= k ==> !ss[m].threads[t].stage.Outside?
  }

  predicate ServedFromMemo(th: Thread, uid: U32, value: Option<string>) {
    th.stored == Some(value) && (th.stage == WantRead(uid) || th.stage == Reading(uid))
  }

  lemma ServedStep(
    oracle: U32 -> Option<string>, s: System, s': System, t: nat, uid: U32, value: Option<string>)
    requires Next(oracle, s, s') && t < |s.threads| == |s'.threads| && ThreadOk(oracle, s.names, s.threads[t])
    requires ServedFromMemo(s.threads[t], uid, value)
    ensures !s'.threads[t].stage.Outside? ==> ServedFromMemo(s'.threads[t], uid, value)
    ensures s'.threads[t].stage.Outside? ==> s'.finished == s.finished + [Returned(uid, value, Some(value), false, false)]
  {
    var u: nat, a :| Step(oracle, s, s', u, a);
  }

  lemma ThreadOkAt(oracle: U32 -> Option<string>, ss: seq<System>, i: nat, t: nat)
    requires Run(oracle, ss) && i + 1 < |ss| && t < |ss[i].threads|
    ensures |ss[i + 1].threads| == |ss[i].threads| && Next(oracle, ss[i], ss[i + 1])
    ensures ThreadOk(oracle, ss[i].names, ss[i].threads[t])
  {
    RunKeepsInv(oracle, ss, i);
    assert NextAt(oracle, ss, i);
    MemoOnlyGrows(oracle, ss, i, i + 1);
  }

  lemma BegunStep(oracle: U32 -> Option<string>, s: System, s': System, t: nat, uid: U32)
    requires Next(oracle, s, s') && t < |s.threads| == |s'.threads|
    requires s.threads[t].stage.Outside? && s'.threads[t].stage == WantRead(uid) && uid in s.names
    ensures ServedFromMemo(s'.threads[t], uid, s.names[uid])
  {
    var u: nat, a :| Step(oracle, s, s', u, a);
  }

  lemma {:induction false} StoredIsKept(
    oracle: U32 -> Option<string>, ss: seq<System>, t: nat, uid: U32, j: nat, k: nat)
    requires Run(oracle, ss) && InCallFrom(ss, t, uid, j, k) && uid in ss[j].names
    ensures ServedFromMemo(ss[k].threads[t], uid, ss[j].names[uid])
    decreases k
  {
    var before, after, value := ss[k - 1], ss[k], ss[j].names[uid];
    assert t < |before.threads| && !after.threads[t].stage.Outside?;
    ThreadOkAt(oracle, ss, k - 1, t);
    if k == j + 1 {
      BegunStep(oracle, before, after, t, uid);
    } else {
      StoredIsKept(oracle, ss, t, uid, j, k - 1);
      ServedStep(oracle, before, after, t, uid, value);
    }
  }

  /**
   Once a uid is stored, a call that begins later never enters NSS, and when it ends it returns the
   stored value.
   */
  lemma {:induction false} StoredAnswersAreServed(
    oracle: U32 -> Option<string>, ss: seq<System>, i: nat, t: nat, uid: U32, j: nat, k: nat)
    requires Run(oracle, ss) && i <= j && InCallFrom(ss, t, uid, j, k) && uid in ss[i].names
    ensures !ss[k].threads[t].stage.InNss?
    ensures k + 1 < |ss| && t < |ss[k + 1].threads| && ss[k + 1].threads[t].stage.Outside? ==>
              && |ss[k + 1].finished| == |ss[k].finished| + 1
              && ss[k + 1].finished[|ss[k].finished|]
                 == Returned(uid, ss[i].names[uid], Some(ss[i].names[uid]), false, false)
  {
    MemoOnlyGrows(oracle, ss, i, j);
    StoredIsKept(oracle, ss, t, uid, j, k);
    if k + 1 < |ss| && t < |ss[k + 1].threads| && ss[k + 1].threads[t].stage.Outside? {
      ThreadOkAt(oracle, ss, k, t);
      ServedStep(oracle, ss[k], ss[k + 1], t, uid, ss[i].names[uid]);
    }
  }

  /** A call that no other thread interrupts takes the steps of the system to what `Resolve` says. */
  lemma {:induction false} UndisturbedCall(
    oracle: U32 -> Option<string>, s: System, t: nat, uid: U32, lookup: Lookup) returns (path: seq<System>)
    requires t < |s.threads| && s.threads[t] == Thread(Outside, None) && s.mutex.None?
    requires lookup.Answered? ==> lookup.account == oracle(uid)
    ensures |path| > 0 && path[0] == s
    ensures forall i :: 0 <= i < |path| - 1 ==> Next(oracle, path[i], path[i + 1])
    ensures var z := path[|path| - 1];
            && z.names == Resolve(s.names, uid, lookup).1 && z.mutex.None? && z.threads == s.threads
            && |z.finished| == |s.finished| + 1 && z.finished[..|s.finished|] == s.finished
            && z.finished[|s.finished|].uid == uid
            && z.finished[|s.finished|].name == Resolve(s.names, uid, lookup).0
  {
    var s1 := Act(oracle, s, t, Begin(uid));
    var s2 := Act(oracle, s1, t, Lock);
    var s3 := Act(oracle, s2, t, Look);
    assert Step(oracle, s, s1, t, Begin(uid)) && Step(oracle, s1, s2, t, Lock) && Step(oracle, s2, s3, t, Look);
    if uid in s.names {
      path := [s, s1, s2, s3];
    } else if lookup.Unavailable? {
      var s4 := Act(oracle, s3, t, NssFails);
      assert Step(oracle, s3, s4, t, NssFails);
      path := [s, s1, s2, s3, s4];
    } else {
      var s4 := Act(oracle, s3, t, NssAnswers);
      var s5 := Act(oracle, s4, t, Lock);
      var s6 := Act(oracle, s5, t, Store);
      assert Step(oracle, s3, s4, t, NssAnswers) && Step(oracle, s4, s5, t, Lock) && Step(oracle, s5, s6, t, Store);
      path := [s, s1, s2, s3, s4, s5, s6];
    }
    assert path[|path| - 1].threads == s.threads;
  }
}
