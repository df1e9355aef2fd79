/**
 What the serve loop is doing, as the heartbeat thread sees it.

 Instants are integers (microseconds on the monotonic clock) and durations are naturals. Every
 method of `ServeActivity` is one critical section of the mutex: the instant a stamp carries is
 sampled while the lock is held, so it is a parameter of the method. The instant a verdict is asked
 about is sampled before the lock is taken, and may therefore be earlier than the stored stamps.
 */
module Activity {
  import opened Prelude
  import opened Effects

  datatype InFlight = BoundedCall | Streaming

  datatype Liveness = Liveness(
    idleTickCeiling: Option<nat>,
    longestBoundedCall: nat,
    longestSilentStream: Option<nat>)

  datatype InFlightState = InFlightState(kind: InFlight, startedAt: int, lastProgress: int)

  datatype ActivityState = ActivityState(lastTick: int, inFlight: Option<InFlightState>)

  /** One update of the record, with the instant sampled under its lock. */
  datatype Stamp =
    | Tick(at: int)
    | CallStarted(kind: InFlight, at: int)
    | Progressed(at: int)
    | CallFinished(at: int)

  function SaturatingSince(now: int, earlier: int): nat {
    if earlier <= now then now - earlier else 0
  }

  predicate WithinOpt(now: int, earlier: int, ceiling: Option<nat>) {
    ceiling.None? || SaturatingSince(now, earlier) <= ceiling.value
  }

  function Apply(s: ActivityState, stamp: Stamp): ActivityState {
    match stamp
    case Tick(at) => s.(lastTick := at)
    case CallStarted(kind, at) => s.(inFlight := Some(InFlightState(kind, at, at)))
    case Progressed(at) =>
      if s.inFlight.Some? then s.(inFlight := Some(s.inFlight.value.(lastProgress := at))) else s
    case CallFinished(at) => ActivityState(at, None)
  }

  function ReplayFrom(s: ActivityState, stamps: seq<Stamp>): ActivityState {
    if stamps == [] then s
    else Apply(ReplayFrom(s, stamps[..|stamps| - 1]), stamps[|stamps| - 1])
  }

  function Fresh(born: int): ActivityState { ActivityState(born, None) }

  function Replay(born: int, log: seq<Stamp>): ActivityState { ReplayFrom(Fresh(born), log) }

  /** The verdict on the stored fields. */
  predicate Judge(s: ActivityState, now: int, live: Liveness) {
    match s.inFlight
    case None => WithinOpt(now, s.lastTick, live.idleTickCeiling)
    case Some(f) =>
      match f.kind
      case BoundedCall => SaturatingSince(now, f.startedAt) <= live.longestBoundedCall
      case Streaming => WithinOpt(now, f.lastProgress, live.longestSilentStream)
  }

  // ---------------------------------------------------------------------
  // The declarative judgement over the whole event log
  // ---------------------------------------------------------------------

  /** The log, with the creation of the record counted as its first tick. */
  function History(born: int, log: seq<Stamp>): seq<Stamp> { [Tick(born)] + log }

  ghost predicate Monotone(h: seq<Stamp>) {
    forall i, j :: 0 <= i < j < |h| ==> h[i].at <= h[j].at
  }

  /** A stamp an idle loop is judged by. */
  predicate Turn(s: Stamp) { s.Tick? || s.CallFinished? }

  ghost predicate FinishedAfter(h: seq<Stamp>, i: int) {
    exists j :: 0 <= i < j < |h| && h[j].CallFinished?
  }

  /** No call is in flight: every start is followed, sooner or later, by a finish. */
  ghost predicate Idle(h: seq<Stamp>) {
    forall i {:trigger FinishedAfter(h, i)} :: 0 <= i < |h| && h[i].CallStarted? ==> FinishedAfter(h, i)
  }

  /** The call started by `h[i]` is the one in flight: nothing later started or finished a call. */
  ghost predicate OpenCall(h: seq<Stamp>, i: int) {
    && 0 <= i < |h| && h[i].CallStarted?
    && forall j :: i < j < |h| ==> !h[j].CallStarted? && !h[j].CallFinished?
  }

  ghost predicate RecentTurn(h: seq<Stamp>, now: int, ceiling: nat) {
    exists i :: 0 <= i < |h| && Turn(h[i]) && now - h[i].at <= ceiling
  }

  ghost predicate RecentProgress(h: seq<Stamp>, start: int, now: int, ceiling: nat) {
    exists j :: 0 <= start <= j < |h| && (j == start || h[j].Progressed?) && now - h[j].at <= ceiling
  }

  ghost predicate CallHealthy(h: seq<Stamp>, i: int, now: int, live: Liveness) {
    && OpenCall(h, i)
    && match h[i].kind
       case BoundedCall => now - h[i].at <= live.longestBoundedCall
       case Streaming =>
         live.longestSilentStream.None? || RecentProgress(h, i, now, live.longestSilentStream.value)
  }

  /** Alive: an idle loop turned recently enough, or the call in flight is within its own ceiling. */
  ghost predicate DeclaredAlive(h: seq<Stamp>, now: int, live: Liveness) {
    if Idle(h) then live.idleTickCeiling.None? || RecentTurn(h, now, live.idleTickCeiling.value)
    else exists i :: CallHealthy(h, i, now, live)
  }

  /** Where in the history the stored fields come from. */
  ghost predicate Traces(h: seq<Stamp>, s: ActivityState, turn: int, start: int, progress: int) {
    && 0 <= turn < |h| && Turn(h[turn]) && h[turn].at == s.lastTick
    && (forall j :: turn < j < |h| ==> !Turn(h[j]))
    && match s.inFlight
       case None => Idle(h)
       case Some(f) =>
         && OpenCall(h, start) && h[start].kind == f.kind && h[start].at == f.startedAt
         && start <= progress < |h| && (progress == start || h[progress].Progressed?)
         && h[progress].at == f.lastProgress
         && (forall j :: progress < j < |h| ==> !h[j].Progressed?)
  }

  lemma {:induction false} TraceFields(born: int, log: seq<Stamp>) returns (turn: int, start: int, progress: int)
    ensures Traces(History(born, log), Replay(born, log), turn, start, progress)
  {
    if log == [] {
      turn, start, progress := 0, 0, 0;
    } else {
      var n := |log|;
      var init, last := log[..n - 1], log[n - 1];
      turn, start, progress := TraceFields(born, init);
      var h, g := History(born, log), History(born, init);
      assert h == g + [last];
      if Turn(last) { turn := n; }
      if last.CallStarted? { start, progress := n, n; }
      if last.Progressed? { progress := n; }
      if last.CallFinished? {
        assert h[n].CallFinished?;
      } else if !last.CallStarted? && Replay(born, init).inFlight.None? {
        forall i | 0 <= i < |h| && h[i].CallStarted?
          ensures FinishedAfter(h, i)
        {
          assert g[i].CallStarted? && FinishedAfter(g, i);
          var j :| i < j < |g| && g[j].CallFinished?;
          assert h[j].CallFinished?;
        }
      }
    }
  }

  lemma OpenIsNotIdle(h: seq<Stamp>, o: int)
    requires OpenCall(h, o)
    ensures !Idle(h)
  {
    assert !FinishedAfter(h, o);
  }

  lemma ProgressIsLatest(h: seq<Stamp>, start: int, progress: int, now: int, ceiling: nat)
    requires Monotone(h) && 0 <= start <= progress < |h|
    requires progress == start || h[progress].Progressed?
    requires forall j :: progress < j < |h| ==> !h[j].Progressed?
    ensures RecentProgress(h, start, now, ceiling) <==> now - h[progress].at <= ceiling
  {
  }

  /** The two stored fields carry exactly what the whole log says, for every sequence of stamps. */
  lemma {:induction false} LogRefinement(born: int, log: seq<Stamp>, now: int, live: Liveness)
    requires Monotone(History(born, log))
    ensures Judge(Replay(born, log), now, live) <==> DeclaredAlive(History(born, log), now, live)
  {
    var h, s := History(born, log), Replay(born, log);
    var turn, start, progress := TraceFields(born, log);
    match s.inFlight
    case None =>
      assert forall i :: 0 <= i < |h| && Turn(h[i]) ==> h[i].at <= h[turn].at;
    case Some(f) =>
      OpenIsNotIdle(h, start);
      assert forall i :: CallHealthy(h, i, now, live) ==> i == start;
      if f.kind == Streaming && live.longestSilentStream.Some? {
        ProgressIsLatest(h, start, progress, now, live.longestSilentStream.value);
      }
      assert CallHealthy(h, start, now, live) <==> Judge(s, now, live);
  }

  // ---------------------------------------------------------------------
  // The sample that is older than the state it is judged against
  // ---------------------------------------------------------------------

  lemma {:induction false} ReplayFromFront(s: ActivityState, stamps: seq<Stamp>)
    requires stamps != []
    ensures ReplayFrom(s, stamps) == ReplayFrom(Apply(s, stamps[0]), stamps[1..])
  {
    var n := |stamps|;
    if n > 1 {
      ReplayFromFront(s, stamps[..n - 1]);
      assert stamps[1..][..n - 2] == stamps[..n - 1][1..];
    } else {
      assert stamps[..0] == [];
    }
  }

  lemma {:induction false} ReplayAppend(s: ActivityState, a: seq<Stamp>, b: seq<Stamp>)
    ensures ReplayFrom(s, a + b) == ReplayFrom(ReplayFrom(s, a), b)
  {
    if b == [] {
      assert a + b == a;
    } else {
      ReplayAppend(s, a, b[..|b| - 1]);
      assert (a + b)[..|a + b| - 1] == a + b[..|b| - 1];
    }
  }

  /** The stamps that restart the clock a state is judged by. */
  predicate Revives(s: ActivityState, stamp: Stamp) {
    match stamp
    case Tick(_) => s.inFlight.None?
    case CallStarted(_, _) => true
    case Progressed(_) => s.inFlight.Some? && s.inFlight.value.kind == Streaming
    case CallFinished(_) => true
  }

  /**
   Stamps that land between the sample and the lock can only help: the verdict at the sampled
   instant stays alive, and turns alive from dead exactly when one of them restarts the clock the
   state was judged by. No order among the stamps is assumed beyond their being later than the sample.
   */
  lemma {:induction false} LateLock(s: ActivityState, stamps: seq<Stamp>, now: int, live: Liveness)
    requires forall i :: 0 <= i < |stamps| ==> now <= stamps[i].at
    ensures Judge(ReplayFrom(s, stamps), now, live) <==>
            Judge(s, now, live) || exists i :: 0 <= i < |stamps| && Revives(s, stamps[i])
    decreases |stamps|
  {
    if stamps != [] {
      var s', rest := Apply(s, stamps[0]), stamps[1..];
      ReplayFromFront(s, stamps);
      LateLock(s', rest, now, live);
      if Revives(s, stamps[0]) {
        assert Judge(s', now, live);
      } else {
        assert Judge(s', now, live) == Judge(s, now, live);
        assert forall st :: Revives(s', st) == Revives(s, st);
        assert forall i :: 0 <= i < |rest| ==> rest[i] == stamps[i + 1];
        assert forall i :: 0 < i < |stamps| ==> stamps[i] == rest[i - 1];
      }
    }
  }

  /**
   No amount of ticking or progress moves the verdict on a bounded call, at any instant; so a call that
   has overstayed stays dead, however much it is stamped, until it finishes or another starts.
   */
  lemma {:induction false} StampingNeverExtendsABoundedCall(
    s: ActivityState, stamps: seq<Stamp>, now: int, live: Liveness)
    requires s.inFlight.Some? && s.inFlight.value.kind == BoundedCall
    requires forall i :: 0 <= i < |stamps| ==> stamps[i].Tick? || stamps[i].Progressed?
    ensures Judge(ReplayFrom(s, stamps), now, live) == Judge(s, now, live)
    ensures ReplayFrom(s, stamps).inFlight.Some?
    ensures ReplayFrom(s, stamps).inFlight.value.kind == BoundedCall
    ensures ReplayFrom(s, stamps).inFlight.value.startedAt == s.inFlight.value.startedAt
    ensures !Judge(s, now, live) ==> forall later :: now <= later ==> !Judge(ReplayFrom(s, stamps), later, live)
  {
    if stamps != [] {
      StampingNeverExtendsABoundedCall(s, stamps[..|stamps| - 1], now, live);
    }
  }

  /** The instant a state is judged by. */
  function JudgedSince(s: ActivityState): int {
    match s.inFlight
    case None => s.lastTick
    case Some(f) => if f.kind == BoundedCall then f.startedAt else f.lastProgress
  }

  /** The ceiling it is judged against, if it is judged at all. */
  function CeilingOf(s: ActivityState, live: Liveness): Option<nat> {
    match s.inFlight
    case None => live.idleTickCeiling
    case Some(f) => if f.kind == BoundedCall then Some(live.longestBoundedCall) else live.longestSilentStream
  }

  lemma JudgedByCeiling(s: ActivityState, now: int, live: Liveness)
    ensures Judge(s, now, live) <==> WithinOpt(now, JudgedSince(s), CeilingOf(s, live))
  {
  }

  // ---------------------------------------------------------------------
  // Keeping the ceilings, as a property of the log alone
  // ---------------------------------------------------------------------

  /** A stream is open after the last stamp of `h`. */
  ghost predicate InStream(h: seq<Stamp>) {
    exists o :: OpenCall(h, o) && h[o].kind == Streaming
  }

  /** The ceiling on the silence that starts at `h[i]`, if that stamp starts one. */
  ghost function Obligation(h: seq<Stamp>, i: nat, live: Liveness): Option<nat>
    requires i < |h|
  {
    match h[i]
    case CallStarted(BoundedCall, _) => Some(live.longestBoundedCall)
    case CallStarted(Streaming, _) => live.longestSilentStream
    case Progressed(_) => if InStream(h[..i + 1]) then live.longestSilentStream else None
    case _ => if Idle(h[..i + 1]) then live.idleTickCeiling else None
  }

  /** `next` ends the silence that `from` started. */
  predicate Relieves(from: Stamp, next: Stamp) {
    match next
    case Tick(_) => Turn(from)
    case Progressed(_) => from.Progressed? || (from.CallStarted? && from.kind == Streaming)
    case _ => true
  }

  function TimeAt(h: seq<Stamp>, end: int, j: nat): int {
    if j < |h| then h[j].at else end
  }

  /**
   The serve thread keeps its ceilings up to `end`: whenever a stamp starts a judged silence - an
   idle stretch, a bounded call, a stretch of a watched stream - the stamp that ends it, or `end` if
   none does, comes within the ceiling.
   */
  ghost predicate KeepsCeilings(h: seq<Stamp>, end: int, live: Liveness) {
    forall i, j {:trigger Obligation(h, i, live), TimeAt(h, end, j)} ::
      0 <= i < j <= |h| && Obligation(h, i, live).Some?
      && (forall k :: i < k < j ==> !Relieves(h[i], h[k])) ==>
        TimeAt(h, end, j) - h[i].at <= Obligation(h, i, live).value
  }

  lemma IdleAtLastTurn(g: seq<Stamp>, turn: nat)
    requires turn < |g| && Turn(g[turn]) && Idle(g)
    requires forall j :: turn < j < |g| ==> !Turn(g[j])
    ensures Idle(g[..turn + 1])
    ensures forall k :: turn < k < |g| ==> !Relieves(g[turn], g[k])
  {
    var p := g[..turn + 1];
    forall i | 0 <= i < |g| && g[i].CallStarted?
      ensures i < turn && FinishedAfter(p, i)
    {
      assert FinishedAfter(g, i);
      var j :| i < j < |g| && g[j].CallFinished?;
      assert p[j].CallFinished?;
    }
  }

  lemma StreamAtProgress(g: seq<Stamp>, start: nat, progress: nat)
    requires OpenCall(g, start) && g[start].kind == Streaming && start <= progress < |g|
    requires progress == start || g[progress].Progressed?
    requires forall j :: progress < j < |g| ==> !g[j].Progressed?
    ensures InStream(g[..progress + 1])
    ensures forall k :: progress < k < |g| ==> !Relieves(g[progress], g[k])
  {
    assert OpenCall(g[..progress + 1], start);
  }

  /** The stamp a state is judged by, with the ceiling it sets and nothing since that relieves it. */
  lemma {:induction false} GoverningStamp(
    g: seq<Stamp>, s: ActivityState, turn: int, start: int, progress: int, live: Liveness) returns (i: nat)
    requires Traces(g, s, turn, start, progress)
    ensures i < |g| && g[i].at == JudgedSince(s) && Obligation(g, i, live) == CeilingOf(s, live)
    ensures forall k :: i < k < |g| ==> !Relieves(g[i], g[k])
  {
    match s.inFlight
    case None =>
      i := turn;
      IdleAtLastTurn(g, turn);
    case Some(f) =>
      if f.kind == BoundedCall {
        i := start;
      } else {
        i := progress;
        StreamAtProgress(g, start, progress);
      }
  }

  lemma ObligationOfPrefix(h: seq<Stamp>, m: nat, i: nat, live: Liveness)
    requires i < m <= |h|
    ensures Obligation(h[..m], i, live) == Obligation(h, i, live)
  {
    assert h[..m][..i + 1] == h[..i + 1];
  }

  /** A thread that keeps its ceilings is alive at every instant of its run. */
  lemma {:induction false} KeepingCeilingsIsAlive(
    born: int, log: seq<Stamp>, n: nat, now: int, end: int, live: Liveness)
    requires n <= |log|
    requires KeepsCeilings(History(born, log), end, live)
    requires now <= end && (n < |log| ==> now <= log[n].at)
    ensures Judge(Replay(born, log[..n]), now, live)
  {
    var h, g, s := History(born, log), History(born, log[..n]), Replay(born, log[..n]);
    var turn, start, progress := TraceFields(born, log[..n]);
    var i := GoverningStamp(g, s, turn, start, progress, live);
    assert g == h[..n + 1];
    ObligationOfPrefix(h, n + 1, i, live);
    assert now <= TimeAt(h, end, n + 1);
    JudgedByCeiling(s, now, live);
  }

  /** `s` is judged by the silence that `h[i]` started. */
  ghost predicate JudgedBy(h: seq<Stamp>, i: nat, s: ActivityState, live: Liveness)
    requires i < |h|
  {
    && JudgedSince(s) == h[i].at && CeilingOf(s, live) == Obligation(h, i, live)
    && (Turn(h[i]) <==> s.inFlight.None?)
    && (s.inFlight.Some? && s.inFlight.value.kind == BoundedCall ==> h[i].CallStarted?)
    && (h[i].CallStarted? ==> s.inFlight.Some? && s.inFlight.value.kind == h[i].kind)
  }

  lemma {:induction false} LastStampIsJudgedBy(
    g: seq<Stamp>, s: ActivityState, turn: int, start: int, progress: int, live: Liveness)
    requires Traces(g, s, turn, start, progress) && Obligation(g, |g| - 1, live).Some?
    ensures JudgedBy(g, |g| - 1, s, live)
  {
    var i := |g| - 1;
    assert g[..i + 1] == g;
    if s.inFlight.Some? {
      OpenIsNotIdle(g, start);
      assert forall o :: OpenCall(g, o) ==> o == start;
    } else {
      forall o | OpenCall(g, o)
        ensures false
      {
        OpenIsNotIdle(g, o);
      }
      assert !FinishedAfter(g, i);
    }
  }

  lemma SilenceGoesOn(h: seq<Stamp>, i: nat, s: ActivityState, next: Stamp, live: Liveness)
    requires i < |h| && JudgedBy(h, i, s, live) && !Relieves(h[i], next)
    ensures JudgedBy(h, i, Apply(s, next), live)
  {
  }

  /** A silence that nothing has relieved is what the state is still judged by. */
  lemma {:induction false} SilenceIsJudged(born: int, log: seq<Stamp>, i: nat, j: nat, live: Liveness)
    requires i < j <= |log| + 1
    requires Obligation(History(born, log), i, live).Some?
    requires forall k :: i < k < j ==> !Relieves(History(born, log)[i], History(born, log)[k])
    ensures JudgedBy(History(born, log), i, Replay(born, log[..j - 1]), live)
  {
    var h, s := History(born, log), Replay(born, log[..j - 1]);
    if j == i + 1 {
      var turn, start, progress := TraceFields(born, log[..i]);
      assert History(born, log[..i]) == h[..i + 1];
      ObligationOfPrefix(h, i + 1, i, live);
      LastStampIsJudgedBy(h[..i + 1], s, turn, start, progress, live);
    } else {
      SilenceIsJudged(born, log, i, j - 1, live);
      assert log[..j - 1][..j - 2] == log[..j - 2] && log[..j - 1][j - 2] == h[j - 1];
      SilenceGoesOn(h, i, Replay(born, log[..j - 2]), h[j - 1], live);
    }
  }

  /** `now` falls after the first `n` stamps and not after the next one, within a run ending at `end`. */
  predicate InGap(log: seq<Stamp>, n: nat, now: int, end: int) {
    n <= |log| && now <= end && (n < |log| ==> now <= log[n].at)
  }

  lemma {:induction false} AliveAtTheEndOfASilence(
    born: int, log: seq<Stamp>, i: nat, j: nat, end: int, live: Liveness)
    requires i < j <= |log| + 1 && Obligation(History(born, log), i, live).Some?
    requires forall k :: i < k < j ==> !Relieves(History(born, log)[i], History(born, log)[k])
    requires Judge(Replay(born, log[..j - 1]), TimeAt(History(born, log), end, j), live)
    ensures TimeAt(History(born, log), end, j) - History(born, log)[i].at <= Obligation(History(born, log), i, live).value
  {
    SilenceIsJudged(born, log, i, j, live);
    JudgedByCeiling(Replay(born, log[..j - 1]), TimeAt(History(born, log), end, j), live);
  }

  /** Keeping the ceilings is not only enough to be alive throughout a run: it is the same thing. */
  lemma {:induction false} AliveThroughoutExactly(born: int, log: seq<Stamp>, end: int, live: Liveness)
    requires forall i :: 0 <= i < |log| ==> log[i].at <= end
    ensures KeepsCeilings(History(born, log), end, live) <==>
            forall n: nat, now :: InGap(log, n, now, end) ==> Judge(Replay(born, log[..n]), now, live)
  {
    var h := History(born, log);
    if KeepsCeilings(h, end, live) {
      forall n: nat, now | InGap(log, n, now, end)
        ensures Judge(Replay(born, log[..n]), now, live)
      {
        KeepingCeilingsIsAlive(born, log, n, now, end, live);
      }
    } else {
      var i, j :| 0 <= i < j <= |h| && Obligation(h, i, live).Some?
                  && (forall k :: i < k < j ==> !Relieves(h[i], h[k]))
                  && TimeAt(h, end, j) - h[i].at > Obligation(h, i, live).value;
      assert InGap(log, j - 1, TimeAt(h, end, j), end);
      if Judge(Replay(born, log[..j - 1]), TimeAt(h, end, j), live) {
        AliveAtTheEndOfASilence(born, log, i, j, end, live);
      }
    }
  }

  // ---------------------------------------------------------------------
  // The shared record
  // ---------------------------------------------------------------------

  class ServeActivity<E> {
    var lastTick: int
    var inFlight: Option<InFlightState>
    /** A serve thread that panicked while holding the lock leaves it poisoned. */
    var poisoned: bool

    const recorder: Recorder<E>
    /** The effect that a stamp which lands has. */
    ghost const effectOf: Stamp -> E

    ghost const born: int
    /** Every stamp that landed, in lock order. */
    ghost var log: seq<Stamp>

    ghost function State(): ActivityState
      reads this
    {
      ActivityState(lastTick, inFlight)
    }

    ghost predicate Valid()
      reads this
    {
      State() == Replay(born, log)
    }

    constructor (now: int, recorder: Recorder<E>, ghost effectOf: Stamp -> E)
      ensures Valid() && !poisoned && this.recorder == recorder && this.effectOf == effectOf
      ensures born == now && log == [] && State() == Fresh(now)
    {
      lastTick, inFlight, poisoned := now, None, false;
      this.recorder, this.effectOf := recorder, effectOf;
      born, log := now, [];
    }

    method Tick(now: int)
      requires Valid()
      modifies this, recorder
      ensures Valid() && poisoned == old(poisoned)
      ensures log == old(log) + (if poisoned then [] else [Stamp.Tick(now)])
      ensures recorder.effects == old(recorder.effects) + (if poisoned then [] else [effectOf(Stamp.Tick(now))])
      ensures State() == (if poisoned then old(State()) else Apply(old(State()), Stamp.Tick(now)))
    {
      if !poisoned {
        lastTick := now;
        log := log + [Stamp.Tick(now)];
        recorder.Record(effectOf(Stamp.Tick(now)));
      }
    }

    method CallStarted(kind: InFlight, now: int)
      requires Valid()
      modifies this, recorder
      ensures Valid() && poisoned == old(poisoned)
      ensures log == old(log) + (if poisoned then [] else [Stamp.CallStarted(kind, now)])
      ensures recorder.effects == old(recorder.effects) + (if poisoned then [] else [effectOf(Stamp.CallStarted(kind, now))])
      ensures State() == (if poisoned then old(State()) else Apply(old(State()), Stamp.CallStarted(kind, now)))
    {
      if !poisoned {
        inFlight := Some(InFlightState(kind, now, now));
        log := log + [Stamp.CallStarted(kind, now)];
        recorder.Record(effectOf(Stamp.CallStarted(kind, now)));
      }
    }

    method Progressed(now: int)
      requires Valid()
      modifies this, recorder
      ensures Valid() && poisoned == old(poisoned)
      ensures log == old(log) + (if poisoned then [] else [Stamp.Progressed(now)])
      ensures recorder.effects == old(recorder.effects) + (if poisoned then [] else [effectOf(Stamp.Progressed(now))])
      ensures State() == (if poisoned then old(State()) else Apply(old(State()), Stamp.Progressed(now)))
    {
      if !poisoned {
        if inFlight.Some? {
          inFlight := Some(inFlight.value.(lastProgress := now));
        }
        log := log + [Stamp.Progressed(now)];
        recorder.Record(effectOf(Stamp.Progressed(now)));
      }
    }

    method CallFinished(now: int)
      requires Valid()
      modifies this, recorder
      ensures Valid() && poisoned == old(poisoned)
      ensures log == old(log) + (if poisoned then [] else [Stamp.CallFinished(now)])
      ensures recorder.effects == old(recorder.effects) + (if poisoned then [] else [effectOf(Stamp.CallFinished(now))])
      ensures State() == (if poisoned then old(State()) else Apply(old(State()), Stamp.CallFinished(now)))
    {
      if !poisoned {
        inFlight := None;
        lastTick := now;
        log := log + [Stamp.CallFinished(now)];
        recorder.Record(effectOf(Stamp.CallFinished(now)));
      }
    }

    /** The question the heartbeat asks, answered from the fields and meant about the whole log. */
    method IsAlive(now: int, live: Liveness) returns (alive: bool)
      requires Valid()
      ensures alive == (!poisoned && Judge(State(), now, live))
      ensures Monotone(History(born, log)) ==>
                (alive <==> !poisoned && DeclaredAlive(History(born, log), now, live))
    {
      if poisoned {
        return false;
      }
      match inFlight {
        case None =>
          alive := WithinOpt(now, lastTick, live.idleTickCeiling);
        case Some(f) =>
          match f.kind {
            case BoundedCall => alive := SaturatingSince(now, f.startedAt) <= live.longestBoundedCall;
            case Streaming => alive := WithinOpt(now, f.lastProgress, live.longestSilentStream);
          }
      }
      if Monotone(History(born, log)) {
        LogRefinement(born, log, now, live);
      }
    }
  }
}
