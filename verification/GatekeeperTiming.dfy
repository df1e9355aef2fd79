/**
 The gatekeeper's own timing: a single-threaded accept loop, the accept timeout armed at the
 heartbeat interval, and an idle ceiling of three intervals.
 */
module GatekeeperTiming {
  import opened Prelude
  import opened Activity
  import opened Heartbeat
  import WatchdogEnv
  import Text

  const LONGEST_BOUNDED_CALL: nat := 600_000_000

  /**
   Half the timeout as interval, and ten minutes for a call. The idle ceiling of three intervals is set
   only if the accept timeout could be armed.
   */
  function GatekeeperConfig(usec: nat, armed: bool): Config {
    Config(usec / 2, usec, Liveness(if armed then Some(usec / 2 * 3) else None, LONGEST_BOUNDED_CALL, None))
  }

  /** How long `accept` may block; a timeout of zero means no timeout. */
  function AcceptWait(interval: nat, armed: bool): Option<nat> {
    if armed && interval > 0 then Some(interval) else None
  }

  /** What the loop may stamp next: a call is finished, a finished call ticks, a tick turns the loop. */
  predicate Follows(s: Stamp, next: Stamp) {
    match s
    case Tick(_) => next.Tick? || (next.CallStarted? && next.kind == BoundedCall)
    case CallStarted(kind, _) => kind == BoundedCall && next.CallFinished?
    case Progressed(_) => false
    case CallFinished(_) => next.Tick?
  }

  predicate LoopShaped(h: seq<Stamp>) {
    && (forall i :: 0 <= i < |h| ==> !h[i].Progressed? && (h[i].CallStarted? ==> h[i].kind == BoundedCall))
    && forall i :: 0 <= i < |h| - 1 ==> Follows(h[i], h[i + 1])
  }

  /**
   From each stamp to the next, or to `end`: a call takes at most its ceiling, and where the accept
   timeout is armed the loop spends outside calls at most what `accept` may block for plus two intervals
   of scheduling. Nothing is asked of a loop outside calls when it is not armed.
   */
  ghost predicate TurnsOnTime(h: seq<Stamp>, end: int, interval: nat, armed: bool) {
    forall i :: 0 <= i < |h| ==>
      var gap := TimeAt(h, end, i + 1) - h[i].at;
      match h[i]
      case Tick(_) => AcceptWait(interval, armed).Some? ==> gap <= AcceptWait(interval, armed).value + 2 * interval
      case CallFinished(_) => armed ==> gap <= 2 * interval
      case _ => gap <= LONGEST_BOUNDED_CALL
  }

  lemma {:induction false} LoopKeepsCeilings(h: seq<Stamp>, end: int, usec: nat, armed: bool)
    requires usec >= 2 || !armed
    requires LoopShaped(h) && TurnsOnTime(h, end, usec / 2, armed)
    ensures KeepsCeilings(h, end, GatekeeperConfig(usec, armed).live)
  {
    var live := GatekeeperConfig(usec, armed).live;
    forall i, j | 0 <= i < j <= |h| && Obligation(h, i, live).Some?
                  && (forall k :: i < k < j ==> !Relieves(h[i], h[k]))
      ensures TimeAt(h, end, j) - h[i].at <= Obligation(h, i, live).value
    {
      if i + 1 < |h| {
        assert Follows(h[i], h[i + 1]);
      }
      assert j == i + 1;
    }
  }

  /** A gatekeeper under a watchdog of `usec`, scheduled on time, up to the end of the run. */
  ghost predicate TimelyGatekeeper(usec: nat, armed: bool, ws: seq<World>) {
    && Run(GatekeeperConfig(usec, armed), ws)
    && LoopShaped(History(Last(ws).born, Last(ws).log))
    && TurnsOnTime(History(Last(ws).born, Last(ws).log), Last(ws).clock, usec / 2, armed)
    && PromptHeartbeat(GatekeeperConfig(usec, armed), ws)
  }

  lemma {:induction false} TimelyGatekeeperIsNeverKilled(usec: nat, armed: bool, ws: seq<World>)
    requires usec >= 2 || !armed
    requires TimelyGatekeeper(usec, armed, ws)
    ensures forall i :: 0 <= i < |ws| ==> !ws[i].killed
    ensures forall k :: 0 <= k < |Last(ws).wakeups| ==> Last(ws).wakeups[k].petted
  {
    LoopKeepsCeilings(History(Last(ws).born, Last(ws).log), Last(ws).clock, usec, armed);
    NoFalseKill(GatekeeperConfig(usec, armed), ws);
  }

  /** The interval, the timeout and the accept timeout are those the environment asks for. */
  lemma {:induction false} ConfigIsTheEnvironments(usec: Option<string>, pid: Option<string>, current: U32, armed: bool)
    requires WatchdogEnv.HeartbeatFrom(usec, pid, current).Some?
    ensures usec.Some? && WatchdogEnv.Numeral(usec.value)
    ensures var interval := WatchdogEnv.HeartbeatFrom(usec, pid, current).value;
            var cfg := GatekeeperConfig(Text.Number(WatchdogEnv.Digits(usec.value)), armed);
            && cfg.interval == interval && interval <= I64_MAX
            && 2 * interval <= cfg.usec <= 2 * interval + 1
            && cfg.live == Liveness(if armed then Some(3 * interval) else None, 600 * 1_000_000, None)
  {
    WatchdogEnv.HeartbeatExactly(usec, pid, current);
    WatchdogEnv.IntervalAlwaysArms(usec, pid, current);
  }

  // ---------------------------------------------------------------------
  // Timely gatekeepers exist
  // ---------------------------------------------------------------------

  /** The gatekeeper has just ticked and the heartbeat has just petted. */
  ghost predicate JustPetted(w: World) {
    && !w.killed && w.activity == ActivityState(w.clock, None) && w.heart == Asleep(w.clock)
    && w.lastPet == w.clock == LastWakeup(w)
    && (forall i :: 0 <= i < |w.log| ==> w.log[i].Tick?)
    && History(w.born, w.log)[|w.log|].at == w.clock
  }

  /** One interval: the accept times out, the loop ticks, the heartbeat wakes and pets. */
  function OneBeat(w: World, interval: nat): (World, World, World, World) {
    var now := w.clock + interval;
    var passed := w.(clock := now);
    var ticked := passed.(activity := Apply(w.activity, Stamp.Tick(now)), log := w.log + [Stamp.Tick(now)]);
    var sampled := ticked.(heart := Sampled(now));
    (passed, ticked, sampled,
     sampled.(heart := Asleep(now), wakeups := w.wakeups + [Wakeup(now, now, true)], lastPet := now))
  }

  lemma BeatIsARun(usec: nat, armed: bool, w: World)
    requires usec >= 2 && JustPetted(w)
    ensures var cfg := GatekeeperConfig(usec, armed);
            var (passed, ticked, sampled, petted) := OneBeat(w, usec / 2);
            && Pass(cfg, w, passed) && Stamped(passed, ticked) && Wake(cfg, ticked, sampled)
            && Verdict(cfg, sampled, petted) && JustPetted(petted)
            && forall v :: v in {passed, ticked, sampled, petted} ==> v.clock - LastWakeup(v) <= usec
  {
  }

  lemma TicksOnTime(h: seq<Stamp>, next: int, interval: nat, armed: bool)
    requires h != [] && (forall i :: 0 <= i < |h| ==> h[i].Tick?)
    requires h[|h| - 1].at + interval == next && interval > 0
    requires TurnsOnTime(h, h[|h| - 1].at, interval, armed)
    ensures LoopShaped(h + [Stamp.Tick(next)]) && TurnsOnTime(h + [Stamp.Tick(next)], next, interval, armed)
  {
    var h', last := h + [Stamp.Tick(next)], h[|h| - 1].at;
    forall i | 0 <= i < |h'|
      ensures TimeAt(h', next, i + 1) - h'[i].at <= 3 * interval || !armed
    {
      if i < |h| {
        assert AcceptWait(interval, armed).Some? ==>
            TimeAt(h, last, i + 1) - h[i].at <= AcceptWait(interval, armed).value + 2 * interval;
      }
    }
  }

  lemma {:induction false} OneBeatMore(cfg: Config, before: seq<World>, a: World, b: World, c: World, d: World)
    requires Run(cfg, before) && PromptHeartbeat(cfg, before)
    requires Next(cfg, Last(before), a) && Next(cfg, a, b) && Next(cfg, b, c) && Next(cfg, c, d)
    requires forall v :: v in {a, b, c, d} ==> v.clock - LastWakeup(v) <= cfg.usec
    ensures Run(cfg, before + [a, b, c, d]) && PromptHeartbeat(cfg, before + [a, b, c, d])
  {
    var ws := before + [a, b, c, d];
    forall i | 0 <= i < |ws| - 1
      ensures NextAt(cfg, ws, i)
    {
      if i < |before| - 1 {
        assert NextAt(cfg, before, i);
      }
    }
    forall i | 0 <= i < |ws|
      ensures ws[i].clock - LastWakeup(ws[i]) <= cfg.usec
    {
      assert i >= |before| ==> ws[i] in {a, b, c, d};
    }
  }

  lemma OneMore(n: nat, interval: nat)
    ensures n * interval + interval == (n + 1) * interval
  {
  }

  /**
   The hypotheses are met: from two microseconds up there are gatekeepers scheduled on time under a prompt
   heartbeat whose runs hold any number of pets, one every interval.
   */
  lemma {:induction false} TimelyGatekeepersExist(usec: nat, armed: bool, n: nat) returns (ws: seq<World>)
    requires usec >= 2
    ensures TimelyGatekeeper(usec, armed, ws) && JustPetted(Last(ws))
    ensures |Last(ws).wakeups| == |Last(ws).log| == n && Last(ws).clock == n * (usec / 2)
  {
    var cfg, interval := GatekeeperConfig(usec, armed), usec / 2;
    if n == 0 {
      ws := [World(0, 0, 0, Fresh(0), [], Asleep(0), [], 0, false)];
    } else {
      var before := TimelyGatekeepersExist(usec, armed, n - 1);
      var w := Last(before);
      var (passed, ticked, sampled, petted) := OneBeat(w, interval);
      BeatIsARun(usec, armed, w);
      ws := before + [passed, ticked, sampled, petted];
      OneBeatMore(cfg, before, passed, ticked, sampled, petted);
      TicksOnTime(History(w.born, w.log), w.clock + interval, interval, armed);
      assert History(petted.born, petted.log) == History(w.born, w.log) + [Stamp.Tick(w.clock + interval)];
      OneMore(n - 1, interval);
    }
  }

  /** With a timeout of one microsecond the interval is zero, accept never times out, and the loop is killed. */
  lemma {:induction false} OneMicrosecondKillsAnIdleLoop() returns (ws: seq<World>)
    ensures TimelyGatekeeper(1, true, ws) && Last(ws).log == [] && Last(ws).killed
  {
    var cfg := GatekeeperConfig(1, true);
    var w0 := World(0, 0, 0, Fresh(0), [], Asleep(0), [], 0, false);
    var w1 := w0.(clock := 1);
    var w2 := w1.(heart := Sampled(1));
    var w3 := w2.(heart := Asleep(1), wakeups := [Wakeup(1, 1, false)]);
    var w4 := w3.(clock := 2, killed := true);
    assert Pass(cfg, w0, w1) && Wake(cfg, w1, w2) && Verdict(cfg, w2, w3) && Pass(cfg, w3, w4);
    ws := [w0, w1, w2, w3, w4];
  }

  /**
   The gatekeeper's watchdog is safe for a healthy loop exactly from two microseconds up, or when the
   accept timeout could not be armed.
   */
  lemma {:induction false} SafeExactlyFromTwoMicroseconds(usec: nat, armed: bool)
    requires usec > 0
    ensures (forall ws: seq<World> :: TimelyGatekeeper(usec, armed, ws) ==> !Last(ws).killed) <==> usec >= 2 || !armed
  {
    if usec >= 2 || !armed {
      forall ws: seq<World> | TimelyGatekeeper(usec, armed, ws)
        ensures !Last(ws).killed
      {
        TimelyGatekeeperIsNeverKilled(usec, armed, ws);
        assert !ws[|ws| - 1].killed;
      }
    } else {
      var ws := OneMicrosecondKillsAnIdleLoop();
      assert TimelyGatekeeper(usec, armed, ws);
    }
  }

  /** A gatekeeper stuck while idle after `t`: four pets at most, and dead within `t + 3 * interval + usec`. */
  lemma {:induction false} IdleWedgeIsCaught(usec: nat, ws: seq<World>, t: int, lag: nat)
    requires usec >= 2 && Run(GatekeeperConfig(usec, true), ws)
    requires Last(ws).ready <= t && Last(ws).activity.inFlight.None?
    requires forall i :: 0 <= i < |Last(ws).log| ==> Last(ws).log[i].at <= t
    requires forall k :: 0 <= k < |Last(ws).wakeups| ==> Last(ws).wakeups[k].at - Last(ws).wakeups[k].now <= lag
    ensures PetsSince(Last(ws).wakeups, t) <= 4
    ensures Last(ws).clock > t + usec / 2 * 3 + lag + usec ==> Last(ws).killed
  {
    var interval := usec / 2;
    WedgeDetected(GatekeeperConfig(usec, true), ws, t, interval * 3, lag);
    assert (interval * 3) / interval == 3;
  }

  /**
   A call that has not returned since `t` is caught whether or not the accept timeout was armed: no pet
   is for a sample past its ten minutes, pets in between are no closer than the interval, and the process
   is dead within the ceiling, the lag and the timeout.
   */
  lemma {:induction false} OverstayedCallIsCaught(usec: nat, armed: bool, ws: seq<World>, t: int, lag: nat)
    requires Run(GatekeeperConfig(usec, armed), ws) && Last(ws).ready <= t
    requires Last(ws).activity.inFlight.Some? && Last(ws).activity.inFlight.value.kind == BoundedCall
    requires forall i :: 0 <= i < |Last(ws).log| ==> Last(ws).log[i].at <= t
    requires forall k :: 0 <= k < |Last(ws).wakeups| ==> Last(ws).wakeups[k].at - Last(ws).wakeups[k].now <= lag
    ensures forall k :: 0 <= k < |Last(ws).wakeups| && Last(ws).wakeups[k].petted ==>
              Last(ws).wakeups[k].now <= t + LONGEST_BOUNDED_CALL
    ensures usec >= 2 ==> PetsSince(Last(ws).wakeups, t) <= LONGEST_BOUNDED_CALL / (usec / 2) + 1
    ensures Last(ws).clock > t + LONGEST_BOUNDED_CALL + lag + usec ==> Last(ws).killed
  {
    WedgeDetected(GatekeeperConfig(usec, armed), ws, t, LONGEST_BOUNDED_CALL, lag);
  }

  /** A world in which the heartbeat has just petted at `at`. */
  function Petted(w: World, at: int, wakeups: seq<Wakeup>): World {
    w.(clock := at, heart := Asleep(at), wakeups := wakeups, lastPet := at)
  }

  /** One beat of the heartbeat of a gatekeeper that last ticked at 1. */
  lemma Beat(w: World, at: int, n: nat)
    requires 1 <= at <= 4 && w.activity == Fresh(1) && w.lastPet + 1 == at == w.clock && !w.killed
    requires w.heart == Asleep(at - 1) && PetsSince(w.wakeups, 1) == n
    ensures Wake(GatekeeperConfig(2, true), w, w.(heart := Sampled(at)))
    ensures var more := w.wakeups + [Wakeup(at, at, true)];
            && Verdict(GatekeeperConfig(2, true), w.(heart := Sampled(at)), Petted(w, at, more))
            && Pass(GatekeeperConfig(2, true), Petted(w, at, more), Petted(w, at, more).(clock := at + 1))
            && PetsSince(more, 1) == n + 1
  {
    assert (w.wakeups + [Wakeup(at, at, true)])[..|w.wakeups|] == w.wakeups;
  }

  /** The bound is reached: a gatekeeper that last ticked at 1 can be petted for samples at 1, 2, 3 and 4. */
  lemma {:induction false} FourPetsCanHappen() returns (ws: seq<World>)
    ensures Run(GatekeeperConfig(2, true), ws) && PetsSince(Last(ws).wakeups, 1) == 4
    ensures Last(ws).activity.inFlight.None? && Last(ws).log == [Stamp.Tick(1)]
  {
    var w0 := World(0, 0, 0, Fresh(0), [], Asleep(0), [], 0, false);
    var w1 := w0.(clock := 1);
    var b0 := w1.(activity := Fresh(1), log := [Stamp.Tick(1)]);
    assert Pass(GatekeeperConfig(2, true), w0, w1) && Stamped(w1, b0);
    Beat(b0, 1, 0);
    var p1 := Petted(b0, 1, b0.wakeups + [Wakeup(1, 1, true)]);
    var b1 := p1.(clock := 2);
    Beat(b1, 2, 1);
    var p2 := Petted(b1, 2, b1.wakeups + [Wakeup(2, 2, true)]);
    var b2 := p2.(clock := 3);
    Beat(b2, 3, 2);
    var p3 := Petted(b2, 3, b2.wakeups + [Wakeup(3, 3, true)]);
    var b3 := p3.(clock := 4);
    Beat(b3, 4, 3);
    var p4 := Petted(b3, 4, b3.wakeups + [Wakeup(4, 4, true)]);
    ws := [w0, w1, b0, b0.(heart := Sampled(1)), p1, b1, b1.(heart := Sampled(2)), p2,
           b2, b2.(heart := Sampled(3)), p3, b3, b3.(heart := Sampled(4)), p4];
  }
}
