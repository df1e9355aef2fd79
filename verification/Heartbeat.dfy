/**
 The watchdog as a timed transition system of three parties: the serve thread stamping its record,
 the heartbeat thread (sleep, sample the clock, take the lock, judge, pet), and systemd's timer.

 A run is a sequence of worlds. Its hypotheses are about instants alone: when the serve thread
 stamped, and how promptly the heartbeat woke. The record, the verdicts and the pets follow.
 */
module Heartbeat {
  import opened Prelude
  import opened Activity

  datatype Config = Config(interval: nat, usec: nat, live: Liveness)

  /** The heartbeat thread sleeps, or holds a sample it has not yet judged. */
  datatype Heart = Asleep(since: int) | Sampled(now: int)

  /** One wakeup: the sampled instant, the instant the verdict was reached, and the verdict. */
  datatype Wakeup = Wakeup(now: int, at: int, petted: bool)

  datatype World = World(
    born: int,
    ready: int,
    clock: int,
    activity: ActivityState,
    log: seq<Stamp>,
    heart: Heart,
    wakeups: seq<Wakeup>,
    lastPet: int,
    killed: bool)

  /** READY was just sent: the record exists, nothing has been stamped, the timer starts now. */
  ghost predicate Init(w: World) {
    && w.born <= w.ready == w.clock == w.lastPet
    && w.activity == Fresh(w.born) && w.log == []
    && w.heart == Asleep(w.ready) && w.wakeups == [] && !w.killed
  }

  /** Time passes; the timer fires when more than `usec` has gone by since the last pet. */
  ghost predicate Pass(cfg: Config, w: World, w': World) {
    && w.clock <= w'.clock
    && w' == w.(clock := w'.clock, killed := w.killed || w'.clock > w.lastPet + cfg.usec)
  }

  /** The serve thread stamps its record. */
  ghost predicate Stamped(w: World, w': World) {
    && !w.killed && |w'.log| == |w.log| + 1
    && var stamp := w'.log[|w.log|];
       && stamp.at == w.clock
       && w' == w.(activity := Apply(w.activity, stamp), log := w.log + [stamp])
  }

  /** The heartbeat has slept at least its interval, and samples the clock before it has the lock. */
  ghost predicate Wake(cfg: Config, w: World, w': World) {
    && !w.killed && w.heart.Asleep? && w.heart.since + cfg.interval <= w.clock
    && w' == w.(heart := Sampled(w.clock))
  }

  /** The heartbeat has the lock: it judges the record at its sample, and pets if alive. */
  ghost predicate Verdict(cfg: Config, w: World, w': World) {
    && !w.killed && w.heart.Sampled?
    && var alive := Judge(w.activity, w.heart.now, cfg.live);
       w' == w.(heart := Asleep(w.clock),
                wakeups := w.wakeups + [Wakeup(w.heart.now, w.clock, alive)],
                lastPet := if alive then w.clock else w.lastPet)
  }

  ghost predicate Next(cfg: Config, w: World, w': World) {
    Pass(cfg, w, w') || Stamped(w, w') || Wake(cfg, w, w') || Verdict(cfg, w, w')
  }

  ghost predicate NextAt(cfg: Config, ws: seq<World>, i: int) {
    0 <= i < |ws| - 1 && Next(cfg, ws[i], ws[i + 1])
  }

  ghost predicate Run(cfg: Config, ws: seq<World>) {
    && |ws| > 0 && Init(ws[0])
    && forall i :: 0 <= i < |ws| - 1 ==> NextAt(cfg, ws, i)
  }

  function Last(ws: seq<World>): World
    requires |ws| > 0
  {
    ws[|ws| - 1]
  }

  // ---------------------------------------------------------------------
  // What every step keeps
  // ---------------------------------------------------------------------

  function LastWakeup(w: World): int {
    if w.wakeups == [] then w.ready else w.wakeups[|w.wakeups| - 1].at
  }

  ghost predicate Spaced(wakeups: seq<Wakeup>, interval: nat) {
    && (forall i :: 0 <= i < |wakeups| ==> wakeups[i].now <= wakeups[i].at)
    && forall i, j :: 0 <= i < j < |wakeups| ==> wakeups[i].at + interval <= wakeups[j].now
  }

  ghost predicate Inv(cfg: Config, w: World) {
    && w.born <= w.ready <= LastWakeup(w) <= w.clock
    && w.ready <= w.lastPet <= w.clock
    && w.activity == Replay(w.born, w.log)
    && Monotone(History(w.born, w.log))
    && (forall i :: 0 <= i < |w.log| ==> w.ready <= w.log[i].at <= w.clock)
    && Spaced(w.wakeups, cfg.interval)
    && (forall i :: 0 <= i < |w.wakeups| ==> w.ready + cfg.interval <= w.wakeups[i].now && w.wakeups[i].at <= LastWakeup(w))
    && (w.heart.Asleep? ==> w.heart.since == LastWakeup(w))
    && (w.heart.Sampled? ==> LastWakeup(w) + cfg.interval <= w.heart.now <= w.clock)
    && (w.lastPet == w.ready || exists i :: 0 <= i < |w.wakeups| && w.wakeups[i].petted && w.wakeups[i].at == w.lastPet)
    && (forall i :: 0 <= i < |w.wakeups| && w.wakeups[i].petted ==> w.wakeups[i].at <= w.lastPet)
    && (w.killed <==> w.clock > w.lastPet + cfg.usec)
  }

  lemma {:induction false} StampKeepsInv(cfg: Config, w: World, w': World)
    requires Inv(cfg, w) && Stamped(w, w')
    ensures Inv(cfg, w')
  {
    var stamp := w'.log[|w.log|];
    assert w'.log[..|w'.log| - 1] == w.log;
    var h, h' := History(w.born, w.log), History(w.born, w'.log);
    assert h' == h + [stamp];
    assert Monotone(h') by {
      assert forall i :: 0 <= i < |h| ==> h[i].at <= w.clock;
    }
    assert Replay(w.born, w'.log) == w'.activity;
    assert w'.wakeups == w.wakeups && LastWakeup(w') == LastWakeup(w);
  }

  lemma {:induction false} VerdictKeepsInv(cfg: Config, w: World, w': World)
    requires Inv(cfg, w) && Verdict(cfg, w, w')
    ensures Inv(cfg, w')
  {
    var alive := Judge(w.activity, w.heart.now, cfg.live);
    var n := |w.wakeups|;
    assert w'.wakeups[n] == Wakeup(w.heart.now, w.clock, alive);
    assert forall i :: 0 <= i < n ==> w'.wakeups[i] == w.wakeups[i];
    assert LastWakeup(w') == w.clock;
    assert Spaced(w'.wakeups, cfg.interval);
    if !alive && w.lastPet != w.ready {
      var i :| 0 <= i < n && w.wakeups[i].petted && w.wakeups[i].at == w.lastPet;
      assert w'.wakeups[i].petted;
    }
  }

  lemma {:induction false} WaitingKeepsInv(cfg: Config, w: World, w': World)
    requires Inv(cfg, w) && (Pass(cfg, w, w') || Wake(cfg, w, w'))
    ensures Inv(cfg, w')
  {
    assert w'.log == w.log && w'.wakeups == w.wakeups && LastWakeup(w') == LastWakeup(w);
  }

  lemma {:induction false} StepKeepsInv(cfg: Config, w: World, w': World)
    requires Inv(cfg, w) && Next(cfg, w, w')
    ensures Inv(cfg, w')
  {
    if Stamped(w, w') {
      StampKeepsInv(cfg, w, w');
    } else if Verdict(cfg, w, w') {
      VerdictKeepsInv(cfg, w, w');
    } else {
      WaitingKeepsInv(cfg, w, w');
    }
  }

  lemma {:induction false} RunKeepsInv(cfg: Config, ws: seq<World>, i: nat)
    requires Run(cfg, ws) && i < |ws|
    ensures Inv(cfg, ws[i])
  {
    if i > 0 {
      RunKeepsInv(cfg, ws, i - 1);
      assert NextAt(cfg, ws, i - 1);
      StepKeepsInv(cfg, ws[i - 1], ws[i]);
    }
  }

  /** Later worlds extend earlier ones, and what they add happened later. */
  lemma {:induction false} LaterExtends(cfg: Config, ws: seq<World>, i: nat, j: nat)
    requires Run(cfg, ws) && i <= j < |ws|
    ensures ws[i].born == ws[j].born && ws[i].ready == ws[j].ready
    ensures ws[i].clock <= ws[j].clock
    ensures |ws[i].log| <= |ws[j].log| && ws[j].log[..|ws[i].log|] == ws[i].log
    ensures forall k :: |ws[i].log| <= k < |ws[j].log| ==> ws[i].clock <= ws[j].log[k].at
    ensures |ws[i].wakeups| <= |ws[j].wakeups| && ws[j].wakeups[..|ws[i].wakeups|] == ws[i].wakeups
    decreases j - i
  {
    if i < j {
      LaterExtends(cfg, ws, i, j - 1);
      assert NextAt(cfg, ws, j - 1);
    }
  }

  // ---------------------------------------------------------------------
  // No false kill
  // ---------------------------------------------------------------------

  /** The sample the heartbeat holds, if any, was taken of a record that is still alive at it. */
  ghost predicate SampleAlive(cfg: Config, w: World) {
    && (w.heart.Sampled? ==> Judge(w.activity, w.heart.now, cfg.live))
    && forall i :: 0 <= i < |w.wakeups| ==> w.wakeups[i].petted
  }

  /** If the record is alive whenever the clock is sampled, the late lock never loses a pet. */
  lemma {:induction false} EveryWakeupPets(cfg: Config, ws: seq<World>, i: nat)
    requires Run(cfg, ws) && i < |ws|
    requires forall j :: 0 <= j < |ws| ==> Judge(ws[j].activity, ws[j].clock, cfg.live)
    ensures SampleAlive(cfg, ws[i])
  {
    if i > 0 {
      EveryWakeupPets(cfg, ws, i - 1);
      RunKeepsInv(cfg, ws, i - 1);
      var w, w' := ws[i - 1], ws[i];
      assert NextAt(cfg, ws, i - 1);
      if Stamped(w, w') && w.heart.Sampled? {
        var stamp := w'.log[|w.log|];
        LateLock(w.activity, [stamp], w.heart.now, cfg.live);
        assert ReplayFrom(w.activity, [stamp]) == Apply(w.activity, stamp);
      }
    }
  }

  /** The heartbeat reaches a verdict at most `usec` after the previous one, and after READY. */
  ghost predicate PromptHeartbeat(cfg: Config, ws: seq<World>) {
    forall i :: 0 <= i < |ws| ==> ws[i].clock - LastWakeup(ws[i]) <= cfg.usec
  }

  lemma {:induction false} PromptPetsNeverExpire(cfg: Config, ws: seq<World>, i: nat)
    requires Run(cfg, ws) && i < |ws| && PromptHeartbeat(cfg, ws)
    requires forall j :: 0 <= j < |ws| ==> Judge(ws[j].activity, ws[j].clock, cfg.live)
    ensures !ws[i].killed && ws[i].lastPet == LastWakeup(ws[i])
  {
    RunKeepsInv(cfg, ws, i);
    EveryWakeupPets(cfg, ws, i);
    var w := ws[i];
    if w.wakeups != [] {
      assert w.wakeups[|w.wakeups| - 1].petted;
    }
    assert ws[i].clock - LastWakeup(ws[i]) <= cfg.usec;
  }

  /** The serve thread of a run kept its ceilings, judged by its stamps and the end of the run. */
  ghost predicate ServeKeepsCeilings(cfg: Config, ws: seq<World>)
    requires |ws| > 0
  {
    KeepsCeilings(History(Last(ws).born, Last(ws).log), Last(ws).clock, cfg.live)
  }

  lemma {:induction false} AliveAtEveryInstant(cfg: Config, ws: seq<World>, i: nat)
    requires Run(cfg, ws) && ServeKeepsCeilings(cfg, ws) && i < |ws|
    ensures Judge(ws[i].activity, ws[i].clock, cfg.live)
  {
    var w, z := ws[i], Last(ws);
    RunKeepsInv(cfg, ws, i);
    LaterExtends(cfg, ws, i, |ws| - 1);
    KeepingCeilingsIsAlive(z.born, z.log, |w.log|, w.clock, z.clock, cfg.live);
  }

  lemma {:induction false} WakeupGap(cfg: Config, ws: seq<World>, i: nat, k: nat)
    requires Run(cfg, ws) && PromptHeartbeat(cfg, ws) && i < |ws| && k < |ws[i].wakeups|
    ensures ws[i].wakeups[k].at - (if k == 0 then ws[i].ready else ws[i].wakeups[k - 1].at) <= cfg.usec
  {
    assert NextAt(cfg, ws, i - 1);
    if k < |ws[i - 1].wakeups| {
      WakeupGap(cfg, ws, i - 1, k);
    } else {
      assert Verdict(cfg, ws[i - 1], ws[i]);
      assert ws[i - 1].clock - LastWakeup(ws[i - 1]) <= cfg.usec;
    }
  }

  /**
   No false kill, over every run and every interleaving: a serve thread that keeps its ceilings and a
   heartbeat that wakes at least every `usec` are never killed, every wakeup pets, and no two pets -
   nor READY and the first - are further apart than `usec`.
   */
  lemma {:induction false} NoFalseKill(cfg: Config, ws: seq<World>)
    requires Run(cfg, ws) && ServeKeepsCeilings(cfg, ws) && PromptHeartbeat(cfg, ws)
    ensures forall i :: 0 <= i < |ws| ==> !ws[i].killed
    ensures forall k :: 0 <= k < |Last(ws).wakeups| ==> Last(ws).wakeups[k].petted
    ensures forall k :: 0 <= k < |Last(ws).wakeups| ==>
              Last(ws).wakeups[k].at - (if k == 0 then Last(ws).ready else Last(ws).wakeups[k - 1].at) <= cfg.usec
  {
    forall i | 0 <= i < |ws|
      ensures Judge(ws[i].activity, ws[i].clock, cfg.live)
    {
      AliveAtEveryInstant(cfg, ws, i);
    }
    forall i | 0 <= i < |ws|
      ensures !ws[i].killed
    {
      PromptPetsNeverExpire(cfg, ws, i);
    }
    EveryWakeupPets(cfg, ws, |ws| - 1);
    forall k | 0 <= k < |Last(ws).wakeups|
      ensures Last(ws).wakeups[k].at - (if k == 0 then Last(ws).ready else Last(ws).wakeups[k - 1].at) <= cfg.usec
    {
      WakeupGap(cfg, ws, |ws| - 1, k);
    }
  }

  // ---------------------------------------------------------------------
  // Wedge detection
  // ---------------------------------------------------------------------

  /** The serve thread has stamped nothing after `t`, and its last state is judged against `c`. */
  ghost predicate WedgedSince(cfg: Config, w: World, t: int, c: nat) {
    && w.ready <= t
    && (forall i :: 0 <= i < |w.log| ==> w.log[i].at <= t)
    && CeilingOf(w.activity, cfg.live) == Some(c)
  }

  lemma {:induction false} JudgedInstantIsPast(born: int, log: seq<Stamp>, t: int)
    requires born <= t && forall i :: 0 <= i < |log| ==> log[i].at <= t
    ensures JudgedSince(Replay(born, log)) <= t
  {
    var _, _, _ := TraceFields(born, log);
    var h := History(born, log);
    assert forall i :: 0 <= i < |h| ==> h[i].at <= t;
  }

  /** After a wedge, no pet is for a sample later than the wedge plus its ceiling. */
  lemma {:induction false} NoPetPastTheCeiling(cfg: Config, ws: seq<World>, t: int, c: nat, i: nat)
    requires Run(cfg, ws) && WedgedSince(cfg, Last(ws), t, c) && i < |ws|
    ensures forall k :: 0 <= k < |ws[i].wakeups| && ws[i].wakeups[k].petted ==> ws[i].wakeups[k].now <= t + c
  {
    if i > 0 {
      NoPetPastTheCeiling(cfg, ws, t, c, i - 1);
      var w, w', z := ws[i - 1], ws[i], Last(ws);
      assert NextAt(cfg, ws, i - 1);
      if Verdict(cfg, w, w') {
        RunKeepsInv(cfg, ws, i - 1);
        LaterExtends(cfg, ws, i - 1, |ws| - 1);
        if |w.log| < |z.log| {
          assert w.clock <= z.log[|w.log|].at;
        } else {
          assert w.log == z.log;
          RunKeepsInv(cfg, ws, |ws| - 1);
          JudgedInstantIsPast(z.born, z.log, t);
          JudgedByCeiling(w.activity, w.heart.now, cfg.live);
        }
      }
    }
  }

  /** The pets among `wakeups` whose sample is at or after `t`. */
  function PetsSince(wakeups: seq<Wakeup>, t: int): nat {
    if wakeups == [] then 0
    else
      var last := wakeups[|wakeups| - 1];
      PetsSince(wakeups[..|wakeups| - 1], t) + (if last.petted && t <= last.now then 1 else 0)
  }

  lemma {:induction false} PetsAreSpaced(wakeups: seq<Wakeup>, interval: nat, t: int) returns (k: int)
    requires Spaced(wakeups, interval)
    ensures PetsSince(wakeups, t) > 0 ==>
              0 <= k < |wakeups| && wakeups[k].petted && t + (PetsSince(wakeups, t) - 1) * interval <= wakeups[k].now
  {
    k := 0;
    if wakeups != [] {
      var n := |wakeups| - 1;
      var p := PetsSince(wakeups[..n], t);
      k := PetsAreSpaced(wakeups[..n], interval, t);
      var last := wakeups[n];
      if last.petted && t <= last.now {
        if p > 0 {
          assert wakeups[k].at + interval <= last.now;
          assert (p - 1) * interval + interval == p * interval;
        }
        k := n;
      }
    }
  }

  lemma {:induction false} ProductGrows(k: nat, d: nat)
    requires k > 0
    ensures k * d >= d
  {
  }

  lemma {:induction false} QuotientBound(n: nat, d: nat, c: nat)
    requires d > 0
    ensures n * d <= c ==> n <= c / d
  {
    var q := c / d;
    if n > q {
      ProductGrows(n - q, d);
      assert n * d == q * d + (n - q) * d;
    }
  }

  lemma {:induction false} SpacedPetsAreFew(wakeups: seq<Wakeup>, interval: nat, t: int, c: nat)
    requires interval > 0 && Spaced(wakeups, interval)
    requires forall k :: 0 <= k < |wakeups| && wakeups[k].petted ==> wakeups[k].now <= t + c
    ensures PetsSince(wakeups, t) <= c / interval + 1
  {
    if PetsSince(wakeups, t) > 0 {
      var k := PetsAreSpaced(wakeups, interval, t);
      QuotientBound(PetsSince(wakeups, t) - 1, interval, c);
    }
  }

  /**
   Wedge detection: once the serve thread has stopped stamping at `t` under a ceiling `c` - idle, in a
   bounded call, or in a watched stream - no pet is for a sample after `t + c`, at most
   `c / interval + 1` pets are for samples from `t` on, and if every pet follows its sample within
   `lag`, the timer has fired by the time the clock passes `t + c + lag + usec`.
   */
  lemma {:induction false} WedgeDetected(cfg: Config, ws: seq<World>, t: int, c: nat, lag: nat)
    requires Run(cfg, ws) && WedgedSince(cfg, Last(ws), t, c)
    requires forall k :: 0 <= k < |Last(ws).wakeups| ==> Last(ws).wakeups[k].at - Last(ws).wakeups[k].now <= lag
    ensures forall k :: 0 <= k < |Last(ws).wakeups| && Last(ws).wakeups[k].petted ==> Last(ws).wakeups[k].now <= t + c
    ensures cfg.interval > 0 ==> PetsSince(Last(ws).wakeups, t) <= c / cfg.interval + 1
    ensures Last(ws).clock > t + c + lag + cfg.usec ==> Last(ws).killed
  {
    RunKeepsInv(cfg, ws, |ws| - 1);
    NoPetPastTheCeiling(cfg, ws, t, c, |ws| - 1);
    if cfg.interval > 0 {
      SpacedPetsAreFew(Last(ws).wakeups, cfg.interval, t, c);
    }
  }

  /**
   Saturation is load-bearing: there are runs in which the record a sample is judged against carries a
   stamp later than the sample, so that a plain difference of instants would underflow.
   */
  lemma {:induction false} SampleCanPrecedeStamp() returns (cfg: Config, ws: seq<World>)
    ensures Run(cfg, ws) && Last(ws).heart.Sampled?
    ensures Last(ws).heart.now < JudgedSince(Last(ws).activity)
    ensures Verdict(cfg, Last(ws), Last(ws).(heart := Asleep(2), wakeups := [Wakeup(1, 2, true)], lastPet := 2))
  {
    cfg := Config(1, 2, Liveness(Some(3), 600, None));
    var w0 := World(0, 0, 0, Fresh(0), [], Asleep(0), [], 0, false);
    var w1 := w0.(clock := 1);
    var w2 := w1.(heart := Sampled(1));
    var w3 := w2.(clock := 2);
    var w4 := w3.(activity := Apply(w3.activity, Stamp.Tick(2)), log := [Stamp.Tick(2)]);
    assert Pass(cfg, w0, w1) && Wake(cfg, w1, w2) && Pass(cfg, w2, w3) && Stamped(w3, w4);
    ws := [w0, w1, w2, w3, w4];
  }

  /**
   A verdict is about its sample, not about the instant it is reached: there are runs in which a record
   that has fallen silent in between is still petted.
   */
  lemma {:induction false} LateVerdictIsAboutItsSample() returns (cfg: Config, ws: seq<World>)
    ensures Run(cfg, ws) && Last(ws).wakeups == [Wakeup(1, 3, true)]
    ensures !Judge(Last(ws).activity, Last(ws).clock, cfg.live)
  {
    cfg := Config(1, 10, Liveness(Some(1), 600, None));
    var w0 := World(0, 0, 0, Fresh(0), [], Asleep(0), [], 0, false);
    var w1 := w0.(clock := 1);
    var w2 := w1.(heart := Sampled(1));
    var w3 := w2.(clock := 3);
    var w4 := w3.(heart := Asleep(3), wakeups := [Wakeup(1, 3, true)], lastPet := 3);
    assert Pass(cfg, w0, w1) && Wake(cfg, w1, w2) && Pass(cfg, w2, w3) && Verdict(cfg, w3, w4);
    ws := [w0, w1, w2, w3, w4];
  }
}
