/**
 What every run of the serve loop keeps: which effects a turn has and in which order, what is in flight
 while a caller is answered, what the journal holds of each connection, and what the watchdog sees.
 */
module ServeRuns {
  import opened Prelude
  import opened Text
  import opened Activity
  import opened Memo
  import opened Callers
  import opened Audit
  import opened Gate
  import opened ServeLoop
  import Heartbeat
  import GatekeeperTiming

  const NOTHING := ServeState(map[], [], 0)

  function ArrivedCount(turns: seq<Turn>): nat {
    if turns == [] then 0
    else ArrivedCount(turns[..|turns| - 1]) + (if turns[|turns| - 1].Arrived? then 1 else 0)
  }

  /** `served` counts the accepts that succeeded, up to the largest count it can hold. */
  lemma {:induction false} ServedCountsAccepts(d: Daemon, turns: seq<Turn>)
    ensures Serving(d, NOTHING, turns).served
            == (if ArrivedCount(turns) <= USIZE_MAX then ArrivedCount(turns) else USIZE_MAX)
  {
    if turns != [] {
      ServedCountsAccepts(d, turns[..|turns| - 1]);
    }
  }

  // ---------------------------------------------------------------------
  // One turn, effect by effect
  // ---------------------------------------------------------------------

  /** The text is the caller, under some name if it is a peer. */
  ghost predicate ShowsCaller(shown: string, caller: Caller) {
    exists name: Option<string> :: shown == Render(caller, name)
  }

  /** The announcement of the daemon's call for this caller. */
  ghost predicate Announces(d: Daemon, tag: string, caller: Caller) {
    && d.call.authorization.Policy?
    && exists shown :: tag == Describe(d.call, d.call.authorization.action, shown) && ShowsCaller(shown, caller)
  }

  /** From the accept to the moment the record says that a call is in flight. */
  function Taken(id: nat, conn: Connection): seq<Effect> {
    [On(Accepted(id)), On(CredentialsRead(id, conn.caller)), On(DeadlineSet(id)),
     Stamped(CallStarted(BoundedCall, conn.startedAt))]
  }

  function Closed(id: nat, conn: Connection, tickAt: int): seq<Effect> {
    [Stamped(CallFinished(conn.finishedAt)), On(ServeLoop.Event.Returned(id)), Stamped(Tick(tickAt))]
  }

  /** A refused connection: one line and one refusal text, and no exchange. */
  ghost predicate Refusal(d: Daemon, id: nat, conn: Connection, answer: seq<Effect>) {
    exists shown, reason ::
      && ShowsCaller(shown, conn.caller) && Authorize(d.gate, d.call, conn.caller) == Err(reason)
      && answer == [On(Denied(id)), Printed(Refused(d.service, d.call, shown, reason)),
                    On(RefusalWritten(id, "refused: " + reason))]
  }

  /** The line that names the caller is there exactly if the reply got through. */
  ghost predicate Reply(d: Daemon, conn: Connection, effects: seq<Effect>) {
    if conn.failure.None?
    then exists shown :: ShowsCaller(shown, conn.caller) && effects == [Printed(Replied(d.service, shown))]
    else effects == []
  }

  /** A gated call: announced before the exchange, reported after it, under one text. */
  ghost predicate GatedAnswer(d: Daemon, id: nat, conn: Connection, answer: seq<Effect>) {
    exists tag, reply, outcome ::
      && Announces(d, tag, conn.caller) && Reply(d, conn, reply)
      && Reports(outcome, Operation(d.service, Some(tag), conn.beganAt), conn.failure, conn.endedAt)
      && answer == [On(Admitted(id)), Printed(Begun(d.service, tag)), On(Began(id, Some(tag))), On(Exchanged(id))]
         + reply + [Printed(outcome), On(Finished(id, Some(tag), conn.failure.None?))]
  }

  /** An unprivileged call: neither announced nor reported. */
  ghost predicate OpenAnswer(d: Daemon, id: nat, conn: Connection, answer: seq<Effect>) {
    exists reply ::
      && Reply(d, conn, reply)
      && answer == [On(Admitted(id)), On(Began(id, None)), On(Exchanged(id))]
         + reply + [On(Finished(id, None, conn.failure.None?))]
  }

  ghost predicate Answered(d: Daemon, id: nat, conn: Connection, answer: seq<Effect>) {
    if Authorize(d.gate, d.call, conn.caller).Err? then Refusal(d, id, conn, answer)
    else if d.call.authorization.Policy? then GatedAnswer(d, id, conn, answer)
    else OpenAnswer(d, id, conn, answer)
  }

  /** Everything a turn does, in order. */
  ghost predicate TurnDone(d: Daemon, id: nat, turn: Turn, effects: seq<Effect>) {
    match turn
    case TimedOut(at) => effects == [On(AcceptFailedAt(id)), Stamped(Tick(at))]
    case AcceptError(reason, at) =>
      effects == [On(AcceptFailedAt(id)), Printed(AcceptFailed(d.service, reason)), Stamped(Tick(at))]
    case NoDeadline(caller, reason, at) =>
      effects == [On(Accepted(id)), On(CredentialsRead(id, caller)), On(AcceptFailedAt(id)),
                  Printed(AcceptFailed(d.service, reason)), Stamped(Tick(at))]
    case Arrived(conn, at) =>
      exists answer :: Answered(d, id, conn, answer) && effects == Taken(id, conn) + answer + Closed(id, conn, at)
  }

  lemma {:induction false} ShownShows(names: Names, caller: Caller, lookup: Lookup)
    ensures ShowsCaller(Shown(names, caller, lookup), caller)
  {
    assert Shown(names, caller, lookup) == Render(caller, NameOf(names, caller, lookup).0);
  }

  lemma {:induction false} ReplyIs(d: Daemon, names: Names, conn: Connection)
    ensures Reply(d, conn, Prints(ReplyEntries(d, names, conn)))
  {
    ShownShows(names, conn.caller, conn.second);
    if conn.failure.None? {
      assert Prints(ReplyEntries(d, names, conn)) == [Printed(Replied(d.service, Shown(names, conn.caller, conn.second)))];
    }
  }

  lemma AdmittedInOrder(admitted: Effect, announced: seq<Effect>, began: Effect, exchanged: Effect,
                        reply: seq<Effect>, outcome: seq<Effect>, finished: Effect)
    ensures [admitted] + announced + [began] + ([exchanged] + reply) + outcome + [finished]
            == ([admitted] + announced + [began, exchanged]) + reply + (outcome + [finished])
  {
  }

  lemma GatedLiterals(id: nat, tag: string, outcome: Entry, ok: bool, service: string)
    ensures [On(Admitted(id))] + [Printed(Begun(service, tag))] + [On(Began(id, Some(tag))), On(Exchanged(id))]
            == [On(Admitted(id)), Printed(Begun(service, tag)), On(Began(id, Some(tag))), On(Exchanged(id))]
    ensures [Printed(outcome)] + [On(Finished(id, Some(tag), ok))] == [Printed(outcome), On(Finished(id, Some(tag), ok))]
  {
  }

  lemma OpenLiterals(id: nat, ok: bool)
    ensures [On(Admitted(id))] + [] + [On(Began(id, None)), On(Exchanged(id))]
            == [On(Admitted(id)), On(Began(id, None)), On(Exchanged(id))]
    ensures [] + [On(Finished(id, None, ok))] == [On(Finished(id, None, ok))]
  {
  }

  lemma {:induction false} AdmittedIsAnswered(d: Daemon, names: Names, id: nat, conn: Connection)
    requires Admits(d, conn.caller)
    ensures Answered(d, id, conn, AdmittedEffects(d, names, id, conn))
  {
    var op, ok := OperationFor(d, names, conn), conn.failure.None?;
    var begun := NamesAfterBegin(d.call, names, conn.caller, conn.first);
    var reply := Prints(ReplyEntries(d, begun, conn));
    AdmittedInOrder(On(Admitted(id)), Prints(BeginEntries(op)), On(Began(id, op.tag)), On(Exchanged(id)), reply,
                    Prints(FinishEntries(op, conn.failure, conn.endedAt)), On(Finished(id, op.tag, ok)));
    ReplyIs(d, begun, conn);
    if d.call.authorization.Policy? {
      var tag, outcome := op.tag.value, Outcome(op, conn.failure, conn.endedAt);
      ShownShows(names, conn.caller, conn.first);
      assert Announces(d, tag, conn.caller);
      assert Reports(outcome, Operation(d.service, Some(tag), conn.beganAt), conn.failure, conn.endedAt);
      assert Prints(BeginEntries(op)) == [Printed(Begun(d.service, tag))];
      assert Prints(FinishEntries(op, conn.failure, conn.endedAt)) == [Printed(outcome)];
      GatedLiterals(id, tag, outcome, ok, d.service);
    } else {
      assert Prints(BeginEntries(op)) == [] && Prints(FinishEntries(op, conn.failure, conn.endedAt)) == [];
      OpenLiterals(id, ok);
    }
  }

  lemma TurnInOrder(accept: seq<Effect>, started: Effect, answer: seq<Effect>, c: Effect, r: Effect, t: Effect)
    ensures accept + ([started] + answer + [c, r]) + [t] == (accept + [started]) + answer + [c, r, t]
  {
  }

  lemma {:induction false} TurnIsDone(d: Daemon, names: Names, id: nat, turn: Turn)
    ensures TurnDone(d, id, turn, TurnEffects(d, names, id, turn))
  {
    match turn
    case Arrived(conn, at) =>
      var answer := AnswerEffects(d, names, id, conn);
      if Admits(d, conn.caller) {
        AdmittedIsAnswered(d, names, id, conn);
      } else {
        ShownShows(names, conn.caller, conn.first);
      }
      assert Answered(d, id, conn, answer);
      TurnInOrder(AcceptEffects(id, turn), Stamped(CallStarted(BoundedCall, conn.startedAt)), answer,
                  Stamped(CallFinished(conn.finishedAt)), On(ServeLoop.Event.Returned(id)), Stamped(Tick(at)));
      assert Taken(id, conn) == AcceptEffects(id, turn) + [Stamped(CallStarted(BoundedCall, conn.startedAt))];
    case _ =>
  }

  // ---------------------------------------------------------------------
  // Turns in a run
  // ---------------------------------------------------------------------

  predicate IsTick(e: Effect) { e.Stamped? && e.stamp.Tick? }

  /** How often the loop has turned. */
  function Ticks(effects: seq<Effect>): nat {
    if effects == [] then 0
    else Ticks(effects[..|effects| - 1]) + (if IsTick(effects[|effects| - 1]) then 1 else 0)
  }

  /** What happened while the loop had turned `id` times. */
  function During(effects: seq<Effect>, id: nat): seq<Effect> {
    if effects == [] then []
    else
      var front := effects[..|effects| - 1];
      During(front, id) + (if Ticks(front) == id then [effects[|effects| - 1]] else [])
  }

  predicate OwnEffect(e: Effect, id: nat) { !IsTick(e) && (e.On? ==> e.event.id == id) }

  /** Every action is on connection `id`, and the loop does not turn. */
  ghost predicate Own(effects: seq<Effect>, id: nat) {
    forall i :: 0 <= i < |effects| ==> OwnEffect(effects[i], id)
  }

  /** One turn: it ends in its only tick, and every action in it is on its own connection. */
  ghost predicate OneTurn(effects: seq<Effect>, id: nat) {
    effects != [] && IsTick(effects[|effects| - 1]) && Own(effects[..|effects| - 1], id)
  }

  /** Answering is printing lines and acting on the connection, short of having returned. */
  predicate PartOfAnAnswer(e: Effect, id: nat) {
    e.Printed? || (e.On? && e.event.id == id && !e.event.Returned?)
  }

  lemma {:induction false} AnswerHasParts(d: Daemon, id: nat, conn: Connection, answer: seq<Effect>)
    requires Answered(d, id, conn, answer)
    ensures forall i :: 0 <= i < |answer| ==> PartOfAnAnswer(answer[i], id)
  {
  }

  lemma {:induction false} AnswerIsOwn(d: Daemon, id: nat, conn: Connection, answer: seq<Effect>)
    requires Answered(d, id, conn, answer)
    ensures Own(answer, id)
    ensures forall i :: 0 <= i < |answer| ==> !answer[i].Stamped? && !(answer[i].On? && answer[i].event.Returned?)
  {
    AnswerHasParts(d, id, conn, answer);
    forall i | 0 <= i < |answer|
      ensures OwnEffect(answer[i], id)
    {
      assert PartOfAnAnswer(answer[i], id);
    }
    assert forall i :: 0 <= i < |answer| ==> PartOfAnAnswer(answer[i], id);
  }

  lemma AnsweredIsOne(id: nat, conn: Connection, answer: seq<Effect>, tickAt: int)
    requires Own(answer, id)
    ensures OneTurn(Taken(id, conn) + answer + Closed(id, conn, tickAt), id)
  {
    var turn := Taken(id, conn) + answer + Closed(id, conn, tickAt);
    assert turn[|turn| - 1] == Stamped(Tick(tickAt));
  }

  lemma {:induction false} TurnIsOne(d: Daemon, id: nat, turn: Turn, effects: seq<Effect>)
    requires TurnDone(d, id, turn, effects)
    ensures OneTurn(effects, id)
  {
    match turn
    case Arrived(conn, at) =>
      var answer :| Answered(d, id, conn, answer) && effects == Taken(id, conn) + answer + Closed(id, conn, at);
      AnswerIsOwn(d, id, conn, answer);
      AnsweredIsOne(id, conn, answer, at);
    case _ =>
  }

  lemma {:induction false} OneMoreTick(effects: seq<Effect>, e: Effect, id: nat)
    ensures Ticks(effects + [e]) == Ticks(effects) + (if IsTick(e) then 1 else 0)
    ensures During(effects + [e], id) == During(effects, id) + (if Ticks(effects) == id then [e] else [])
  {
    assert (effects + [e])[..|effects|] == effects;
  }

  lemma Resumed(before: seq<Effect>, front: seq<Effect>, last: Effect)
    ensures before + (front + [last]) == before + front + [last]
  {
  }

  lemma {:induction false} WithinATurn(before: seq<Effect>, part: seq<Effect>, n: nat, id: nat)
    requires Own(part, n)
    ensures Ticks(before + part) == Ticks(before)
    ensures During(before + part, id) == During(before, id) + (if Ticks(before) == id then part else [])
  {
    if part == [] {
      assert before + part == before;
    } else {
      var front, last := part[..|part| - 1], part[|part| - 1];
      assert part == front + [last] && OwnEffect(last, n);
      WithinATurn(before, front, n, id);
      Resumed(before, front, last);
      OneMoreTick(before + front, last, id);
      Resumed(During(before, id), front, last);
    }
  }

  lemma {:induction false} AfterATurn(before: seq<Effect>, turn: seq<Effect>, n: nat, id: nat)
    requires OneTurn(turn, n)
    ensures Ticks(before + turn) == Ticks(before) + 1
    ensures During(before + turn, id) == During(before, id) + (if Ticks(before) == id then turn else [])
  {
    var front, last := turn[..|turn| - 1], turn[|turn| - 1];
    WithinATurn(before, front, n, id);
    OneMoreTick(before + front, last, id);
    assert turn == front + [last];
    Resumed(before, front, last);
    Resumed(During(before, id), front, last);
  }

  /** What turn `id` of a run does with the memo as it then is. */
  function EffectsAt(d: Daemon, turns: seq<Turn>, id: nat): seq<Effect> {
    if id < |turns| then TurnEffects(d, Serving(d, NOTHING, turns[..id]).names, id, turns[id]) else []
  }

  lemma {:induction false} LastTurn(d: Daemon, turns: seq<Turn>)
    requires turns != []
    ensures var n := |turns| - 1;
            && Serving(d, NOTHING, turns).effects == Serving(d, NOTHING, turns[..n]).effects + EffectsAt(d, turns, n)
            && OneTurn(EffectsAt(d, turns, n), n)
  {
    var n := |turns| - 1;
    var names := Serving(d, NOTHING, turns[..n]).names;
    TurnIsDone(d, names, n, turns[n]);
    TurnIsOne(d, n, turns[n], TurnEffects(d, names, n, turns[n]));
  }

  lemma EffectsAtPrefix(d: Daemon, turns: seq<Turn>, id: nat)
    requires turns != []
    ensures id != |turns| - 1 ==> EffectsAt(d, turns, id) == EffectsAt(d, turns[..|turns| - 1], id)
    ensures EffectsAt(d, turns[..|turns| - 1], |turns| - 1) == []
  {
    if id < |turns| - 1 {
      assert turns[..|turns| - 1][..id] == turns[..id];
    }
  }

  lemma {:induction false} DuringIs(d: Daemon, turns: seq<Turn>, id: nat)
    ensures Ticks(Serving(d, NOTHING, turns).effects) == |turns|
    ensures During(Serving(d, NOTHING, turns).effects, id) == EffectsAt(d, turns, id)
  {
    if turns != [] {
      var n := |turns| - 1;
      DuringIs(d, turns[..n], id);
      LastTurn(d, turns);
      AfterATurn(Serving(d, NOTHING, turns[..n]).effects, EffectsAt(d, turns, n), n, id);
      EffectsAtPrefix(d, turns, id);
    }
  }

  /** Every turn of every run does exactly what a turn of its kind does, and nothing is done outside the turns. */
  lemma {:induction false} EveryTurnIsDone(d: Daemon, turns: seq<Turn>, id: nat)
    ensures var effects := Serving(d, NOTHING, turns).effects;
            && Ticks(effects) == |turns|
            && if id < |turns| then TurnDone(d, id, turns[id], During(effects, id)) else During(effects, id) == []
  {
    DuringIs(d, turns, id);
    if id < |turns| {
      TurnIsDone(d, Serving(d, NOTHING, turns[..id]).names, id, turns[id]);
    }
  }

  lemma {:induction false} FoundInItsTurn(effects: seq<Effect>, k: nat)
    requires k < |effects|
    ensures effects[k] in During(effects, Ticks(effects[..k]))
  {
    var n := |effects| - 1;
    assert effects == effects[..n] + [effects[n]];
    OneMoreTick(effects[..n], effects[n], Ticks(effects[..k]));
    if k < n {
      FoundInItsTurn(effects[..n], k);
      assert effects[..n][..k] == effects[..k];
    }
  }

  lemma {:induction false} TurnHasOnlyItsOwn(effects: seq<Effect>, id: nat)
    ensures forall e :: e in During(effects, id) ==> e in effects
  {
    if effects != [] {
      var front := effects[..|effects| - 1];
      TurnHasOnlyItsOwn(front, id);
      assert effects == front + [effects[|effects| - 1]];
    }
  }

  lemma OwnInOneTurn(turn: seq<Effect>, id: nat, e: Effect)
    requires OneTurn(turn, id) && e in turn && e.On?
    ensures e.event.id == id
  {
    var i :| 0 <= i < |turn| && turn[i] == e;
    assert i < |turn| - 1;
    assert turn[..|turn| - 1][i] == e;
    assert OwnEffect(turn[..|turn| - 1][i], id);
  }

  lemma {:induction false} RunTurnIsOne(d: Daemon, turns: seq<Turn>, id: nat)
    ensures var mine := During(Serving(d, NOTHING, turns).effects, id);
            if id < |turns| then OneTurn(mine, id) else mine == []
  {
    EveryTurnIsDone(d, turns, id);
    if id < |turns| {
      TurnIsOne(d, id, turns[id], During(Serving(d, NOTHING, turns).effects, id));
    }
  }

  /** Every action on connection `id` is taken while the loop has turned `id` times: before that turn's tick. */
  lemma {:induction false} TurnsKeepToThemselves(d: Daemon, turns: seq<Turn>, k: nat)
    requires k < |Serving(d, NOTHING, turns).effects|
    ensures var effects := Serving(d, NOTHING, turns).effects;
            && Ticks(effects[..k]) < |turns|
            && (effects[k].On? ==> effects[k].event.id == Ticks(effects[..k]))
  {
    var effects := Serving(d, NOTHING, turns).effects;
    var id := Ticks(effects[..k]);
    FoundInItsTurn(effects, k);
    RunTurnIsOne(d, turns, id);
    if effects[k].On? {
      OwnInOneTurn(During(effects, id), id, effects[k]);
    }
  }

  lemma {:induction false} DuringPrefix(effects: seq<Effect>, n: nat, id: nat)
    requires n <= |effects|
    ensures During(effects[..n], id) <= During(effects, id)
    decreases |effects| - n
  {
    if n == |effects| {
      assert effects[..n] == effects;
    } else {
      DuringPrefix(effects, n + 1, id);
      assert effects[..n + 1] == effects[..n] + [effects[n]];
      OneMoreTick(effects[..n], effects[n], id);
    }
  }

  /** What is known at any point of a run about a connection whose handling has returned. */
  ghost predicate Handled(d: Daemon, id: nat, turn: Turn, mine: seq<Effect>) {
    && turn.Arrived? && mine != []
    && TurnDone(d, id, turn, if IsTick(mine[|mine| - 1]) then mine else mine + [Stamped(Tick(turn.tickAt))])
  }

  lemma ReturnAfterAnswer(id: nat, conn: Connection, answer: seq<Effect>, tickAt: int, i: nat)
    requires forall j :: 0 <= j < |answer| ==> !(answer[j].On? && answer[j].event.Returned?)
    requires var turn := Taken(id, conn) + answer + Closed(id, conn, tickAt);
             i < |turn| && turn[i].On? && turn[i].event.Returned?
    ensures i == |answer| + 5
  {
  }

  lemma {:induction false} ReturnIsLastButOne(d: Daemon, id: nat, turn: Turn, effects: seq<Effect>, i: nat)
    requires TurnDone(d, id, turn, effects) && i < |effects| && effects[i].On? && effects[i].event.Returned?
    ensures turn.Arrived? && i == |effects| - 2 && effects[|effects| - 1] == Stamped(Tick(turn.tickAt))
  {
    if turn.Arrived? {
      var answer :| Answered(d, id, turn.conn, answer)
                    && effects == Taken(id, turn.conn) + answer + Closed(id, turn.conn, turn.tickAt);
      AnswerIsOwn(d, id, turn.conn, answer);
      ReturnAfterAnswer(id, turn.conn, answer, turn.tickAt, i);
    }
  }

  lemma {:induction false} HandledIsWhole(d: Daemon, id: nat, turn: Turn, whole: seq<Effect>, mine: seq<Effect>)
    requires TurnDone(d, id, turn, whole) && mine <= whole && On(ServeLoop.Event.Returned(id)) in mine
    ensures Handled(d, id, turn, mine)
  {
    var i :| 0 <= i < |mine| && mine[i] == On(ServeLoop.Event.Returned(id));
    ReturnIsLastButOne(d, id, turn, whole, i);
    if |mine| == |whole| {
      assert mine == whole;
    } else {
      assert mine + [whole[|mine|]] == whole;
    }
  }

  lemma {:induction false} ReturnIsInItsTurn(d: Daemon, turns: seq<Turn>, n: nat, id: nat)
    requires n <= |Serving(d, NOTHING, turns).effects|
    requires On(ServeLoop.Event.Returned(id)) in Serving(d, NOTHING, turns).effects[..n]
    ensures id < |turns| && On(ServeLoop.Event.Returned(id)) in During(Serving(d, NOTHING, turns).effects[..n], id)
  {
    var effects := Serving(d, NOTHING, turns).effects;
    var part := effects[..n];
    var k :| 0 <= k < n && part[k] == On(ServeLoop.Event.Returned(id));
    assert part[k] == effects[k] && part[..k] == effects[..k];
    TurnsKeepToThemselves(d, turns, k);
    FoundInItsTurn(part, k);
  }

  lemma {:induction false} HandledAtThisPoint(d: Daemon, id: nat, turn: Turn, effects: seq<Effect>, n: nat)
    requires n <= |effects| && TurnDone(d, id, turn, During(effects, id))
    requires On(ServeLoop.Event.Returned(id)) in During(effects[..n], id)
    ensures Handled(d, id, turn, During(effects[..n], id))
  {
    DuringPrefix(effects, n, id);
    HandledIsWhole(d, id, turn, During(effects, id), During(effects[..n], id));
  }

  /** At any point of any run, a connection whose handling has returned was handled to the end, once. */
  lemma {:induction false} ReturnedMeansHandled(d: Daemon, turns: seq<Turn>, n: nat, id: nat)
    requires n <= |Serving(d, NOTHING, turns).effects|
    requires On(ServeLoop.Event.Returned(id)) in Serving(d, NOTHING, turns).effects[..n]
    ensures id < |turns| && Handled(d, id, turns[id], During(Serving(d, NOTHING, turns).effects[..n], id))
  {
    var effects := Serving(d, NOTHING, turns).effects;
    ReturnIsInItsTurn(d, turns, n, id);
    EveryTurnIsDone(d, turns, id);
    HandledAtThisPoint(d, id, turns[id], effects, n);
  }

  // ---------------------------------------------------------------------
  // Guarded exchanges
  // ---------------------------------------------------------------------

  /**
   The `k`-th effect, if it is an exchange, comes right after its connection was accepted, its credentials
   were read, its deadline was set, the record was told of a call, the gate admitted exactly those
   credentials and - for a gated call - the announcement was printed.
   */
  predicate GuardedAt(d: Daemon, effects: seq<Effect>, k: nat)
    requires k < |effects|
  {
    effects[k].On? && effects[k].event.Exchanged? ==>
      var id, b := effects[k].event.id, if d.call.authorization.Policy? then 1 else 0;
      && k >= 6 + b
      && effects[k - 6 - b] == On(Accepted(id))
      && effects[k - 5 - b].On? && effects[k - 5 - b].event.CredentialsRead? && effects[k - 5 - b].event.id == id
      && Admits(d, effects[k - 5 - b].event.caller)
      && effects[k - 4 - b] == On(DeadlineSet(id))
      && effects[k - 3 - b].Stamped? && effects[k - 3 - b].stamp.CallStarted?
      && effects[k - 2 - b] == On(Admitted(id))
      && effects[k - 1].On? && effects[k - 1].event.Began? && effects[k - 1].event.id == id
      && (d.call.authorization.Policy? ==>
            && effects[k - 1].event.tag.Some?
            && effects[k - 2] == Printed(Begun(d.service, effects[k - 1].event.tag.value)))
  }

  ghost predicate Guarded(d: Daemon, effects: seq<Effect>) {
    forall k :: 0 <= k < |effects| ==> GuardedAt(d, effects, k)
  }

  lemma GuardedAppend(d: Daemon, effects: seq<Effect>, added: seq<Effect>)
    requires Guarded(d, effects) && Guarded(d, added)
    ensures Guarded(d, effects + added)
  {
    forall k | 0 <= k < |effects + added|
      ensures GuardedAt(d, effects + added, k)
    {
      if k < |effects| {
        assert GuardedAt(d, effects, k);
      } else {
        assert GuardedAt(d, added, k - |effects|);
      }
    }
  }

  lemma {:induction false} AnswerExchanges(d: Daemon, id: nat, conn: Connection, answer: seq<Effect>)
    requires Answered(d, id, conn, answer)
    ensures Admits(d, conn.caller) ==>
              var b := if d.call.authorization.Policy? then 1 else 0;
              && |answer| > 2 + b && answer[0] == On(Admitted(id))
              && answer[1 + b].On? && answer[1 + b].event.Began? && answer[1 + b].event.id == id
              && answer[2 + b] == On(Exchanged(id))
              && (b == 1 ==> answer[2].event.tag.Some? && answer[1] == Printed(Begun(d.service, answer[2].event.tag.value)))
    ensures forall k :: 0 <= k < |answer| && answer[k].On? && answer[k].event.Exchanged? ==>
              Admits(d, conn.caller) && k == (if d.call.authorization.Policy? then 3 else 2)
  {
  }

  lemma {:induction false} AnswerIsGuarded(d: Daemon, id: nat, conn: Connection, answer: seq<Effect>, tickAt: int)
    requires Answered(d, id, conn, answer)
    ensures Guarded(d, Taken(id, conn) + answer + Closed(id, conn, tickAt))
  {
    AnswerExchanges(d, id, conn, answer);
    var turn := Taken(id, conn) + answer + Closed(id, conn, tickAt);
    forall k | 0 <= k < |turn|
      ensures GuardedAt(d, turn, k)
    {
      if turn[k].On? && turn[k].event.Exchanged? {
        assert turn[k] == answer[k - 4];
        assert turn[..4] == Taken(id, conn);
        assert turn[4] == answer[0] && turn[5] == answer[1] && turn[6] == answer[2];
      }
    }
  }

  lemma {:induction false} TurnIsGuarded(d: Daemon, id: nat, turn: Turn, effects: seq<Effect>)
    requires TurnDone(d, id, turn, effects)
    ensures Guarded(d, effects)
  {
    if turn.Arrived? {
      var conn := turn.conn;
      var answer :| Answered(d, id, conn, answer)
                    && effects == Taken(id, conn) + answer + Closed(id, conn, turn.tickAt);
      AnswerIsGuarded(d, id, conn, answer, turn.tickAt);
    }
  }

  /** Every exchange is guarded, in every run. The statement is about each effect, so it holds of every prefix too. */
  lemma {:induction false} EveryExchangeIsGuarded(d: Daemon, turns: seq<Turn>)
    ensures Guarded(d, Serving(d, NOTHING, turns).effects)
  {
    if turns != [] {
      var n := |turns| - 1;
      EveryExchangeIsGuarded(d, turns[..n]);
      LastTurn(d, turns);
      TurnIsDone(d, Serving(d, NOTHING, turns[..n]).names, n, turns[n]);
      TurnIsGuarded(d, n, turns[n], EffectsAt(d, turns, n));
      GuardedAppend(d, Serving(d, NOTHING, turns[..n]).effects, EffectsAt(d, turns, n));
    }
  }

  predicate IsExchange(e: Effect) { e.On? && e.event.Exchanged? }

  predicate ReadsListedPeer(e: Effect, uids: set<U32>) {
    e.On? && e.event.CredentialsRead? && e.event.caller.Peer? && e.event.caller.uid in uids
  }

  /** The credentials read for the connection of the `k`-th effect, an exchange, are those of a listed peer. */
  predicate FollowsListedPeer(d: Daemon, effects: seq<Effect>, k: nat, uids: set<U32>)
    requires k < |effects| && effects[k].On?
  {
    var i := k - (if d.call.authorization.Policy? then 6 else 5);
    i >= 0 && ReadsListedPeer(effects[i], uids) && effects[i].event.id == effects[k].event.id
  }

  /** Behind the gatekeeper's own gate, the credentials read before an exchange are those of a listed peer. */
  lemma {:induction false} ExchangesOnlyWithListedPeers(d: Daemon, turns: seq<Turn>, uids: set<U32>, k: nat)
    requires d.gate == ForUids(uids) && k < |Serving(d, NOTHING, turns).effects|
    ensures IsExchange(Serving(d, NOTHING, turns).effects[k]) ==>
              FollowsListedPeer(d, Serving(d, NOTHING, turns).effects, k, uids)
  {
    EveryExchangeIsGuarded(d, turns);
    assert GuardedAt(d, Serving(d, NOTHING, turns).effects, k);
    var i := k - (if d.call.authorization.Policy? then 6 else 5);
    if IsExchange(Serving(d, NOTHING, turns).effects[k]) {
      UidGateAdmitsExactly(uids, d.call, Serving(d, NOTHING, turns).effects[i].event.caller);
    }
  }

  lemma ExchangeIsInTheAnswer(id: nat, conn: Connection, answer: seq<Effect>, tickAt: int)
    ensures On(Exchanged(id)) in Taken(id, conn) + answer + Closed(id, conn, tickAt) <==> On(Exchanged(id)) in answer
  {
    assert On(Exchanged(id)) !in Taken(id, conn) && On(Exchanged(id)) !in Closed(id, conn, tickAt);
  }

  lemma {:induction false} TurnExchangesExactly(d: Daemon, id: nat, turn: Turn, effects: seq<Effect>, uids: set<U32>)
    requires d.gate == ForUids(uids) && TurnDone(d, id, turn, effects)
    ensures On(Exchanged(id)) in effects <==> turn.Arrived? && turn.conn.caller.Peer? && turn.conn.caller.uid in uids
  {
    if turn.Arrived? {
      var conn := turn.conn;
      var answer :| Answered(d, id, conn, answer)
                    && effects == Taken(id, conn) + answer + Closed(id, conn, turn.tickAt);
      UidGateAdmitsExactly(uids, d.call, conn.caller);
      AnswerExchanges(d, id, conn, answer);
      ExchangeIsInTheAnswer(id, conn, answer, turn.tickAt);
    }
  }

  /** Behind the gatekeeper's own gate, the connections that get an exchange are exactly those of listed peers. */
  lemma {:induction false} ListedPeersAreServedExactly(d: Daemon, turns: seq<Turn>, uids: set<U32>, id: nat)
    requires d.gate == ForUids(uids)
    ensures On(Exchanged(id)) in Serving(d, NOTHING, turns).effects
            <==> id < |turns| && turns[id].Arrived? && turns[id].conn.caller.Peer? && turns[id].conn.caller.uid in uids
  {
    var effects := Serving(d, NOTHING, turns).effects;
    EveryTurnIsDone(d, turns, id);
    TurnHasOnlyItsOwn(effects, id);
    if id < |turns| {
      TurnExchangesExactly(d, id, turns[id], During(effects, id), uids);
    }
    if On(Exchanged(id)) in effects {
      var k :| 0 <= k < |effects| && effects[k] == On(Exchanged(id));
      TurnsKeepToThemselves(d, turns, k);
      FoundInItsTurn(effects, k);
    }
  }

  // ---------------------------------------------------------------------
  // In flight exactly while answering
  // ---------------------------------------------------------------------

  /** What is done to answer a connection: the verdict, the exchange, and every line about it. */
  predicate Answering(e: Effect) {
    match e
    case Stamped(_) => false
    case Printed(entry) => !entry.AcceptFailed?
    case On(ev) =>
      ev.Denied? || ev.RefusalWritten? || ev.Admitted? || ev.Began? || ev.Exchanged? || ev.Finished?
  }

  /** The record after some effects: only stamps change it. */
  function After(s: ActivityState, effects: seq<Effect>): ActivityState {
    if effects == [] then s
    else
      var before, last := After(s, effects[..|effects| - 1]), effects[|effects| - 1];
      if last.Stamped? then Apply(before, last.stamp) else before
  }

  /** Whenever the thread acts or prints, a bounded call is in flight exactly if it is answering. */
  ghost predicate InFlightAt(s: ActivityState, effects: seq<Effect>, k: nat)
    requires k < |effects|
  {
    var now := After(s, effects[..k]);
    !effects[k].Stamped? ==>
      && (now.inFlight.Some? <==> Answering(effects[k]))
      && (now.inFlight.Some? ==> now.inFlight.value.kind == BoundedCall)
  }

  ghost predicate InFlightExactly(s: ActivityState, effects: seq<Effect>) {
    forall k :: 0 <= k < |effects| ==> InFlightAt(s, effects, k)
  }

  lemma {:induction false} AfterBoth(s: ActivityState, a: seq<Effect>, b: seq<Effect>)
    ensures After(s, a + b) == After(After(s, a), b)
  {
    if b == [] {
      assert a + b == a;
    } else {
      AfterBoth(s, a, b[..|b| - 1]);
      assert (a + b)[..|a + b| - 1] == a + b[..|b| - 1];
    }
  }

  lemma {:induction false} InFlightBoth(s: ActivityState, a: seq<Effect>, b: seq<Effect>)
    requires InFlightExactly(s, a) && InFlightExactly(After(s, a), b)
    ensures InFlightExactly(s, a + b) && After(s, a + b) == After(After(s, a), b)
  {
    AfterBoth(s, a, b);
    forall k | 0 <= k < |a + b|
      ensures InFlightAt(s, a + b, k)
    {
      if k < |a| {
        assert (a + b)[..k] == a[..k];
        assert InFlightAt(s, a, k);
      } else {
        assert (a + b)[..k] == a + b[..k - |a|];
        AfterBoth(s, a, b[..k - |a|]);
        assert InFlightAt(After(s, a), b, k - |a|);
      }
    }
  }

  lemma {:induction false} QuietAfter(s: ActivityState, quiet: seq<Effect>)
    requires forall i :: 0 <= i < |quiet| ==> !quiet[i].Stamped?
    ensures After(s, quiet) == s
  {
    if quiet != [] {
      QuietAfter(s, quiet[..|quiet| - 1]);
    }
  }

  lemma {:induction false} QuietInFlight(s: ActivityState, quiet: seq<Effect>)
    requires forall i :: 0 <= i < |quiet| ==> !quiet[i].Stamped? && (Answering(quiet[i]) <==> s.inFlight.Some?)
    requires s.inFlight.Some? ==> s.inFlight.value.kind == BoundedCall
    ensures InFlightExactly(s, quiet) && After(s, quiet) == s
  {
    QuietAfter(s, quiet);
    forall k | 0 <= k < |quiet|
      ensures InFlightAt(s, quiet, k)
    {
      QuietAfter(s, quiet[..k]);
    }
  }

  lemma StampInFlight(s: ActivityState, stamp: Stamp)
    ensures InFlightExactly(s, [Stamped(stamp)]) && After(s, [Stamped(stamp)]) == Apply(s, stamp)
  {
    assert [Stamped(stamp)][..0] == [];
  }

  lemma {:induction false} AnswerIsAnswering(d: Daemon, id: nat, conn: Connection, answer: seq<Effect>)
    requires Answered(d, id, conn, answer)
    ensures forall i :: 0 <= i < |answer| ==> !answer[i].Stamped? && Answering(answer[i])
  {
  }

  lemma ArrivedInOrder(accept: seq<Effect>, started: Effect, answer: seq<Effect>, finished: Effect,
                       returned: seq<Effect>, tick: Effect)
    ensures accept + [started] + answer + [finished] + returned + [tick]
            == accept + [started] + answer + ([finished] + returned + [tick])
  {
  }

  lemma {:induction false} ArrivedInFlight(d: Daemon, id: nat, conn: Connection, answer: seq<Effect>, at: int, s: ActivityState)
    requires Answered(d, id, conn, answer) && s.inFlight.None?
    ensures var turn := Taken(id, conn) + answer + Closed(id, conn, at);
            InFlightExactly(s, turn) && After(s, turn).inFlight.None?
  {
    var accept, returned := [On(Accepted(id)), On(CredentialsRead(id, conn.caller)), On(DeadlineSet(id))],
        [On(ServeLoop.Event.Returned(id))];
    var started, finished, tick := CallStarted(BoundedCall, conn.startedAt), CallFinished(conn.finishedAt), Tick(at);
    var busy := Apply(s, started);
    var idle := Apply(busy, finished);
    QuietInFlight(s, accept);
    StampInFlight(s, started);
    InFlightBoth(s, accept, [Stamped(started)]);
    AnswerIsAnswering(d, id, conn, answer);
    QuietInFlight(busy, answer);
    InFlightBoth(s, accept + [Stamped(started)], answer);
    StampInFlight(busy, finished);
    InFlightBoth(s, accept + [Stamped(started)] + answer, [Stamped(finished)]);
    QuietInFlight(idle, returned);
    InFlightBoth(s, accept + [Stamped(started)] + answer + [Stamped(finished)], returned);
    StampInFlight(idle, tick);
    InFlightBoth(s, accept + [Stamped(started)] + answer + [Stamped(finished)] + returned, [Stamped(tick)]);
    ArrivedInOrder(accept, Stamped(started), answer, Stamped(finished), returned, Stamped(tick));
    assert Taken(id, conn) == accept + [Stamped(started)];
    assert Closed(id, conn, at) == [Stamped(finished)] + returned + [Stamped(tick)];
  }

  lemma {:induction false} TurnInFlight(d: Daemon, id: nat, turn: Turn, effects: seq<Effect>, s: ActivityState)
    requires TurnDone(d, id, turn, effects) && s.inFlight.None?
    ensures InFlightExactly(s, effects) && After(s, effects).inFlight.None?
  {
    if turn.Arrived? {
      var conn := turn.conn;
      var answer :| Answered(d, id, conn, answer)
                    && effects == Taken(id, conn) + answer + Closed(id, conn, turn.tickAt);
      ArrivedInFlight(d, id, conn, answer, turn.tickAt, s);
    } else {
      var front := effects[..|effects| - 1];
      assert effects == front + [Stamped(Tick(turn.tickAt))];
      QuietInFlight(s, front);
      StampInFlight(s, Tick(turn.tickAt));
      InFlightBoth(s, front, [Stamped(Tick(turn.tickAt))]);
    }
  }

  lemma {:induction false} RunInFlight(d: Daemon, turns: seq<Turn>, s: ActivityState)
    requires s.inFlight.None?
    ensures var effects := Serving(d, NOTHING, turns).effects;
            InFlightExactly(s, effects) && After(s, effects).inFlight.None?
  {
    if turns != [] {
      var n := |turns| - 1;
      var before := Serving(d, NOTHING, turns[..n]);
      RunInFlight(d, turns[..n], s);
      LastTurn(d, turns);
      TurnIsDone(d, before.names, n, turns[n]);
      TurnInFlight(d, n, turns[n], EffectsAt(d, turns, n), After(s, before.effects));
      InFlightBoth(s, before.effects, EffectsAt(d, turns, n));
    }
  }

  lemma {:induction false} AfterIsReplay(born: int, effects: seq<Effect>)
    ensures After(Fresh(born), effects) == Replay(born, StampsIn(effects))
  {
    if effects != [] {
      AfterIsReplay(born, effects[..|effects| - 1]);
      var stamps, last := StampsIn(effects[..|effects| - 1]), effects[|effects| - 1];
      if last.Stamped? {
        assert (stamps + [last.stamp])[..|stamps|] == stamps;
      } else {
        assert StampsIn(effects) == stamps;
      }
    }
  }

  /**
   At any point of any run, what the heartbeat reads off the record has a call in flight exactly while a
   connection is being answered: from the verdict of the gate to the last line about it, and at no other time.
   */
  lemma {:induction false} InFlightExactlyWhileAnswering(d: Daemon, turns: seq<Turn>, born: int, k: nat)
    requires k < |Serving(d, NOTHING, turns).effects|
    ensures var effects := Serving(d, NOTHING, turns).effects;
            var record := Replay(born, StampsIn(effects[..k]));
            !effects[k].Stamped? ==>
              && (record.inFlight.Some? <==> Answering(effects[k]))
              && (record.inFlight.Some? ==> record.inFlight.value.kind == BoundedCall)
  {
    var effects := Serving(d, NOTHING, turns).effects;
    RunInFlight(d, turns, Fresh(born));
    assert InFlightAt(Fresh(born), effects, k);
    AfterIsReplay(born, effects[..k]);
  }

  // ---------------------------------------------------------------------
  // The books of the journal
  // ---------------------------------------------------------------------

  predicate IsBegun(e: Effect) { e.Printed? && e.entry.Begun? }

  predicate IsReport(e: Effect) { e.Printed? && (e.entry.Succeeded? || e.entry.Failed?) }

  predicate IsRefusal(e: Effect) { e.Printed? && e.entry.Refused? }

  predicate IsDenial(e: Effect) { e.On? && e.event.Denied? }

  predicate IsRefusalText(e: Effect) { e.On? && e.event.RefusalWritten? }

  function Count(effects: seq<Effect>, p: Effect -> bool): nat {
    if effects == [] then 0
    else Count(effects[..|effects| - 1], p) + (if p(effects[|effects| - 1]) then 1 else 0)
  }

  lemma {:induction false} CountBoth(a: seq<Effect>, b: seq<Effect>, p: Effect -> bool)
    ensures Count(a + b, p) == Count(a, p) + Count(b, p)
  {
    if b == [] {
      assert a + b == a;
    } else {
      CountBoth(a, b[..|b| - 1], p);
      assert (a + b)[..|a + b| - 1] == a + b[..|b| - 1];
    }
  }

  lemma {:induction false} CountNone(effects: seq<Effect>, p: Effect -> bool)
    requires forall i :: 0 <= i < |effects| ==> !p(effects[i])
    ensures Count(effects, p) == 0
  {
    if effects != [] {
      CountNone(effects[..|effects| - 1], p);
    }
  }

  lemma {:induction false} CountOne(effects: seq<Effect>, p: Effect -> bool, k: nat)
    requires k < |effects| && p(effects[k])
    requires forall i :: 0 <= i < |effects| && i != k ==> !p(effects[i])
    ensures Count(effects, p) == 1
  {
    var n := |effects| - 1;
    if k == n {
      CountNone(effects[..n], p);
    } else {
      CountOne(effects[..n], p, k);
    }
  }

  /** As many announcements as outcomes and as exchanges of gated calls; as many refusal lines as denials and refusal texts. */
  ghost predicate Balanced(d: Daemon, effects: seq<Effect>) {
    && Count(effects, IsBegun) == Count(effects, IsReport)
       == (if d.call.authorization.Policy? then Count(effects, IsExchange) else 0)
    && Count(effects, IsRefusal) == Count(effects, IsDenial) == Count(effects, IsRefusalText)
  }

  lemma {:induction false} BalancedBoth(d: Daemon, a: seq<Effect>, b: seq<Effect>)
    requires Balanced(d, a) && Balanced(d, b)
    ensures Balanced(d, a + b)
  {
    CountBoth(a, b, IsBegun);
    CountBoth(a, b, IsReport);
    CountBoth(a, b, IsExchange);
    CountBoth(a, b, IsRefusal);
    CountBoth(a, b, IsDenial);
    CountBoth(a, b, IsRefusalText);
  }

  lemma {:induction false} NothingToBalance(d: Daemon, effects: seq<Effect>)
    requires forall i :: 0 <= i < |effects| ==>
               !IsBegun(effects[i]) && !IsReport(effects[i]) && !IsExchange(effects[i])
               && !IsRefusal(effects[i]) && !IsDenial(effects[i]) && !IsRefusalText(effects[i])
    ensures Balanced(d, effects)
  {
    CountNone(effects, IsBegun);
    CountNone(effects, IsReport);
    CountNone(effects, IsExchange);
    CountNone(effects, IsRefusal);
    CountNone(effects, IsDenial);
    CountNone(effects, IsRefusalText);
  }

  ghost predicate OnlyAt(effects: seq<Effect>, p: Effect -> bool, k: nat) {
    k < |effects| && forall i :: 0 <= i < |effects| ==> (p(effects[i]) <==> i == k)
  }

  ghost predicate NoneOf(effects: seq<Effect>, p: Effect -> bool) {
    forall i :: 0 <= i < |effects| ==> !p(effects[i])
  }

  lemma {:induction false} RefusalAtItsPlaces(d: Daemon, id: nat, conn: Connection, answer: seq<Effect>)
    requires Refusal(d, id, conn, answer)
    ensures OnlyAt(answer, IsRefusal, 1) && OnlyAt(answer, IsDenial, 0) && OnlyAt(answer, IsRefusalText, 2)
    ensures NoneOf(answer, IsBegun) && NoneOf(answer, IsReport) && NoneOf(answer, IsExchange)
  {
  }

  lemma {:induction false} RefusalBalances(d: Daemon, id: nat, conn: Connection, answer: seq<Effect>)
    requires Refusal(d, id, conn, answer)
    ensures Balanced(d, answer)
  {
    RefusalAtItsPlaces(d, id, conn, answer);
    CountNone(answer, IsBegun);
    CountNone(answer, IsReport);
    CountNone(answer, IsExchange);
    CountOne(answer, IsRefusal, 1);
    CountOne(answer, IsDenial, 0);
    CountOne(answer, IsRefusalText, 2);
  }

  lemma {:induction false} GatedBegunsAndReports(d: Daemon, id: nat, conn: Connection, answer: seq<Effect>)
    requires GatedAnswer(d, id, conn, answer)
    ensures |answer| >= 6 && OnlyAt(answer, IsBegun, 1) && OnlyAt(answer, IsReport, |answer| - 2)
  {
  }

  lemma {:induction false} GatedExchanges(d: Daemon, id: nat, conn: Connection, answer: seq<Effect>)
    requires GatedAnswer(d, id, conn, answer)
    ensures OnlyAt(answer, IsExchange, 3)
  {
  }

  lemma {:induction false} GatedRefusesNothing(d: Daemon, id: nat, conn: Connection, answer: seq<Effect>)
    requires GatedAnswer(d, id, conn, answer)
    ensures NoneOf(answer, IsRefusal) && NoneOf(answer, IsDenial) && NoneOf(answer, IsRefusalText)
  {
  }

  lemma {:induction false} GatedBalances(d: Daemon, id: nat, conn: Connection, answer: seq<Effect>)
    requires GatedAnswer(d, id, conn, answer) && d.call.authorization.Policy?
    ensures Balanced(d, answer)
  {
    GatedBegunsAndReports(d, id, conn, answer);
    GatedExchanges(d, id, conn, answer);
    GatedRefusesNothing(d, id, conn, answer);
    CountOne(answer, IsBegun, 1);
    CountOne(answer, IsReport, |answer| - 2);
    CountOne(answer, IsExchange, 3);
    CountNone(answer, IsRefusal);
    CountNone(answer, IsDenial);
    CountNone(answer, IsRefusalText);
  }

  lemma {:induction false} OpenBalances(d: Daemon, id: nat, conn: Connection, answer: seq<Effect>)
    requires OpenAnswer(d, id, conn, answer) && !d.call.authorization.Policy?
    ensures Balanced(d, answer)
  {
    CountNone(answer, IsBegun);
    CountNone(answer, IsReport);
    CountNone(answer, IsRefusal);
    CountNone(answer, IsDenial);
    CountNone(answer, IsRefusalText);
  }

  lemma {:induction false} AnswerBalances(d: Daemon, id: nat, conn: Connection, answer: seq<Effect>)
    requires Answered(d, id, conn, answer)
    ensures Balanced(d, answer)
  {
    if Authorize(d.gate, d.call, conn.caller).Err? {
      RefusalBalances(d, id, conn, answer);
    } else if d.call.authorization.Policy? {
      GatedBalances(d, id, conn, answer);
    } else {
      OpenBalances(d, id, conn, answer);
    }
  }

  lemma {:induction false} TurnBalances(d: Daemon, id: nat, turn: Turn, effects: seq<Effect>)
    requires TurnDone(d, id, turn, effects)
    ensures Balanced(d, effects)
  {
    if turn.Arrived? {
      var conn := turn.conn;
      var answer :| Answered(d, id, conn, answer)
                    && effects == Taken(id, conn) + answer + Closed(id, conn, turn.tickAt);
      NothingToBalance(d, Taken(id, conn));
      AnswerBalances(d, id, conn, answer);
      NothingToBalance(d, Closed(id, conn, turn.tickAt));
      BalancedBoth(d, Taken(id, conn), answer);
      BalancedBoth(d, Taken(id, conn) + answer, Closed(id, conn, turn.tickAt));
    } else {
      NothingToBalance(d, effects);
    }
  }

  /**
   The books balance at every loop head: for a gated call the journal holds as many announcements and as
   many outcomes as there were exchanges, and for any call as many refusals as there were denials.
   */
  lemma {:induction false} BooksBalance(d: Daemon, turns: seq<Turn>)
    ensures Balanced(d, Serving(d, NOTHING, turns).effects)
  {
    if turns == [] {
      NothingToBalance(d, []);
    } else {
      var n := |turns| - 1;
      BooksBalance(d, turns[..n]);
      LastTurn(d, turns);
      TurnIsDone(d, Serving(d, NOTHING, turns[..n]).names, n, turns[n]);
      TurnBalances(d, n, turns[n], EffectsAt(d, turns, n));
      BalancedBoth(d, Serving(d, NOTHING, turns[..n]).effects, EffectsAt(d, turns, n));
    }
  }

  // ---------------------------------------------------------------------
  // The names the lines show
  // ---------------------------------------------------------------------

  /** NSS answers as `truth` whenever it answers. */
  predicate TrueLookup(truth: U32 -> Option<string>, caller: Caller, lookup: Lookup) {
    caller.Peer? && lookup.Answered? ==> lookup.account == truth(caller.uid)
  }

  predicate TrueTurn(truth: U32 -> Option<string>, turn: Turn) {
    turn.Arrived? ==>
      TrueLookup(truth, turn.conn.caller, turn.conn.first) && TrueLookup(truth, turn.conn.caller, turn.conn.second)
  }

  ghost predicate TrueNames(truth: U32 -> Option<string>, names: Names) {
    forall uid :: uid in names ==> NamesAccount(names[uid], truth(uid))
  }

  /** The text is the caller, and the name it shows, if any, is that of the account of its uid. */
  ghost predicate ShowsTruly(truth: U32 -> Option<string>, shown: string, caller: Caller) {
    exists name: Option<string> ::
      shown == Render(caller, name) && (caller.Peer? && name.Some? ==> NamesAccount(name, truth(caller.uid)))
  }

  ghost predicate TagNamesTruly(truth: U32 -> Option<string>, d: Daemon, tag: string, caller: Caller) {
    && d.call.authorization.Policy?
    && exists shown :: tag == Describe(d.call, d.call.authorization.action, shown) && ShowsTruly(truth, shown, caller)
  }

  ghost predicate EntryNamesTruly(truth: U32 -> Option<string>, d: Daemon, e: Entry, caller: Caller) {
    match e
    case Begun(_, tag) => TagNamesTruly(truth, d, tag, caller)
    case Succeeded(_, tag, _) => TagNamesTruly(truth, d, tag, caller)
    case Failed(_, tag, _, _) => TagNamesTruly(truth, d, tag, caller)
    case Refused(_, _, shown, _) => ShowsTruly(truth, shown, caller)
    case Replied(_, shown) => ShowsTruly(truth, shown, caller)
    case AcceptFailed(_, _) => true
  }

  ghost predicate EffectNamesTruly(truth: U32 -> Option<string>, d: Daemon, turn: Turn, e: Effect) {
    e.Printed? && !e.entry.AcceptFailed? ==> turn.Arrived? && EntryNamesTruly(truth, d, e.entry, turn.conn.caller)
  }

  ghost predicate NamesTruly(truth: U32 -> Option<string>, d: Daemon, turn: Turn, effects: seq<Effect>) {
    forall i :: 0 <= i < |effects| ==> EffectNamesTruly(truth, d, turn, effects[i])
  }

  lemma {:induction false} ShownIsTrue(truth: U32 -> Option<string>, names: Names, caller: Caller, lookup: Lookup)
    requires TrueNames(truth, names) && TrueLookup(truth, caller, lookup)
    ensures ShowsTruly(truth, Shown(names, caller, lookup), caller)
    ensures TrueNames(truth, NameOf(names, caller, lookup).1)
  {
    var name := NameOf(names, caller, lookup).0;
    assert Shown(names, caller, lookup) == Render(caller, name);
  }

  lemma {:induction false} BegunNamesAreTrue(
    truth: U32 -> Option<string>, d: Daemon, names: Names, conn: Connection)
    requires TrueNames(truth, names) && TrueLookup(truth, conn.caller, conn.first)
    ensures TrueNames(truth, NamesAfterBegin(d.call, names, conn.caller, conn.first))
    ensures d.call.authorization.Policy? ==> TagNamesTruly(truth, d, OperationFor(d, names, conn).tag.value, conn.caller)
  {
    ShownIsTrue(truth, names, conn.caller, conn.first);
  }

  lemma NamesTrulyBoth(truth: U32 -> Option<string>, d: Daemon, turn: Turn, a: seq<Effect>, b: seq<Effect>)
    requires NamesTruly(truth, d, turn, a) && NamesTruly(truth, d, turn, b)
    ensures NamesTruly(truth, d, turn, a + b)
  {
  }

  lemma {:induction false} AdmittedNamesTruly(
    truth: U32 -> Option<string>, d: Daemon, names: Names, id: nat, conn: Connection, tickAt: int)
    requires TrueNames(truth, names) && TrueTurn(truth, Arrived(conn, tickAt)) && Admits(d, conn.caller)
    ensures NamesTruly(truth, d, Arrived(conn, tickAt), AdmittedEffects(d, names, id, conn))
    ensures TrueNames(truth, NamesAfterAnswer(d, names, conn))
  {
    var turn, op, ok := Arrived(conn, tickAt), OperationFor(d, names, conn), conn.failure.None?;
    var begun := NamesAfterBegin(d.call, names, conn.caller, conn.first);
    BegunNamesAreTrue(truth, d, names, conn);
    ShownIsTrue(truth, begun, conn.caller, conn.second);
    var announced := [On(Admitted(id))] + Prints(BeginEntries(op)) + [On(Began(id, op.tag))];
    var exchange, outcome := ExchangeEffects(d, begun, id, conn), Prints(FinishEntries(op, conn.failure, conn.endedAt));
    assert NamesTruly(truth, d, turn, announced);
    assert NamesTruly(truth, d, turn, exchange);
    assert NamesTruly(truth, d, turn, outcome);
    NamesTrulyBoth(truth, d, turn, announced, exchange);
    NamesTrulyBoth(truth, d, turn, announced + exchange, outcome);
    NamesTrulyBoth(truth, d, turn, announced + exchange + outcome, [On(Finished(id, op.tag, ok))]);
  }

  lemma {:induction false} AnswerNamesTruly(
    truth: U32 -> Option<string>, d: Daemon, names: Names, id: nat, conn: Connection, tickAt: int)
    requires TrueNames(truth, names) && TrueTurn(truth, Arrived(conn, tickAt))
    ensures NamesTruly(truth, d, Arrived(conn, tickAt), AnswerEffects(d, names, id, conn))
    ensures TrueNames(truth, NamesAfterAnswer(d, names, conn))
  {
    if Admits(d, conn.caller) {
      AdmittedNamesTruly(truth, d, names, id, conn, tickAt);
    } else {
      ShownIsTrue(truth, names, conn.caller, conn.first);
    }
  }

  lemma HandlingNamesTruly(truth: U32 -> Option<string>, d: Daemon, turn: Turn, accept: seq<Effect>, answer: seq<Effect>,
                           started: Stamp, finished: Stamp, returned: ServeLoop.Event, tick: Stamp)
    requires NamesTruly(truth, d, turn, accept) && NamesTruly(truth, d, turn, answer)
    ensures NamesTruly(truth, d, turn, accept + ([Stamped(started)] + answer + [Stamped(finished), On(returned)])
                                       + [Stamped(tick)])
  {
  }

  lemma {:induction false} TurnNamesTruly(truth: U32 -> Option<string>, d: Daemon, names: Names, id: nat, turn: Turn)
    requires TrueNames(truth, names) && TrueTurn(truth, turn)
    ensures NamesTruly(truth, d, turn, TurnEffects(d, names, id, turn))
    ensures TrueNames(truth, NamesAfterTurn(d, names, turn))
  {
    if turn.Arrived? {
      var conn := turn.conn;
      AnswerNamesTruly(truth, d, names, id, conn, turn.tickAt);
      HandlingNamesTruly(truth, d, turn, AcceptEffects(id, turn), AnswerEffects(d, names, id, conn),
                         CallStarted(BoundedCall, conn.startedAt), CallFinished(conn.finishedAt),
                         ServeLoop.Event.Returned(id), Tick(turn.tickAt));
    }
  }

  lemma LastNames(d: Daemon, turns: seq<Turn>)
    requires turns != []
    ensures Serving(d, NOTHING, turns).names
            == NamesAfterTurn(d, Serving(d, NOTHING, turns[..|turns| - 1]).names, turns[|turns| - 1])
  {
  }

  lemma TrueNamesAre(truth: U32 -> Option<string>, names: Names, same: Names)
    requires TrueNames(truth, names) && names == same
    ensures TrueNames(truth, same)
  {
  }

  lemma {:induction false} RunNamesAreTrue(truth: U32 -> Option<string>, d: Daemon, turns: seq<Turn>)
    requires forall i :: 0 <= i < |turns| ==> TrueTurn(truth, turns[i])
    ensures TrueNames(truth, Serving(d, NOTHING, turns).names)
  {
    if turns != [] {
      var n := |turns| - 1;
      var names := Serving(d, NOTHING, turns[..n]).names;
      RunNamesAreTrue(truth, d, turns[..n]);
      TurnNamesTruly(truth, d, names, n, turns[n]);
      LastNames(d, turns);
      TrueNamesAre(truth, NamesAfterTurn(d, names, turns[n]), Serving(d, NOTHING, turns).names);
    }
  }

  /**
   Whatever the memo has learnt on the way: every line about a connection shows its own caller, under the
   name of the account of its uid or, where NSS failed or knows none, under no name.
   */
  lemma {:induction false} LinesNameTruly(truth: U32 -> Option<string>, d: Daemon, turns: seq<Turn>, k: nat)
    requires forall i :: 0 <= i < |turns| ==> TrueTurn(truth, turns[i])
    requires k < |Serving(d, NOTHING, turns).effects|
    ensures var effects := Serving(d, NOTHING, turns).effects;
            && Ticks(effects[..k]) < |turns|
            && EffectNamesTruly(truth, d, turns[Ticks(effects[..k])], effects[k])
  {
    var effects := Serving(d, NOTHING, turns).effects;
    var id := Ticks(effects[..k]);
    TurnsKeepToThemselves(d, turns, k);
    FoundInItsTurn(effects, k);
    DuringIs(d, turns, id);
    RunNamesAreTrue(truth, d, turns[..id]);
    TurnNamesTruly(truth, d, Serving(d, NOTHING, turns[..id]).names, id, turns[id]);
    var i :| 0 <= i < |EffectsAt(d, turns, id)| && EffectsAt(d, turns, id)[i] == effects[k];
    assert EffectNamesTruly(truth, d, turns[id], EffectsAt(d, turns, id)[i]);
  }

  // ---------------------------------------------------------------------
  // The journal of the whole loop
  // ---------------------------------------------------------------------

  predicate WellSpokenTurn(d: Daemon, turn: Turn) {
    match turn
    case TimedOut(_) => OneLine(d.service)
    case AcceptError(reason, _) => OneLine(d.service) && OneLine(reason)
    case NoDeadline(_, reason, _) => OneLine(d.service) && OneLine(reason)
    case Arrived(conn, _) => WellSpoken(d.service, d.call, conn.caller)
  }

  predicate IsLine(e: Effect) { e.Printed? ==> OneLine(Line(e.entry)) }

  ghost predicate AreLines(effects: seq<Effect>) {
    forall i :: 0 <= i < |effects| ==> IsLine(effects[i])
  }

  lemma AreLinesBoth(a: seq<Effect>, b: seq<Effect>)
    requires AreLines(a) && AreLines(b)
    ensures AreLines(a + b)
  {
  }

  lemma {:induction false} RepliedHasOneLine(d: Daemon, shown: string)
    requires OneLine(d.service) && OneLine(shown)
    ensures OneLine(Line(Replied(d.service, shown)))
  {
  }

  lemma {:induction false} RefusedHasOneLine(d: Daemon, shown: string, reason: string)
    requires OneLine(d.service) && OneLine(d.call.noun) && OneLine(d.call.verb) && OneLine(shown) && OneLine(reason)
    ensures OneLine(Line(Refused(d.service, d.call, shown, reason)))
  {
  }

  lemma AcceptFailedHasOneLine(d: Daemon, reason: string)
    requires OneLine(d.service) && OneLine(reason)
    ensures OneLine(Line(AcceptFailed(d.service, reason)))
  {
  }

  lemma {:induction false} AdmittedIsLines(d: Daemon, names: Names, id: nat, conn: Connection)
    requires WellSpoken(d.service, d.call, conn.caller) && NamesAreLines(names) && Admits(d, conn.caller)
    ensures AreLines(AdmittedEffects(d, names, id, conn)) && NamesAreLines(NamesAfterAnswer(d, names, conn))
  {
    var op, ok := OperationFor(d, names, conn), conn.failure.None?;
    var begun := NamesAfterBegin(d.call, names, conn.caller, conn.first);
    AnnouncedHasOneLine(d.service, d.call, names, conn.caller, conn.first);
    ShownHasOneLine(begun, conn.caller, conn.second);
    RepliedHasOneLine(d, Shown(begun, conn.caller, conn.second));
    if op.tag.Some? {
      OutcomeHasOneLine(op, conn.failure, conn.endedAt);
    }
    var announced := [On(Admitted(id))] + Prints(BeginEntries(op)) + [On(Began(id, op.tag))];
    var exchange, outcome := ExchangeEffects(d, begun, id, conn), Prints(FinishEntries(op, conn.failure, conn.endedAt));
    assert AreLines(announced);
    assert AreLines(exchange);
    assert AreLines(outcome);
    AreLinesBoth(announced, exchange);
    AreLinesBoth(announced + exchange, outcome);
    AreLinesBoth(announced + exchange + outcome, [On(Finished(id, op.tag, ok))]);
  }

  lemma {:induction false} AnswerIsLines(d: Daemon, names: Names, id: nat, conn: Connection)
    requires WellSpoken(d.service, d.call, conn.caller) && NamesAreLines(names)
    ensures AreLines(AnswerEffects(d, names, id, conn)) && NamesAreLines(NamesAfterAnswer(d, names, conn))
  {
    if Admits(d, conn.caller) {
      AdmittedIsLines(d, names, id, conn);
    } else {
      var reason := Authorize(d.gate, d.call, conn.caller).error;
      ShownHasOneLine(names, conn.caller, conn.first);
      RefusalHasOneLine(d.gate, d.call, conn.caller);
      RefusedHasOneLine(d, Shown(names, conn.caller, conn.first), reason);
    }
  }

  lemma HandlingIsLines(accept: seq<Effect>, answer: seq<Effect>, id: nat, conn: Connection, tickAt: int)
    requires AreLines(accept) && AreLines(answer)
    ensures AreLines(accept + ([Stamped(CallStarted(BoundedCall, conn.startedAt))] + answer
                               + [Stamped(CallFinished(conn.finishedAt)), On(ServeLoop.Event.Returned(id))])
                     + [Stamped(Tick(tickAt))])
  {
  }

  lemma {:induction false} TurnIsLines(d: Daemon, names: Names, id: nat, turn: Turn)
    requires WellSpokenTurn(d, turn) && NamesAreLines(names)
    ensures AreLines(TurnEffects(d, names, id, turn)) && NamesAreLines(NamesAfterTurn(d, names, turn))
  {
    if turn.Arrived? {
      AnswerIsLines(d, names, id, turn.conn);
      HandlingIsLines(AcceptEffects(id, turn), AnswerEffects(d, names, id, turn.conn), id, turn.conn, turn.tickAt);
    } else if AcceptFailure(turn).Some? {
      AcceptFailedHasOneLine(d, AcceptFailure(turn).value);
    }
  }

  lemma {:induction false} RunIsLines(d: Daemon, turns: seq<Turn>)
    requires forall i :: 0 <= i < |turns| ==> WellSpokenTurn(d, turns[i])
    ensures AreLines(Serving(d, NOTHING, turns).effects) && NamesAreLines(Serving(d, NOTHING, turns).names)
  {
    if turns != [] {
      var n := |turns| - 1;
      RunIsLines(d, turns[..n]);
      var s := Serving(d, NOTHING, turns[..n]);
      TurnIsLines(d, s.names, n, turns[n]);
      AreLinesBoth(s.effects, TurnEffects(d, s.names, n, turns[n]));
    }
  }

  lemma {:induction false} EntriesInAreLines(effects: seq<Effect>)
    requires AreLines(effects)
    ensures forall i :: 0 <= i < |EntriesIn(effects)| ==> OneLine(Line(EntriesIn(effects)[i]))
  {
    if effects != [] {
      EntriesInAreLines(effects[..|effects| - 1]);
      assert IsLine(effects[|effects| - 1]);
    }
  }

  /** Whoever connects and however their exchange fails, the journal of the loop reads back line by line. */
  lemma {:induction false} ServeJournalReadsBack(d: Daemon, turns: seq<Turn>)
    requires forall i :: 0 <= i < |turns| ==> WellSpokenTurn(d, turns[i])
    ensures var lines := Lines(EntriesIn(Serving(d, NOTHING, turns).effects)); SplitLines(Unlines(lines)) == lines
  {
    RunIsLines(d, turns);
    EntriesInAreLines(Serving(d, NOTHING, turns).effects);
    LinesRecoverable(Lines(EntriesIn(Serving(d, NOTHING, turns).effects)));
  }

  // ---------------------------------------------------------------------
  // The stamps of the loop, and the watchdog
  // ---------------------------------------------------------------------

  function CallStamps(turn: Turn): seq<Stamp> {
    if turn.Arrived? then [CallStarted(BoundedCall, turn.conn.startedAt), CallFinished(turn.conn.finishedAt)] else []
  }

  function TurnStamps(turn: Turn): seq<Stamp> { CallStamps(turn) + [Tick(turn.tickAt)] }

  lemma {:induction false} QuietStamps(quiet: seq<Effect>)
    requires forall i :: 0 <= i < |quiet| ==> !quiet[i].Stamped?
    ensures StampsIn(quiet) == []
  {
    if quiet != [] {
      QuietStamps(quiet[..|quiet| - 1]);
    }
  }

  lemma {:induction false} TakenStamps(id: nat, conn: Connection)
    ensures StampsIn(Taken(id, conn)) == [CallStarted(BoundedCall, conn.startedAt)]
  {
    var accept := [On(Accepted(id)), On(CredentialsRead(id, conn.caller)), On(DeadlineSet(id))];
    QuietStamps(accept);
    OneMore(accept, Stamped(CallStarted(BoundedCall, conn.startedAt)));
    assert Taken(id, conn) == accept + [Stamped(CallStarted(BoundedCall, conn.startedAt))];
  }

  lemma OneStamp(stamp: Stamp)
    ensures StampsIn([Stamped(stamp)]) == [stamp]
  {
    assert [Stamped(stamp)][..0] == [];
  }

  lemma {:induction false} ClosedStamps(id: nat, conn: Connection, at: int)
    ensures StampsIn(Closed(id, conn, at)) == [CallFinished(conn.finishedAt), Tick(at)]
  {
    var finished, returned, tick := [Stamped(CallFinished(conn.finishedAt))], [On(ServeLoop.Event.Returned(id))],
        [Stamped(Tick(at))];
    OneStamp(CallFinished(conn.finishedAt));
    QuietStamps(returned);
    Appended(finished, returned);
    OneStamp(Tick(at));
    Appended(finished + returned, tick);
    assert Closed(id, conn, at) == finished + returned + tick;
  }

  lemma {:induction false} ArrivedStamps(id: nat, conn: Connection, answer: seq<Effect>, at: int)
    requires forall i :: 0 <= i < |answer| ==> !answer[i].Stamped?
    ensures StampsIn(Taken(id, conn) + answer + Closed(id, conn, at)) == TurnStamps(Arrived(conn, at))
  {
    TakenStamps(id, conn);
    QuietStamps(answer);
    Appended(Taken(id, conn), answer);
    assert StampsIn(Taken(id, conn) + answer) == [CallStarted(BoundedCall, conn.startedAt)];
    ClosedStamps(id, conn, at);
    Appended(Taken(id, conn) + answer, Closed(id, conn, at));
  }

  lemma {:induction false} TurnStampsAre(d: Daemon, id: nat, turn: Turn, effects: seq<Effect>)
    requires TurnDone(d, id, turn, effects)
    ensures StampsIn(effects) == TurnStamps(turn)
  {
    if turn.Arrived? {
      var answer :| Answered(d, id, turn.conn, answer)
                    && effects == Taken(id, turn.conn) + answer + Closed(id, turn.conn, turn.tickAt);
      AnswerIsOwn(d, id, turn.conn, answer);
      ArrivedStamps(id, turn.conn, answer, turn.tickAt);
    } else {
      var front := effects[..|effects| - 1];
      assert effects == front + [Stamped(Tick(turn.tickAt))];
      QuietStamps(front);
      OneMore(front, Stamped(Tick(turn.tickAt)));
    }
  }

  lemma {:induction false} TurnLeavesIdle(s: ActivityState, turn: Turn)
    requires s.inFlight.None?
    ensures ReplayFrom(s, TurnStamps(turn)).inFlight.None?
  {
    match turn
    case Arrived(conn, tickAt) =>
      var stamps := TurnStamps(turn);
      assert stamps[..2] == [stamps[0], stamps[1]] && stamps[..2][..1] == [stamps[0]] && stamps[..1][..0] == [];
    case _ => assert TurnStamps(turn)[..0] == [];
  }

  lemma {:induction false} TurnKeepsShape(h: seq<Stamp>, turn: Turn)
    requires GatekeeperTiming.LoopShaped(h) && h != [] && h[|h| - 1].Tick?
    ensures GatekeeperTiming.LoopShaped(h + TurnStamps(turn))
    ensures var h' := h + TurnStamps(turn); h'[|h'| - 1].Tick?
  {
  }

  ghost predicate AtLoopHead(born: int, stamps: seq<Stamp>) {
    var h := History(born, stamps);
    Replay(born, stamps).inFlight.None? && GatekeeperTiming.LoopShaped(h) && h[|h| - 1].Tick?
  }

  lemma {:induction false} TurnKeepsIdle(born: int, before: seq<Stamp>, turn: Turn)
    requires AtLoopHead(born, before)
    ensures AtLoopHead(born, before + TurnStamps(turn))
  {
    ReplayAppend(Fresh(born), before, TurnStamps(turn));
    TurnLeavesIdle(Replay(born, before), turn);
    TurnKeepsShape(History(born, before), turn);
    assert History(born, before + TurnStamps(turn)) == History(born, before) + TurnStamps(turn);
  }

  /** At every loop head no call is in flight, and the stamps so far have the shape the watchdog's bounds assume. */
  lemma {:induction false} LoopHeadIsIdle(d: Daemon, turns: seq<Turn>, born: int)
    ensures AtLoopHead(born, StampsIn(Serving(d, NOTHING, turns).effects))
  {
    if turns != [] {
      var n := |turns| - 1;
      var before := Serving(d, NOTHING, turns[..n]);
      LoopHeadIsIdle(d, turns[..n], born);
      LastTurn(d, turns);
      TurnIsDone(d, before.names, n, turns[n]);
      TurnStampsAre(d, n, turns[n], EffectsAt(d, turns, n));
      Appended(before.effects, EffectsAt(d, turns, n));
      TurnKeepsIdle(born, StampsIn(before.effects), turns[n]);
    }
  }

  lemma ShapeOfPrefix(h: seq<Stamp>, n: nat)
    requires GatekeeperTiming.LoopShaped(h) && n <= |h|
    ensures GatekeeperTiming.LoopShaped(h[..n])
  {
  }

  /**
   The composed daemon: if the stamps a watchdog run saw are stamps of this loop - up to any point,
   including the middle of a call - and both threads were scheduled on time, it was never killed.
   */
  lemma {:induction false} ServingIsNeverKilled(
    d: Daemon, turns: seq<Turn>, usec: nat, armed: bool, ws: seq<Heartbeat.World>)
    requires usec >= 2 || !armed
    requires Heartbeat.Run(GatekeeperTiming.GatekeeperConfig(usec, armed), ws)
    requires Heartbeat.Last(ws).log <= StampsIn(Serving(d, NOTHING, turns).effects)
    requires GatekeeperTiming.TurnsOnTime(
               History(Heartbeat.Last(ws).born, Heartbeat.Last(ws).log), Heartbeat.Last(ws).clock, usec / 2, armed)
    requires Heartbeat.PromptHeartbeat(GatekeeperTiming.GatekeeperConfig(usec, armed), ws)
    ensures forall i :: 0 <= i < |ws| ==> !ws[i].killed
    ensures forall k :: 0 <= k < |Heartbeat.Last(ws).wakeups| ==> Heartbeat.Last(ws).wakeups[k].petted
  {
    var z, stamps := Heartbeat.Last(ws), StampsIn(Serving(d, NOTHING, turns).effects);
    LoopHeadIsIdle(d, turns, z.born);
    ShapeOfPrefix(History(z.born, stamps), |z.log| + 1);
    assert History(z.born, stamps)[..|z.log| + 1] == History(z.born, z.log);
    GatekeeperTiming.TimelyGatekeeperIsNeverKilled(usec, armed, ws);
  }
}
