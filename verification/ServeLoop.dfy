/**
 The gatekeeper's accept loop: one connection at a time, attributed, gated, audited, answered, and
 stamped for the watchdog.

 What the outside does in one turn of the loop - what `accept` returns, what NSS answers, how the
 exchange goes, and when - is an input.
 */
module ServeLoop {
  import opened Prelude
  import opened Effects
  import opened Activity
  import opened Memo
  import opened Callers
  import opened Audit
  import opened Gate

  const USIZE_MAX: nat := U64_MAX

  /** The daemon's name, the one call it serves, and who may make it. */
  datatype Daemon = Daemon(service: string, call: Call, gate: PeerGate)

  /** One accepted connection: who is on it, how the exchange goes, and what NSS says when asked. */
  datatype Connection = Connection(
    caller: SocketCaller, failure: Option<string>, first: Lookup, second: Lookup,
    startedAt: int, beganAt: int, endedAt: int, finishedAt: int)

  /** One turn: a timeout, a failed accept, a connection whose deadline could not be set, or a connection. */
  datatype Turn =
    | TimedOut(tickAt: int)
    | AcceptError(reason: string, tickAt: int)
    | NoDeadline(caller: SocketCaller, reason: string, tickAt: int)
    | Arrived(conn: Connection, tickAt: int)

  /** What happens to the connection of turn `id`. Whether a refusal written to it arrives is ignored. */
  datatype Event =
    | Accepted(id: nat)
    | CredentialsRead(id: nat, caller: SocketCaller)
    | DeadlineSet(id: nat)
    | AcceptFailedAt(id: nat)
    | Denied(id: nat)
    | RefusalWritten(id: nat, text: string)
    | Admitted(id: nat)
    | Began(id: nat, tag: Option<string>)
    | Exchanged(id: nat)
    | Finished(id: nat, tag: Option<string>, ok: bool)
    | Returned(id: nat)

  /** What the serve thread does, one thing after another: stamp its record, print a line, act on a connection. */
  datatype Effect = Stamped(stamp: Stamp) | Printed(entry: Entry) | On(event: Event)

  datatype ServeState = ServeState(names: Names, effects: seq<Effect>, served: nat)

  // ---------------------------------------------------------------------
  // One turn
  // ---------------------------------------------------------------------

  function OperationFor(d: Daemon, names: Names, conn: Connection): Operation {
    Operation(d.service, Announced(d.service, d.call, names, conn.caller, conn.first), conn.beganAt)
  }

  predicate Admits(d: Daemon, caller: Caller) { Authorize(d.gate, d.call, caller).Ok? }

  function ReplyEntries(d: Daemon, names: Names, conn: Connection): seq<Entry> {
    if conn.failure.None? then [Replied(d.service, Shown(names, conn.caller, conn.second))] else []
  }

  function NamesAfterExchange(names: Names, conn: Connection): Names {
    if conn.failure.None? then NameOf(names, conn.caller, conn.second).1 else names
  }

  /** The memo after a connection has been answered: a refusal shows the caller once, an exchange shows it again. */
  function NamesAfterAnswer(d: Daemon, names: Names, conn: Connection): Names {
    if !Admits(d, conn.caller) then NameOf(names, conn.caller, conn.first).1
    else NamesAfterExchange(NamesAfterBegin(d.call, names, conn.caller, conn.first), conn)
  }

  function Prints(entries: seq<Entry>): (effects: seq<Effect>)
    ensures |effects| == |entries| && forall i :: 0 <= i < |entries| ==> effects[i] == Printed(entries[i])
  {
    seq(|entries|, i requires 0 <= i < |entries| => Printed(entries[i]))
  }

  function ExchangeEffects(d: Daemon, names: Names, id: nat, conn: Connection): seq<Effect> {
    [On(Exchanged(id))] + Prints(ReplyEntries(d, names, conn))
  }

  /** An admitted connection: its announcement, the exchange, the reply if one got through, the outcome. */
  function AdmittedEffects(d: Daemon, names: Names, id: nat, conn: Connection): seq<Effect> {
    var op := OperationFor(d, names, conn);
    var begun := NamesAfterBegin(d.call, names, conn.caller, conn.first);
    [On(Admitted(id))] + Prints(BeginEntries(op)) + [On(Began(id, op.tag))]
    + ExchangeEffects(d, begun, id, conn)
    + Prints(FinishEntries(op, conn.failure, conn.endedAt)) + [On(Finished(id, op.tag, conn.failure.None?))]
  }

  function AnswerEffects(d: Daemon, names: Names, id: nat, conn: Connection): seq<Effect> {
    match Authorize(d.gate, d.call, conn.caller)
    case Err(reason) =>
      [On(Denied(id)), Printed(Refused(d.service, d.call, Shown(names, conn.caller, conn.first), reason)),
       On(RefusalWritten(id, "refused: " + reason))]
    case Ok(_) => AdmittedEffects(d, names, id, conn)
  }

  /** The record says a call is in flight for as long as it is being answered. */
  function HandlingEffects(d: Daemon, names: Names, id: nat, conn: Connection): seq<Effect> {
    [Stamped(CallStarted(BoundedCall, conn.startedAt))] + AnswerEffects(d, names, id, conn)
    + [Stamped(CallFinished(conn.finishedAt)), On(Event.Returned(id))]
  }

  /** What `accept` does: the credentials come before anything that can be read from the connection. */
  function AcceptEffects(id: nat, turn: Turn): seq<Effect> {
    match turn
    case TimedOut(_) => [On(AcceptFailedAt(id))]
    case AcceptError(_, _) => [On(AcceptFailedAt(id))]
    case NoDeadline(caller, _, _) => [On(Accepted(id)), On(CredentialsRead(id, caller)), On(AcceptFailedAt(id))]
    case Arrived(conn, _) => [On(Accepted(id)), On(CredentialsRead(id, conn.caller)), On(DeadlineSet(id))]
  }

  /** The line a failed accept leaves; an idle timeout leaves none. */
  function AcceptFailure(turn: Turn): Option<string> {
    match turn
    case AcceptError(reason, _) => Some(reason)
    case NoDeadline(_, reason, _) => Some(reason)
    case _ => None
  }

  /** What the loop then does with what it accepted. */
  function AcceptedEffects(d: Daemon, names: Names, id: nat, turn: Turn): seq<Effect> {
    if turn.Arrived? then HandlingEffects(d, names, id, turn.conn)
    else if AcceptFailure(turn).Some? then [Printed(AcceptFailed(d.service, AcceptFailure(turn).value))]
    else []
  }

  function TurnEffects(d: Daemon, names: Names, id: nat, turn: Turn): seq<Effect> {
    AcceptEffects(id, turn) + AcceptedEffects(d, names, id, turn) + [Stamped(Tick(turn.tickAt))]
  }

  function NamesAfterTurn(d: Daemon, names: Names, turn: Turn): Names {
    if turn.Arrived? then NamesAfterAnswer(d, names, turn.conn) else names
  }

  /** `saturating_add(1)` for a served connection. */
  function ServedAfter(served: nat, turn: Turn): nat {
    if turn.Arrived? && served < USIZE_MAX then served + 1 else served
  }

  function TurnOnce(d: Daemon, s: ServeState, id: nat, turn: Turn): ServeState {
    ServeState(NamesAfterTurn(d, s.names, turn),
               s.effects + TurnEffects(d, s.names, id, turn),
               ServedAfter(s.served, turn))
  }

  function Serving(d: Daemon, s: ServeState, turns: seq<Turn>): ServeState {
    if turns == [] then s
    else TurnOnce(d, Serving(d, s, turns[..|turns| - 1]), |turns| - 1, turns[|turns| - 1])
  }

  // ---------------------------------------------------------------------
  // The journal and the record, as parts of what the thread did
  // ---------------------------------------------------------------------

  function EntriesIn(effects: seq<Effect>): seq<Entry> {
    if effects == [] then []
    else
      var last := effects[|effects| - 1];
      EntriesIn(effects[..|effects| - 1]) + (if last.Printed? then [last.entry] else [])
  }

  function StampsIn(effects: seq<Effect>): seq<Stamp> {
    if effects == [] then []
    else
      var last := effects[|effects| - 1];
      StampsIn(effects[..|effects| - 1]) + (if last.Stamped? then [last.stamp] else [])
  }

  lemma {:induction false} OneMore(effects: seq<Effect>, e: Effect)
    ensures EntriesIn(effects + [e]) == EntriesIn(effects) + (if e.Printed? then [e.entry] else [])
    ensures StampsIn(effects + [e]) == StampsIn(effects) + (if e.Stamped? then [e.stamp] else [])
  {
    assert (effects + [e])[..|effects|] == effects;
  }

  lemma {:induction false} Appended(a: seq<Effect>, b: seq<Effect>)
    ensures EntriesIn(a + b) == EntriesIn(a) + EntriesIn(b)
    ensures StampsIn(a + b) == StampsIn(a) + StampsIn(b)
  {
    if b == [] {
      assert a + b == a;
    } else {
      Appended(a, b[..|b| - 1]);
      assert (a + b)[..|a + b| - 1] == a + b[..|b| - 1];
    }
  }

  lemma {:induction false} Printing(effects: seq<Effect>, entries: seq<Entry>)
    ensures EntriesIn(effects + Prints(entries)) == EntriesIn(effects) + entries
    ensures StampsIn(effects + Prints(entries)) == StampsIn(effects)
  {
    if entries == [] {
      assert effects + Prints(entries) == effects;
    } else {
      var front, last := entries[..|entries| - 1], entries[|entries| - 1];
      Printing(effects, front);
      OneMore(effects + Prints(front), Printed(last));
      assert effects + Prints(entries) == effects + Prints(front) + [Printed(last)];
    }
  }

  // ---------------------------------------------------------------------
  // The loop
  // ---------------------------------------------------------------------

  lemma ThreeInOrder(t: seq<Effect>, a: Effect, b: Effect, c: Effect)
    ensures t + [a] + [b] + [c] == t + [a, b, c]
  {
  }

  /** The connections: every action on one is recorded as it is taken. */
  class Wire {
    const recorder: Recorder<Effect>

    constructor (recorder: Recorder<Effect>)
      ensures this.recorder == recorder
    {
      this.recorder := recorder;
    }

    method Note(e: Event)
      modifies recorder
      ensures recorder.effects == old(recorder.effects) + [On(e)]
      ensures EntriesIn(recorder.effects) == old(EntriesIn(recorder.effects))
      ensures StampsIn(recorder.effects) == old(StampsIn(recorder.effects))
    {
      OneMore(recorder.effects, On(e));
      recorder.Record(On(e));
    }

    /** `Socket::accept`: accept, read the credentials, set the deadline. */
    method Accept(id: nat, turn: Turn) returns (conn: Result<Connection, Option<string>>)
      modifies recorder
      ensures recorder.effects == old(recorder.effects) + AcceptEffects(id, turn)
      ensures EntriesIn(recorder.effects) == old(EntriesIn(recorder.effects))
      ensures StampsIn(recorder.effects) == old(StampsIn(recorder.effects))
      ensures conn == if turn.Arrived? then Ok(turn.conn) else Err(AcceptFailure(turn))
    {
      match turn {
        case TimedOut(_) =>
          Note(AcceptFailedAt(id));
          return Err(None);
        case AcceptError(reason, _) =>
          Note(AcceptFailedAt(id));
          return Err(Some(reason));
        case NoDeadline(caller, reason, _) =>
          Note(Accepted(id));
          Note(CredentialsRead(id, caller));
          Note(AcceptFailedAt(id));
          ThreeInOrder(old(recorder.effects), On(Accepted(id)), On(CredentialsRead(id, caller)), On(AcceptFailedAt(id)));
          return Err(Some(reason));
        case Arrived(arrived, _) =>
          Note(Accepted(id));
          Note(CredentialsRead(id, arrived.caller));
          Note(DeadlineSet(id));
          ThreeInOrder(old(recorder.effects), On(Accepted(id)), On(CredentialsRead(id, arrived.caller)),
                       On(DeadlineSet(id)));
          return Ok(arrived);
      }
    }
  }

  /** The journal prints into the thread's log, and holds what the log says was printed. */
  ghost predicate Writes(wire: Wire, journal: Journal<Effect>)
    reads journal, wire.recorder
  {
    && journal.recorder == wire.recorder && (forall e :: journal.effectOf(e) == Printed(e))
    && journal.Valid() && journal.entries == EntriesIn(wire.recorder.effects)
  }

  /** The record stamps into the thread's log, and has been stamped as the log says. */
  ghost predicate Stamps(wire: Wire, activity: ServeActivity<Effect>)
    reads activity, wire.recorder
  {
    && activity.recorder == wire.recorder && (forall s :: activity.effectOf(s) == Stamped(s))
    && activity.Valid() && !activity.poisoned && activity.log == StampsIn(wire.recorder.effects)
  }

  lemma PrintingIs(wire: Wire, journal: Journal<Effect>, entries: seq<Entry>)
    requires forall e :: journal.effectOf(e) == Printed(e)
    ensures journal.Printing(entries) == Prints(entries)
  {
  }

  lemma Joined(t: seq<Effect>, a: seq<Effect>, b: seq<Effect>)
    ensures t + a + b == t + (a + b)
  {
  }

  /** A line of the daemon's own, in the log as in the journal. */
  method PrintLine(e: Entry, wire: Wire, journal: Journal<Effect>)
    requires Writes(wire, journal)
    modifies wire.recorder, journal
    ensures Writes(wire, journal)
    ensures wire.recorder.effects == old(wire.recorder.effects) + [Printed(e)]
    ensures StampsIn(wire.recorder.effects) == old(StampsIn(wire.recorder.effects))
  {
    OneMore(wire.recorder.effects, Printed(e));
    PrintingIs(wire, journal, [e]);
    assert Prints([e]) == [Printed(e)];
    journal.Print(e);
  }

  /** `exchange`: the request is read and answered, and a reply that got through is journalled. */
  method Exchange(d: Daemon, id: nat, conn: Connection, wire: Wire, journal: Journal<Effect>, cache: NameCache)
    returns (failure: Option<string>)
    requires Writes(wire, journal)
    modifies wire.recorder, journal, cache
    ensures Writes(wire, journal) && failure == conn.failure
    ensures wire.recorder.effects == old(wire.recorder.effects) + ExchangeEffects(d, old(cache.names), id, conn)
    ensures StampsIn(wire.recorder.effects) == old(StampsIn(wire.recorder.effects))
    ensures cache.names == NamesAfterExchange(old(cache.names), conn)
  {
    ghost var reply := ReplyEntries(d, cache.names, conn);
    wire.Note(Exchanged(id));
    failure := conn.failure;
    if failure.None? {
      var shown := Display(conn.caller, cache, conn.second);
      PrintLine(Replied(d.service, shown), wire, journal);
    }
    assert Prints(reply) == if failure.None? then [Printed(reply[0])] else [];
    Joined(old(wire.recorder.effects), [On(Exchanged(id))], Prints(reply));
  }

  lemma SixInOrder(t: seq<Effect>, a: seq<Effect>, b: seq<Effect>, c: seq<Effect>, d: seq<Effect>,
                   e: seq<Effect>, f: seq<Effect>)
    ensures t + a + b + c + d + e + f == t + (a + b + c + d + e + f)
  {
  }

  /** The admitted half of `answer`: announce, exchange, report. */
  method AnswerAdmitted(d: Daemon, id: nat, conn: Connection, wire: Wire, journal: Journal<Effect>, cache: NameCache)
    requires Writes(wire, journal)
    modifies wire.recorder, journal, cache
    ensures Writes(wire, journal)
    ensures wire.recorder.effects == old(wire.recorder.effects) + AdmittedEffects(d, old(cache.names), id, conn)
    ensures StampsIn(wire.recorder.effects) == old(StampsIn(wire.recorder.effects))
    ensures cache.names == NamesAfterExchange(NamesAfterBegin(d.call, old(cache.names), conn.caller, conn.first), conn)
  {
    wire.Note(Admitted(id));
    ghost var admitted := wire.recorder.effects;
    var audit := journal.Begin(d.service, d.call, conn.caller, cache, conn.first, conn.beganAt);
    PrintingIs(wire, journal, BeginEntries(audit));
    Printing(admitted, BeginEntries(audit));
    wire.Note(Began(id, audit.tag));
    ghost var exchange := ExchangeEffects(d, cache.names, id, conn);
    var failure := Exchange(d, id, conn, wire, journal, cache);
    ghost var exchanged, outcome := wire.recorder.effects, FinishEntries(audit, failure, conn.endedAt);
    journal.Finish(audit, failure, conn.endedAt);
    PrintingIs(wire, journal, outcome);
    Printing(exchanged, outcome);
    wire.Note(Finished(id, audit.tag, failure.None?));
    SixInOrder(old(wire.recorder.effects), [On(Admitted(id))], Prints(BeginEntries(audit)), [On(Began(id, audit.tag))],
               exchange, Prints(outcome), [On(Finished(id, audit.tag, failure.None?))]);
  }

  /** `answer`: authorize first, and refuse - in the journal, then to the client - without reading a byte. */
  method Answer(d: Daemon, id: nat, conn: Connection, wire: Wire, journal: Journal<Effect>, cache: NameCache)
    requires Writes(wire, journal)
    modifies wire.recorder, journal, cache
    ensures Writes(wire, journal)
    ensures wire.recorder.effects == old(wire.recorder.effects) + AnswerEffects(d, old(cache.names), id, conn)
    ensures StampsIn(wire.recorder.effects) == old(StampsIn(wire.recorder.effects))
    ensures cache.names == NamesAfterAnswer(d, old(cache.names), conn)
  {
    var verdict := Authorize(d.gate, d.call, conn.caller);
    if verdict.Err? {
      wire.Note(Denied(id));
      var shown := Display(conn.caller, cache, conn.first);
      PrintLine(Refused(d.service, d.call, shown, verdict.error), wire, journal);
      wire.Note(RefusalWritten(id, "refused: " + verdict.error));
      ThreeInOrder(old(wire.recorder.effects), On(Denied(id)), Printed(Refused(d.service, d.call, shown, verdict.error)),
                   On(RefusalWritten(id, "refused: " + verdict.error)));
      return;
    }
    AnswerAdmitted(d, id, conn, wire, journal, cache);
  }

  lemma FourInOrder(t: seq<Effect>, a: Effect, b: seq<Effect>, c: Effect, d: Effect)
    ensures t + [a] + b + [c] + [d] == t + ([a] + b + [c, d])
  {
  }

  lemma HandlingInOrder(t: seq<Effect>, d: Daemon, names: Names, id: nat, conn: Connection, answer: seq<Effect>)
    requires answer == AnswerEffects(d, names, id, conn)
    ensures t + [Stamped(CallStarted(BoundedCall, conn.startedAt))] + answer
            + [Stamped(CallFinished(conn.finishedAt))] + [On(Event.Returned(id))]
            == t + HandlingEffects(d, names, id, conn)
  {
    FourInOrder(t, Stamped(CallStarted(BoundedCall, conn.startedAt)), answer,
                Stamped(CallFinished(conn.finishedAt)), On(Event.Returned(id)));
  }

  /** `call_started`, in the log as in the record. */
  method OpenCall(at: int, activity: ServeActivity<Effect>, wire: Wire)
    requires Stamps(wire, activity)
    modifies activity, wire.recorder
    ensures Stamps(wire, activity) && activity.inFlight.Some?
    ensures wire.recorder.effects == old(wire.recorder.effects) + [Stamped(CallStarted(BoundedCall, at))]
    ensures EntriesIn(wire.recorder.effects) == old(EntriesIn(wire.recorder.effects))
  {
    OneMore(wire.recorder.effects, Stamped(CallStarted(BoundedCall, at)));
    activity.CallStarted(BoundedCall, at);
  }

  /** `call_finished`, in the log as in the record. */
  method CloseCall(at: int, activity: ServeActivity<Effect>, wire: Wire)
    requires Stamps(wire, activity)
    modifies activity, wire.recorder
    ensures Stamps(wire, activity) && activity.inFlight.None?
    ensures wire.recorder.effects == old(wire.recorder.effects) + [Stamped(CallFinished(at))]
    ensures EntriesIn(wire.recorder.effects) == old(EntriesIn(wire.recorder.effects))
  {
    OneMore(wire.recorder.effects, Stamped(CallFinished(at)));
    activity.CallFinished(at);
  }

  /** `tick`, in the log as in the record. */
  method TickTurn(at: int, activity: ServeActivity<Effect>, wire: Wire)
    requires Stamps(wire, activity)
    modifies activity, wire.recorder
    ensures Stamps(wire, activity) && activity.inFlight == old(activity.inFlight)
    ensures wire.recorder.effects == old(wire.recorder.effects) + [Stamped(Tick(at))]
    ensures EntriesIn(wire.recorder.effects) == old(EntriesIn(wire.recorder.effects))
  {
    OneMore(wire.recorder.effects, Stamped(Tick(at)));
    activity.Tick(at);
  }

  /** A connection: the record says a call is in flight for exactly as long as it is being answered. */
  method HandleConnection(d: Daemon, id: nat, conn: Connection, activity: ServeActivity<Effect>, wire: Wire,
                          journal: Journal<Effect>, cache: NameCache)
    requires Stamps(wire, activity) && Writes(wire, journal)
    modifies activity, wire.recorder, journal, cache
    ensures Stamps(wire, activity) && Writes(wire, journal)
    ensures wire.recorder.effects == old(wire.recorder.effects) + HandlingEffects(d, old(cache.names), id, conn)
    ensures cache.names == NamesAfterAnswer(d, old(cache.names), conn)
    ensures activity.inFlight.None?
  {
    ghost var before, names := wire.recorder.effects, cache.names;
    OpenCall(conn.startedAt, activity, wire);
    Answer(d, id, conn, wire, journal, cache);
    CloseCall(conn.finishedAt, activity, wire);
    wire.Note(Event.Returned(id));
    HandlingInOrder(before, d, names, id, conn, AnswerEffects(d, names, id, conn));
  }

  /** The two arms of the loop: handle a connection, or log a failure that is not an idle timeout. */
  method Dispatch(d: Daemon, id: nat, turn: Turn, accepted: Result<Connection, Option<string>>,
                  activity: ServeActivity<Effect>, wire: Wire, journal: Journal<Effect>, cache: NameCache)
    requires Stamps(wire, activity) && Writes(wire, journal)
    requires accepted == if turn.Arrived? then Ok(turn.conn) else Err(AcceptFailure(turn))
    modifies activity, wire.recorder, journal, cache
    ensures Stamps(wire, activity) && Writes(wire, journal)
    ensures wire.recorder.effects == old(wire.recorder.effects) + AcceptedEffects(d, old(cache.names), id, turn)
    ensures cache.names == NamesAfterTurn(d, old(cache.names), turn)
    ensures activity.inFlight == if turn.Arrived? then None else old(activity.inFlight)
  {
    match accepted {
      case Ok(conn) => HandleConnection(d, id, conn, activity, wire, journal, cache);
      case Err(Some(reason)) =>
        PrintLine(AcceptFailed(d.service, reason), wire, journal);
      case Err(None) =>
    }
  }

  /** The body of the loop: accept, handle, and stamp the turn. */
  method TakeTurn(d: Daemon, id: nat, turn: Turn, activity: ServeActivity<Effect>, wire: Wire,
                  journal: Journal<Effect>, cache: NameCache) returns (arrived: bool)
    requires Stamps(wire, activity) && Writes(wire, journal)
    modifies activity, wire.recorder, journal, cache
    ensures Stamps(wire, activity) && Writes(wire, journal)
    ensures arrived == turn.Arrived?
    ensures wire.recorder.effects == old(wire.recorder.effects) + TurnEffects(d, old(cache.names), id, turn)
    ensures cache.names == NamesAfterTurn(d, old(cache.names), turn)
    ensures activity.inFlight == if turn.Arrived? then None else old(activity.inFlight)
  {
    ghost var accept, rest := AcceptEffects(id, turn), AcceptedEffects(d, cache.names, id, turn);
    var accepted := wire.Accept(id, turn);
    arrived := accepted.Ok?;
    Dispatch(d, id, turn, accepted, activity, wire, journal, cache);
    TickTurn(turn.tickAt, activity, wire);
    Joined(old(wire.recorder.effects), accept, rest);
    Joined(old(wire.recorder.effects), accept + rest, [Stamped(Tick(turn.tickAt))]);
  }

  lemma ServingStep(d: Daemon, s: ServeState, turns: seq<Turn>, k: nat)
    requires k < |turns|
    ensures Serving(d, s, turns[..k + 1]) == TurnOnce(d, Serving(d, s, turns[..k]), k, turns[k])
  {
    assert turns[..k + 1][..k] == turns[..k];
  }

  /** Everything the loop has done. */
  ghost function Snapshot(wire: Wire, cache: NameCache, served: nat): ServeState
    reads wire.recorder, cache
  {
    ServeState(cache.names, wire.recorder.effects, served)
  }

  /** One turn, counted. */
  method CountTurn(d: Daemon, id: nat, turn: Turn, served: nat, activity: ServeActivity<Effect>, wire: Wire,
                   journal: Journal<Effect>, cache: NameCache) returns (served': nat)
    requires Stamps(wire, activity) && Writes(wire, journal)
    modifies activity, wire.recorder, journal, cache
    ensures Stamps(wire, activity) && Writes(wire, journal)
    ensures Snapshot(wire, cache, served') == TurnOnce(d, old(Snapshot(wire, cache, served)), id, turn)
    ensures served <= served' <= served + 1
    ensures activity.inFlight == if turn.Arrived? then None else old(activity.inFlight)
  {
    served' := served;
    var arrived := TakeTurn(d, id, turn, activity, wire, journal, cache);
    if arrived {
      served' := if served < USIZE_MAX then served + 1 else served;
    }
  }

  /**
   `serve`, over the turns the outside provides: it stops when it has served `limit` connections, or
   when there are no more turns.
   */
  method Serve(d: Daemon, limit: Option<nat>, turns: seq<Turn>, activity: ServeActivity<Effect>, wire: Wire,
               journal: Journal<Effect>, cache: NameCache)
    returns (served: nat, taken: nat)
    requires Stamps(wire, activity) && Writes(wire, journal)
    requires limit.Some? ==> limit.value <= USIZE_MAX
    modifies activity, wire.recorder, journal, cache
    ensures taken <= |turns| && (taken == |turns| || (limit.Some? && served == limit.value))
    ensures limit.Some? ==> served <= limit.value
    ensures Stamps(wire, activity) && Writes(wire, journal)
    ensures Snapshot(wire, cache, served) == Serving(d, old(Snapshot(wire, cache, 0)), turns[..taken])
    ensures old(activity.inFlight).None? ==> activity.inFlight.None?
  {
    served, taken := 0, 0;
    while taken < |turns| && (limit.None? || served < limit.value)
      invariant taken <= |turns|
      invariant Stamps(wire, activity) && Writes(wire, journal)
      invariant limit.Some? ==> served <= limit.value
      invariant Snapshot(wire, cache, served) == Serving(d, old(Snapshot(wire, cache, 0)), turns[..taken])
      invariant old(activity.inFlight).None? ==> activity.inFlight.None?
    {
      ServingStep(d, old(Snapshot(wire, cache, 0)), turns, taken);
      served := CountTurn(d, taken, turns[taken], served, activity, wire, journal, cache);
      taken := taken + 1;
    }
  }

  /** The daemon's start: everything new, and one log under all of it. */
  method Start(now: int) returns (activity: ServeActivity<Effect>, wire: Wire, journal: Journal<Effect>, cache: NameCache)
    ensures Stamps(wire, activity) && Writes(wire, journal)
    ensures wire.recorder.effects == [] && cache.names == map[] && activity.inFlight.None? && activity.born == now
    ensures fresh(activity) && fresh(wire.recorder) && fresh(journal) && fresh(cache)
  {
    var recorder := new Recorder<Effect>();
    activity := new ServeActivity<Effect>(now, recorder, s => Stamped(s));
    journal := new Journal<Effect>(recorder, e => Printed(e));
    wire := new Wire(recorder);
    cache := new NameCache();
  }
}
