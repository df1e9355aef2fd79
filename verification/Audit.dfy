/**
 The audit trail: every gated operation is announced before it runs and reported when it finishes, in
 one text stream that all operations share.
 */
module Audit {
  import opened Prelude
  import opened Effects
  import opened Text
  import opened Memo
  import opened Callers

  const MAX_FAILURE_CHARS: nat := 256

  datatype Authorization = Unprivileged | Policy(action: string)

  /** What the daemon was asked to do, in the contract's own strings. */
  datatype Call = Call(noun: string, verb: string, authorization: Authorization)

  function CallName(call: Call): string { call.noun + "." + call.verb }

  function Describe(call: Call, action: string, shown: string): string {
    CallName(call) + " action=" + action + " by=" + shown
  }

  /** An operation in flight; `tag` is the text it announced itself with, if it is audited. */
  datatype Operation = Operation(service: string, tag: Option<string>, started: int)

  /** A line of the journal, before it is text. The last three are the daemon's own. */
  datatype Entry =
    | Begun(service: string, tag: string)
    | Succeeded(service: string, tag: string, millis: nat)
    | Failed(service: string, tag: string, millis: nat, reason: string)
    | Refused(service: string, call: Call, shown: string, reason: string)
    | Replied(service: string, shown: string)
    | AcceptFailed(service: string, reason: string)

  function Line(e: Entry): string {
    match e
    case Begun(service, tag) => service + ": audit: begin " + tag
    case Succeeded(service, tag, millis) => service + ": audit: ok " + tag + " (" + Decimal(millis) + "ms)"
    case Failed(service, tag, millis, reason) =>
      service + ": audit: failed " + tag + " (" + Decimal(millis) + "ms): " + Bounded(reason, MAX_FAILURE_CHARS)
    case Refused(service, call, shown, reason) =>
      service + ": refused " + CallName(call) + " for " + shown + ": " + reason
    case Replied(service, shown) => service + ": answered " + shown
    case AcceptFailed(service, reason) => service + ": accept failed: " + reason
  }

  function Lines(entries: seq<Entry>): (lines: seq<string>)
    ensures |lines| == |entries|
    ensures forall i :: 0 <= i < |entries| ==> lines[i] == Line(entries[i])
  {
    seq(|entries|, i requires 0 <= i < |entries| => Line(entries[i]))
  }

  /** Whole milliseconds between two instants, none if the clock seems to run backwards. */
  function Millis(started: int, now: int): (m: nat)
    ensures started <= now ==> 1000 * m <= now - started < 1000 * m + 1000
    ensures now < started ==> m == 0
  {
    if started <= now then (now - started) / 1000 else 0
  }

  // ---------------------------------------------------------------------
  // What an operation writes at either end
  // ---------------------------------------------------------------------

  function Announced(service: string, call: Call, names: Names, caller: Caller, lookup: Lookup): Option<string> {
    if call.authorization.Policy?
    then Some(Describe(call, call.authorization.action, Shown(names, caller, lookup)))
    else None
  }

  /** Only an audited call shows its caller, and so consults the memo. */
  function NamesAfterBegin(call: Call, names: Names, caller: Caller, lookup: Lookup): Names {
    if call.authorization.Policy? then NameOf(names, caller, lookup).1 else names
  }

  function BeginEntries(op: Operation): seq<Entry> {
    if op.tag.Some? then [Begun(op.service, op.tag.value)] else []
  }

  function Outcome(op: Operation, failure: Option<string>, now: int): Entry
    requires op.tag.Some?
  {
    if failure.None? then Succeeded(op.service, op.tag.value, Millis(op.started, now))
    else Failed(op.service, op.tag.value, Millis(op.started, now), failure.value)
  }

  /** The entry says how the operation went and how long it took, under the text that announced it. */
  predicate Reports(e: Entry, op: Operation, failure: Option<string>, now: int) {
    && (e.Succeeded? || e.Failed?) && e.service == op.service && Some(e.tag) == op.tag
    && (e.Succeeded? <==> failure.None?)
    && (e.Failed? ==> Some(e.reason) == failure)
    && (op.started <= now ==> 1000 * e.millis <= now - op.started < 1000 * e.millis + 1000)
  }

  function FinishEntries(op: Operation, failure: Option<string>, now: int): seq<Entry> {
    if op.tag.Some? then [Outcome(op, failure, now)] else []
  }

  /** The text stream. */
  class Journal<E> {
    var text: string
    ghost var entries: seq<Entry>
    const recorder: Recorder<E>
    /** The effect that printing an entry has. */
    ghost const effectOf: Entry -> E

    ghost predicate Valid()
      reads this
    {
      text == Unlines(Lines(entries))
    }

    /** What printing `added` in turn does. */
    ghost function Printing(added: seq<Entry>): (effects: seq<E>) {
      seq(|added|, i requires 0 <= i < |added| => effectOf(added[i]))
    }

    constructor (recorder: Recorder<E>, ghost effectOf: Entry -> E)
      ensures Valid() && entries == [] && text == "" && this.recorder == recorder && this.effectOf == effectOf
    {
      text, entries := "", [];
      this.recorder, this.effectOf := recorder, effectOf;
    }

    method Print(e: Entry)
      requires Valid()
      modifies this, recorder
      ensures Valid() && entries == old(entries) + [e]
      ensures text == old(text) + Line(e) + "\n"
      ensures recorder.effects == old(recorder.effects) + Printing([e])
    {
      UnlinesAppend(Lines(entries), Line(e));
      assert Lines(entries + [e]) == Lines(entries) + [Line(e)];
      text := text + Line(e) + "\n";
      entries := entries + [e];
      recorder.Record(effectOf(e));
    }

    /** `Operation::begin`: an audited call is announced before it runs. */
    method Begin(service: string, call: Call, caller: Caller, cache: NameCache, lookup: Lookup, now: int)
      returns (op: Operation)
      requires Valid()
      modifies this, recorder, cache
      ensures Valid()
      ensures op == Operation(service, Announced(service, call, old(cache.names), caller, lookup), now)
      ensures entries == old(entries) + BeginEntries(op)
      ensures recorder.effects == old(recorder.effects) + Printing(BeginEntries(op))
      ensures call.authorization.Unprivileged? ==>
                op.tag.None? && entries == old(entries) && cache.names == old(cache.names)
      ensures call.authorization.Policy? ==>
                && op.tag.Some? && entries == old(entries) + [Begun(service, op.tag.value)]
                && exists shown :: op.tag.value == Describe(call, call.authorization.action, shown)
                                   && (caller.Peer? ==> NamesPeer(shown, caller, old(cache.names), lookup, cache.names))
      ensures cache.names == NamesAfterBegin(call, old(cache.names), caller, lookup)
    {
      match call.authorization {
        case Unprivileged =>
          op := Operation(service, None, now);
        case Policy(action) =>
          var shown := Display(caller, cache, lookup);
          var tag := Describe(call, action, shown);
          Print(Begun(service, tag));
          op := Operation(service, Some(tag), now);
      }
    }

    /** `Operation::finish`: the same text, with the outcome. */
    method Finish(op: Operation, failure: Option<string>, now: int)
      requires Valid()
      modifies this, recorder
      ensures Valid() && entries == old(entries) + FinishEntries(op, failure, now)
      ensures recorder.effects == old(recorder.effects) + Printing(FinishEntries(op, failure, now))
      ensures op.tag.None? ==> entries == old(entries)
      ensures op.tag.Some? ==>
                && |entries| == |old(entries)| + 1 && entries[..|old(entries)|] == old(entries)
                && Reports(entries[|old(entries)|], op, failure, now)
    {
      if op.tag.Some? {
        Print(Outcome(op, failure, now));
      }
    }
  }

  // ---------------------------------------------------------------------
  // Many operations on one journal
  // ---------------------------------------------------------------------

  /** `finish` consumes its operation, so an operation is open, closed once, or dropped unfinished. */
  datatype Status =
    | Open(op: Operation)
    | Closed(op: Operation, failure: Option<string>, now: int)
    | Abandoned(op: Operation)

  datatype Posted = Posted(id: nat, entry: Entry)

  /** Operations are numbered in the order they began. */
  datatype AuditState = AuditState(ops: seq<Status>, posted: seq<Posted>, names: Names)

  datatype Event =
    | Begin(service: string, call: Call, caller: Caller, lookup: Lookup, now: int)
    | Finish(id: nat, failure: Option<string>, now: int)
    | Abandon(id: nat)
    | NameLookup(caller: Caller, lookup: Lookup)

  function OperationOf(s: AuditState, ev: Event): Operation
    requires ev.Begin?
  {
    Operation(ev.service, Announced(ev.service, ev.call, s.names, ev.caller, ev.lookup), ev.now)
  }

  /** Only an open operation can be finished or dropped: both take it by value. */
  predicate IsOpen(s: AuditState, id: nat) { id < |s.ops| && s.ops[id].Open? }

  function OpsAfter(s: AuditState, ev: Event): seq<Status> {
    match ev
    case Begin(_, _, _, _, _) => s.ops + [Open(OperationOf(s, ev))]
    case Finish(id, failure, now) => if IsOpen(s, id) then s.ops[id := Closed(s.ops[id].op, failure, now)] else s.ops
    case Abandon(id) => if IsOpen(s, id) then s.ops[id := Abandoned(s.ops[id].op)] else s.ops
    case NameLookup(_, _) => s.ops
  }

  function Tagged(id: nat, entries: seq<Entry>): seq<Posted>
    requires |entries| <= 1
  {
    if entries == [] then [] else [Posted(id, entries[0])]
  }

  /** What the event writes, and for which operation. */
  function Added(s: AuditState, ev: Event): seq<Posted> {
    match ev
    case Begin(_, _, _, _, _) => Tagged(|s.ops|, BeginEntries(OperationOf(s, ev)))
    case Finish(id, failure, now) => if IsOpen(s, id) then Tagged(id, FinishEntries(s.ops[id].op, failure, now)) else []
    case Abandon(_) => []
    case NameLookup(_, _) => []
  }

  function NamesAfter(s: AuditState, ev: Event): Names {
    match ev
    case Begin(_, call, caller, lookup, _) => NamesAfterBegin(call, s.names, caller, lookup)
    case NameLookup(caller, lookup) => NameOf(s.names, caller, lookup).1
    case _ => s.names
  }

  /** One event, whichever operation it belongs to. */
  function Step(s: AuditState, ev: Event): AuditState {
    AuditState(OpsAfter(s, ev), s.posted + Added(s, ev), NamesAfter(s, ev))
  }

  function Exec(evs: seq<Event>): AuditState {
    if evs == [] then AuditState([], [], map[]) else Step(Exec(evs[..|evs| - 1]), evs[|evs| - 1])
  }

  function Entries(posted: seq<Posted>): (entries: seq<Entry>)
    ensures |entries| == |posted|
  {
    seq(|posted|, i requires 0 <= i < |posted| => posted[i].entry)
  }

  /** The entries one operation wrote, in order. */
  function EntriesOf(posted: seq<Posted>, id: nat): seq<Entry> {
    if posted == [] then []
    else
      var last := posted[|posted| - 1];
      EntriesOf(posted[..|posted| - 1], id) + (if last.id == id then [last.entry] else [])
  }

  /** What the journal must hold of an operation: nothing, its announcement, or that and its outcome. */
  function Account(st: Status): seq<Entry> {
    match st
    case Open(op) => BeginEntries(op)
    case Abandoned(op) => BeginEntries(op)
    case Closed(op, failure, now) => BeginEntries(op) + FinishEntries(op, failure, now)
  }

  lemma {:induction false} EntriesOfAppend(posted: seq<Posted>, more: seq<Posted>, id: nat)
    requires |more| <= 1
    ensures EntriesOf(posted + more, id) == EntriesOf(posted, id) + EntriesOf(more, id)
  {
    if more == [] {
      assert posted + more == posted;
    } else {
      assert (posted + more)[..|posted|] == posted;
      assert more[..0] == [];
    }
  }

  lemma EntriesOfTagged(k: nat, entries: seq<Entry>, id: nat)
    requires |entries| <= 1
    ensures EntriesOf(Tagged(k, entries), id) == (if k == id then entries else [])
  {
    if entries != [] {
      assert Tagged(k, entries)[..0] == [];
    }
  }

  function AccountAt(ops: seq<Status>, id: nat): seq<Entry> {
    if id < |ops| then Account(ops[id]) else []
  }

  ghost predicate Accounted(posted: seq<Posted>, ops: seq<Status>, id: nat) {
    EntriesOf(posted, id) == AccountAt(ops, id)
  }

  lemma OpeningAccount(ops: seq<Status>, op: Operation, id: nat)
    ensures AccountAt(ops + [Open(op)], id) == AccountAt(ops, id) + (if id == |ops| then BeginEntries(op) else [])
  {
  }

  lemma ClosingAccount(ops: seq<Status>, k: nat, failure: Option<string>, now: int, id: nat)
    requires k < |ops| && ops[k].Open?
    ensures AccountAt(ops[k := Closed(ops[k].op, failure, now)], id)
            == AccountAt(ops, id) + (if id == k then FinishEntries(ops[k].op, failure, now) else [])
  {
  }

  lemma {:induction false} OpeningKeepsAccount(posted: seq<Posted>, ops: seq<Status>, op: Operation, id: nat)
    requires Accounted(posted, ops, id)
    ensures Accounted(posted + Tagged(|ops|, BeginEntries(op)), ops + [Open(op)], id)
  {
    EntriesOfAppend(posted, Tagged(|ops|, BeginEntries(op)), id);
    EntriesOfTagged(|ops|, BeginEntries(op), id);
    OpeningAccount(ops, op, id);
  }

  lemma {:induction false} ClosingKeepsAccount(
    posted: seq<Posted>, ops: seq<Status>, k: nat, failure: Option<string>, now: int, id: nat)
    requires Accounted(posted, ops, id) && k < |ops| && ops[k].Open?
    ensures Accounted(posted + Tagged(k, FinishEntries(ops[k].op, failure, now)),
                      ops[k := Closed(ops[k].op, failure, now)], id)
  {
    EntriesOfAppend(posted, Tagged(k, FinishEntries(ops[k].op, failure, now)), id);
    EntriesOfTagged(k, FinishEntries(ops[k].op, failure, now), id);
    ClosingAccount(ops, k, failure, now, id);
  }

  lemma AbandoningKeepsAccount(posted: seq<Posted>, ops: seq<Status>, k: nat, id: nat)
    requires Accounted(posted, ops, id) && k < |ops| && ops[k].Open?
    ensures Accounted(posted, ops[k := Abandoned(ops[k].op)], id)
  {
  }

  lemma {:induction false} StepKeepsAccount(s: AuditState, ev: Event, id: nat)
    requires Accounted(s.posted, s.ops, id)
    ensures Accounted(Step(s, ev).posted, Step(s, ev).ops, id)
  {
    match ev
    case Begin(_, _, _, _, _) => OpeningKeepsAccount(s.posted, s.ops, OperationOf(s, ev), id);
    case Finish(k, failure, now) =>
      if IsOpen(s, k) {
        ClosingKeepsAccount(s.posted, s.ops, k, failure, now, id);
      } else {
        assert Step(s, ev).posted == s.posted;
      }
    case Abandon(k) =>
      assert Step(s, ev).posted == s.posted;
      if IsOpen(s, k) {
        AbandoningKeepsAccount(s.posted, s.ops, k, id);
      }
    case NameLookup(_, _) => assert Step(s, ev).posted == s.posted;
  }

  lemma {:induction false} ExecKeepsAccounts(evs: seq<Event>, id: nat)
    ensures Accounted(Exec(evs).posted, Exec(evs).ops, id)
  {
    if evs != [] {
      ExecKeepsAccounts(evs[..|evs| - 1], id);
      StepKeepsAccount(Exec(evs[..|evs| - 1]), evs[|evs| - 1], id);
    }
  }

  /**
   In every interleaving each operation has written exactly its account: an unprivileged one nothing; a
   gated one its announcement and, exactly when it has finished, one outcome - ok or failed as it was
   told - carrying the identical text, whatever the memo has learnt since.
   */
  lemma {:induction false} EveryOperationIsAccountedFor(evs: seq<Event>, id: nat)
    ensures var s := Exec(evs);
            var mine := EntriesOf(s.posted, id);
            if id >= |s.ops| || s.ops[id].op.tag.None? then mine == []
            else
              var st := s.ops[id];
              && |mine| == (if st.Closed? then 2 else 1)
              && mine[0] == Begun(st.op.service, st.op.tag.value)
              && (st.Closed? ==> Reports(mine[1], st.op, st.failure, st.now))
  {
    ExecKeepsAccounts(evs, id);
  }

  function Begins(posted: seq<Posted>): nat {
    if posted == [] then 0
    else Begins(posted[..|posted| - 1]) + (if posted[|posted| - 1].entry.Begun? then 1 else 0)
  }

  predicate IsOutcome(e: Entry) { e.Succeeded? || e.Failed? }

  function Outcomes(posted: seq<Posted>): nat {
    if posted == [] then 0
    else Outcomes(posted[..|posted| - 1]) + (if IsOutcome(posted[|posted| - 1].entry) then 1 else 0)
  }

  function Weight(st: Status): nat { if st.op.tag.Some? && !st.Closed? then 1 else 0 }

  /** Gated operations that have not finished. */
  function Outstanding(ops: seq<Status>): nat {
    if ops == [] then 0 else Outstanding(ops[..|ops| - 1]) + Weight(ops[|ops| - 1])
  }

  lemma {:induction false} OutstandingUpdate(ops: seq<Status>, id: nat, st: Status)
    requires id < |ops|
    ensures Outstanding(ops[id := st]) == Outstanding(ops) - Weight(ops[id]) + Weight(st)
  {
    var n := |ops| - 1;
    if id < n {
      OutstandingUpdate(ops[..n], id, st);
      assert ops[id := st][..n] == ops[..n][id := st];
    } else {
      assert ops[id := st][..n] == ops[..n];
    }
  }

  lemma {:induction false} CountsAppend(posted: seq<Posted>, more: seq<Posted>)
    requires |more| <= 1
    ensures Begins(posted + more) == Begins(posted) + Begins(more)
    ensures Outcomes(posted + more) == Outcomes(posted) + Outcomes(more)
  {
    if more == [] {
      assert posted + more == posted;
    } else {
      assert (posted + more)[..|posted|] == posted;
      assert more[..0] == [];
    }
  }

  lemma TaggedCounts(k: nat, op: Operation, failure: Option<string>, now: int)
    ensures Begins(Tagged(k, BeginEntries(op))) == Weight(Open(op)) && Outcomes(Tagged(k, BeginEntries(op))) == 0
    ensures Begins(Tagged(k, FinishEntries(op, failure, now))) == 0
    ensures Outcomes(Tagged(k, FinishEntries(op, failure, now))) == Weight(Open(op))
  {
    if op.tag.Some? {
      assert Tagged(k, BeginEntries(op))[..0] == [] && Tagged(k, FinishEntries(op, failure, now))[..0] == [];
    }
  }

  ghost predicate Balanced(posted: seq<Posted>, ops: seq<Status>) {
    Begins(posted) == Outcomes(posted) + Outstanding(ops)
  }

  lemma {:induction false} OpeningKeepsBalance(posted: seq<Posted>, ops: seq<Status>, op: Operation)
    requires Balanced(posted, ops)
    ensures Balanced(posted + Tagged(|ops|, BeginEntries(op)), ops + [Open(op)])
  {
    CountsAppend(posted, Tagged(|ops|, BeginEntries(op)));
    TaggedCounts(|ops|, op, None, 0);
    assert (ops + [Open(op)])[..|ops|] == ops;
  }

  lemma {:induction false} ClosingKeepsBalance(
    posted: seq<Posted>, ops: seq<Status>, k: nat, failure: Option<string>, now: int)
    requires Balanced(posted, ops) && k < |ops| && ops[k].Open?
    ensures Balanced(posted + Tagged(k, FinishEntries(ops[k].op, failure, now)),
                     ops[k := Closed(ops[k].op, failure, now)])
  {
    CountsAppend(posted, Tagged(k, FinishEntries(ops[k].op, failure, now)));
    TaggedCounts(k, ops[k].op, failure, now);
    OutstandingUpdate(ops, k, Closed(ops[k].op, failure, now));
  }

  lemma {:induction false} StepKeepsBalance(s: AuditState, ev: Event)
    requires Balanced(s.posted, s.ops)
    ensures Balanced(Step(s, ev).posted, Step(s, ev).ops)
  {
    match ev
    case Begin(_, _, _, _, _) => OpeningKeepsBalance(s.posted, s.ops, OperationOf(s, ev));
    case Finish(k, failure, now) =>
      if IsOpen(s, k) {
        ClosingKeepsBalance(s.posted, s.ops, k, failure, now);
      } else {
        assert Step(s, ev).posted == s.posted;
      }
    case Abandon(k) =>
      assert Step(s, ev).posted == s.posted;
      if IsOpen(s, k) {
        OutstandingUpdate(s.ops, k, Abandoned(s.ops[k].op));
      }
    case NameLookup(_, _) => assert Step(s, ev).posted == s.posted;
  }

  /** Conservation: begins exceed outcomes by exactly the gated operations still open or abandoned. */
  lemma {:induction false} BeginsMinusOutcomes(evs: seq<Event>)
    ensures Begins(Exec(evs).posted) == Outcomes(Exec(evs).posted) + Outstanding(Exec(evs).ops)
  {
    if evs != [] {
      BeginsMinusOutcomes(evs[..|evs| - 1]);
      StepKeepsBalance(Exec(evs[..|evs| - 1]), evs[|evs| - 1]);
    }
  }

  // ---------------------------------------------------------------------
  // No forged lines
  // ---------------------------------------------------------------------

  /** The strings the daemon's own contract supplies, and an unreadable caller's errno text, are one line each. */
  predicate WellSpoken(service: string, call: Call, caller: Caller) {
    && OneLine(service) && OneLine(call.noun) && OneLine(call.verb)
    && (call.authorization.Policy? ==> OneLine(call.authorization.action))
    && (caller.Unreadable? ==> OneLine(caller.reason))
  }

  predicate WellSpokenEvent(ev: Event) {
    match ev
    case Begin(service, call, caller, _, _) => WellSpoken(service, call, caller)
    case NameLookup(caller, _) => caller.Unreadable? ==> OneLine(caller.reason)
    case _ => true
  }

  predicate OperationIsLines(op: Operation) {
    OneLine(op.service) && (op.tag.Some? ==> OneLine(op.tag.value))
  }

  lemma {:induction false} AnnouncedHasOneLine(service: string, call: Call, names: Names, caller: Caller, lookup: Lookup)
    requires WellSpoken(service, call, caller) && NamesAreLines(names)
    ensures OperationIsLines(Operation(service, Announced(service, call, names, caller, lookup), 0))
    ensures NamesAreLines(NamesAfterBegin(call, names, caller, lookup))
  {
    ShownHasOneLine(names, caller, lookup);
  }

  lemma TimedHasOneLine(front: string, millis: string, back: string)
    requires OneLine(front) && OneLine(millis) && OneLine(back)
    ensures OneLine(front + " (" + millis + back)
  {
  }

  lemma {:induction false} SucceededHasOneLine(service: string, tag: string, millis: nat)
    requires OneLine(service) && OneLine(tag)
    ensures OneLine(Line(Succeeded(service, tag, millis)))
  {
    DecimalHasOneLine(millis);
    TimedHasOneLine(service + ": audit: ok " + tag, Decimal(millis), "ms)");
  }

  lemma {:induction false} FailedHasOneLine(service: string, tag: string, millis: nat, reason: string)
    requires OneLine(service) && OneLine(tag)
    ensures OneLine(Line(Failed(service, tag, millis, reason)))
  {
    DecimalHasOneLine(millis);
    TimedHasOneLine(service + ": audit: failed " + tag, Decimal(millis), "ms): ");
  }

  lemma {:induction false} OutcomeHasOneLine(op: Operation, failure: Option<string>, now: int)
    requires OperationIsLines(op) && op.tag.Some?
    ensures OneLine(Line(Begun(op.service, op.tag.value))) && OneLine(Line(Outcome(op, failure, now)))
  {
    match failure
    case None => SucceededHasOneLine(op.service, op.tag.value, Millis(op.started, now));
    case Some(reason) => FailedHasOneLine(op.service, op.tag.value, Millis(op.started, now), reason);
  }

  ghost predicate StateIsLines(s: AuditState) {
    && NamesAreLines(s.names)
    && (forall i :: 0 <= i < |s.ops| ==> OperationIsLines(s.ops[i].op))
    && (forall i :: 0 <= i < |s.posted| ==> OneLine(Line(s.posted[i].entry)))
  }

  lemma {:induction false} StepKeepsLines(s: AuditState, ev: Event)
    requires StateIsLines(s) && WellSpokenEvent(ev)
    ensures StateIsLines(Step(s, ev))
  {
    match ev
    case Begin(service, call, caller, lookup, now) =>
      AnnouncedHasOneLine(service, call, s.names, caller, lookup);
      if OperationOf(s, ev).tag.Some? {
        OutcomeHasOneLine(OperationOf(s, ev), None, now);
      }
    case Finish(id, failure, now) =>
      if IsOpen(s, id) && s.ops[id].op.tag.Some? {
        OutcomeHasOneLine(s.ops[id].op, failure, now);
      }
    case Abandon(_) =>
    case NameLookup(caller, lookup) => ShownHasOneLine(s.names, caller, lookup);
  }

  lemma {:induction false} RunKeepsLines(evs: seq<Event>)
    requires forall i :: 0 <= i < |evs| ==> WellSpokenEvent(evs[i])
    ensures StateIsLines(Exec(evs))
  {
    if evs != [] {
      RunKeepsLines(evs[..|evs| - 1]);
      StepKeepsLines(Exec(evs[..|evs| - 1]), evs[|evs| - 1]);
    }
  }

  /**
   No forged lines: for every account name NSS may supply and every failure text the daemon may report,
   cutting the stream at its newlines gives back exactly the lines the operations wrote.
   */
  lemma {:induction false} NoForgedLines(evs: seq<Event>)
    requires forall i :: 0 <= i < |evs| ==> WellSpokenEvent(evs[i])
    ensures var lines := Lines(Entries(Exec(evs).posted)); SplitLines(Unlines(lines)) == lines
  {
    RunKeepsLines(evs);
    LinesRecoverable(Lines(Entries(Exec(evs).posted)));
  }

  // ---------------------------------------------------------------------
  // Bounded lines
  // ---------------------------------------------------------------------

  lemma {:induction false} AuditLinesAreShort(service: string, call: Call, names: Names, caller: Caller, lookup: Lookup,
                                              started: int, failure: Option<string>, now: int)
    requires call.authorization.Policy? && NamesAreLines(names) && now - started <= 1000 * 18446744073709551615999
    ensures var op := Operation(service, Announced(service, call, names, caller, lookup), started);
            var contract := |service| + |call.noun| + |call.verb| + |call.authorization.action|;
            && |Line(Begun(service, op.tag.value))| <= contract + ShownLimit(caller) + 28
            && |Line(Outcome(op, failure, now))|
               <= contract + ShownLimit(caller) + 57 + (if failure.Some? then 2 + MAX_FAILURE_CHARS else 0)
  {
    ShownIsShort(names, caller, lookup);
    Pow10Ten();
    DecimalLength(Millis(started, now), 23);
  }

  // ---------------------------------------------------------------------
  // Lines that name their peer
  // ---------------------------------------------------------------------

  /** Take a timing such as " (12ms)" off the end. */
  function TimingOff(s: string): Option<(string, nat)> {
    match Off(s, "ms)")
    case None => None
    case Some(inner) => LabelledOff(inner, " (")
  }

  lemma {:induction false} TimingOffIs(p: string, millis: nat)
    ensures TimingOff(p + " (" + Decimal(millis) + "ms)") == Some((p, millis))
  {
    OffIs(p + " (" + Decimal(millis), "ms)");
    LabelledOffIs(p, " (", millis);
  }

  /**
   From the line that announced an operation, and from the line that reports its success, the uid, gid
   and pid of the peer it was for can be read back, whatever the contract's strings and the account's
   name hold.
   */
  lemma {:induction false} LinesNameTheirPeer(service: string, call: Call, names: Names, peer: Caller, lookup: Lookup,
                                              millis: nat)
    requires call.authorization.Policy? && peer.Peer?
    ensures var tag := Announced(service, call, names, peer, lookup).value;
            && PeerNumbers(Line(Begun(service, tag))) == Some((peer.pid, peer.uid, peer.gid))
            && var timed := TimingOff(Line(Succeeded(service, tag, millis)));
               timed.Some? && timed.value.1 == millis && PeerNumbers(timed.value.0) == Some((peer.pid, peer.uid, peer.gid))
  {
    var tag := Announced(service, call, names, peer, lookup).value;
    var shown, front := Shown(names, peer, lookup), CallName(call) + " action=" + call.authorization.action + " by=";
    var name := NameOf(names, peer, lookup).0;
    var begun, done := service + ": audit: begin ", service + ": audit: ok ";
    assert begun + (front + shown) == begun + front + shown;
    assert done + (front + shown) == done + front + shown;
    NumbersAreRecoverable(begun + front, peer, name);
    NumbersAreRecoverable(done + front, peer, name);
    TimingOffIs(done + tag, millis);
  }
}
