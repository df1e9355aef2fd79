/** The gate between a named call and the code that runs it. */
module Gate {
  import opened Prelude
  import opened Text
  import opened Callers
  import opened Audit

  datatype PeerGate = PeerGate(allowedUids: set<U32>, allowedGids: set<U32>, rejectUnreadable: bool)

  function ForUids(uids: set<U32>): PeerGate { PeerGate(uids, {}, true) }

  /** Allow the call, or refuse it with a reason. */
  function Authorize(gate: PeerGate, call: Call, caller: Caller): Result<(), string> {
    match caller
    case Peer(_, uid, gid) =>
      if uid in gate.allowedUids || gid in gate.allowedGids then Ok(())
      else Err("uid " + Decimal(uid) + " gid " + Decimal(gid) + " may not call " + CallName(call))
    case InProcess => Ok(())
    case Unreadable(reason) =>
      if gate.rejectUnreadable
      then Err("the caller could not be identified (" + reason + "), and this daemon "
               + "does not serve unidentified callers")
      else Ok(())
  }

  lemma UnidentifiedHasOneLine(reason: string)
    requires OneLine(reason)
    ensures OneLine("the caller could not be identified (" + reason
                    + "), and this daemon " + "does not serve unidentified callers")
  {
    assert OneLine("the caller could not be identified (");
    assert OneLine("), and this daemon ") && OneLine("does not serve unidentified callers");
  }

  lemma UnlistedHasOneLine(uid: U32, gid: U32, call: Call)
    requires OneLine(call.noun) && OneLine(call.verb)
    ensures OneLine("uid " + Decimal(uid) + " gid " + Decimal(gid) + " may not call " + CallName(call))
  {
    DecimalHasOneLine(uid);
    DecimalHasOneLine(gid);
  }

  /** A refusal is one line whenever the contract and the errno text are. */
  lemma {:induction false} RefusalHasOneLine(gate: PeerGate, call: Call, caller: Caller)
    requires OneLine(call.noun) && OneLine(call.verb) && (caller.Unreadable? ==> OneLine(caller.reason))
    ensures Authorize(gate, call, caller).Err? ==> OneLine(Authorize(gate, call, caller).error)
  {
    match caller
    case Peer(_, uid, gid) => UnlistedHasOneLine(uid, gid, call);
    case Unreadable(reason) => UnidentifiedHasOneLine(reason);
    case InProcess =>
  }

  /** A gate admits exactly the peers it lists, unreadable callers if told to, and the process itself always. */
  lemma AdmitsExactly(gate: PeerGate, call: Call, caller: Caller)
    ensures Authorize(gate, call, caller).Ok?
            <==> || (caller.Peer? && (caller.uid in gate.allowedUids || caller.gid in gate.allowedGids))
                 || (caller.Unreadable? && !gate.rejectUnreadable)
                 || caller.InProcess?
  {
  }

  datatype Grounds = UnlistedPeer(uid: nat, gid: nat) | Unidentified(reason: string) | Unstated

  /** What stands between `front` and `back`. */
  function Inside(text: string, front: string, back: string): Option<string> {
    if front <= text then Off(text[|front|..], back) else None
  }

  function ReadUnlisted(call: Call, text: string): Option<(nat, nat)> {
    match Off(text, " may not call " + call.noun + "." + call.verb)
    case None => None
    case Some(peer) =>
      match LabelledOff(peer, " gid ")
      case None => None
      case Some((front, gid)) =>
        match LabelledOff(front, "uid ")
        case None => None
        case Some((rest, uid)) => if rest == "" then Some((uid, gid)) else None
  }

  /** What a refusal of `call` says: whose uid and gid were not listed, or why the caller could not be read. */
  function ReadGrounds(call: Call, text: string): Grounds {
    match Inside(text, "the caller could not be identified (",
                 "), and this daemon " + "does not serve unidentified callers")
    case Some(reason) => Unidentified(reason)
    case None =>
      match ReadUnlisted(call, text)
      case Some((uid, gid)) => UnlistedPeer(uid, gid)
      case None => Unstated
  }

  lemma {:induction false} InsideIs(front: string, middle: string, back: string)
    ensures Inside(front + middle + back, front, back) == Some(middle)
  {
    var text := front + middle + back;
    assert text[..|front|] == front && text[|front|..] == middle + back;
    OffIs(middle, back);
  }

  lemma NotInside(text: string, front: string, back: string)
    requires text != "" && front != "" && text[0] != front[0]
    ensures Inside(text, front, back).None?
  {
  }

  lemma {:induction false} UnlistedNumbers(call: Call, uid: nat, gid: nat)
    ensures var text := "uid " + Decimal(uid) + " gid " + Decimal(gid) + (" may not call " + call.noun + "." + call.verb);
            ReadUnlisted(call, text) == Some((uid, gid))
  {
    var front := "uid " + Decimal(uid);
    OffIs(front + " gid " + Decimal(gid), " may not call " + call.noun + "." + call.verb);
    LabelledOffIs(front, " gid ", gid);
    LabelledOffIs("", "uid ", uid);
    assert "" + "uid " + Decimal(uid) == front;
  }

  lemma FoldedTail(front: string, word: string, noun: string, verb: string)
    ensures front + word + (noun + "." + verb) == front + (word + noun + "." + verb)
  {
  }

  lemma {:induction false} UnlistedIsRead(call: Call, uid: U32, gid: U32)
    ensures ReadGrounds(call, "uid " + Decimal(uid) + " gid " + Decimal(gid) + " may not call " + CallName(call))
            == UnlistedPeer(uid, gid)
  {
    var text := "uid " + Decimal(uid) + " gid " + Decimal(gid) + " may not call " + CallName(call);
    FoldedTail("uid " + Decimal(uid) + " gid " + Decimal(gid), " may not call ", call.noun, call.verb);
    assert text[0] == 'u';
    NotInside(text, "the caller could not be identified (",
              "), and this daemon " + "does not serve unidentified callers");
    UnlistedNumbers(call, uid, gid);
  }

  lemma {:induction false} UnidentifiedIsRead(call: Call, reason: string)
    ensures ReadGrounds(call, "the caller could not be identified (" + reason
                              + "), and this daemon " + "does not serve unidentified callers")
            == Unidentified(reason)
  {
    var front, middle, back :=
      "the caller could not be identified (", "), and this daemon ", "does not serve unidentified callers";
    InsideIs(front, reason, middle + back);
    assert front + reason + (middle + back) == front + reason + middle + back;
  }

  /** A refusal tells the uid and gid that were not listed, or why the caller could not be read. */
  lemma {:induction false} RefusalsStateTheirGrounds(gate: PeerGate, call: Call, caller: Caller)
    requires Authorize(gate, call, caller).Err?
    ensures var grounds := ReadGrounds(call, Authorize(gate, call, caller).error);
            && (caller.Peer? ==> grounds == UnlistedPeer(caller.uid, caller.gid))
            && (caller.Unreadable? ==> grounds == Unidentified(caller.reason))
            && !caller.InProcess?
  {
    match caller
    case Peer(_, uid, gid) => UnlistedIsRead(call, uid, gid);
    case Unreadable(reason) => UnidentifiedIsRead(call, reason);
    case InProcess =>
  }

  /** A gate built from uids admits exactly the peers it lists. */
  lemma {:induction false} UidGateAdmitsExactly(uids: set<U32>, call: Call, caller: SocketCaller)
    ensures Authorize(ForUids(uids), call, caller).Ok? <==> caller.Peer? && caller.uid in uids
  {
    AdmitsExactly(ForUids(uids), call, caller);
  }
}
