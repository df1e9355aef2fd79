/** Who asked, as the journal writes it, and how to read it back from the right. */
module Callers {
  import opened Prelude
  import opened Text
  import opened Memo

  datatype Caller = Peer(pid: I32, uid: U32, gid: U32) | Unreadable(reason: string) | InProcess

  /** What `of_socket` can answer about a connection: never that there is none. */
  type SocketCaller = c: Caller | !c.InProcess? witness Unreadable("")

  function Ids(pid: int, uid: nat, gid: nat): string {
    "uid " + Decimal(uid) + " gid " + Decimal(gid) + " pid " + Signed(pid)
  }

  /** The rendering of a caller, given what the memo answered for its uid. */
  function Render(caller: Caller, name: Option<string>): string {
    match caller
    case Peer(pid, uid, gid) =>
      if name.Some? then name.value + "(" + Ids(pid, uid, gid) + ")" else Ids(pid, uid, gid)
    case Unreadable(reason) => "unreadable (" + reason + ")"
    case InProcess => "in-process"
  }

  /** What the memo answers for a caller, and what it then holds. Only a peer has a uid to ask about. */
  function NameOf(names: Names, caller: Caller, lookup: Lookup): (Option<string>, Names) {
    if caller.Peer? then Resolve(names, caller.uid, lookup) else (None, names)
  }

  /** The text is the peer under the name the memo now holds for its uid, if any; the memo is otherwise as it was. */
  ghost predicate NamesPeer(text: string, peer: Caller, before: Names, lookup: Lookup, after: Names)
    requires peer.Peer?
  {
    && text == Render(peer, if peer.uid in after then after[peer.uid] else None)
    && (peer.uid in before || lookup.Unavailable? ==> after == before)
    && (peer.uid !in before && lookup.Answered? ==>
          && peer.uid in after && after == before[peer.uid := after[peer.uid]]
          && NamesAccount(after[peer.uid], lookup.account))
  }

  function Shown(names: Names, caller: Caller, lookup: Lookup): string {
    Render(caller, NameOf(names, caller, lookup).0)
  }

  /** `Display for Caller`: the name comes through the memo. */
  method Display(caller: Caller, cache: NameCache, lookup: Lookup) returns (text: string)
    modifies cache
    ensures text == Shown(old(cache.names), caller, lookup)
    ensures cache.names == NameOf(old(cache.names), caller, lookup).1
    ensures caller.Unreadable? ==> text == "unreadable (" + caller.reason + ")" && cache.names == old(cache.names)
    ensures caller.InProcess? ==> text == "in-process" && cache.names == old(cache.names)
    ensures caller.Peer? ==> NamesPeer(text, caller, old(cache.names), lookup, cache.names)
  {
    var name := None;
    if caller.Peer? {
      name := cache.NameForUid(caller.uid, lookup);
    }
    text := Render(caller, name);
  }

  lemma SomeNumbers()
    ensures Decimal(1000) == "1000" && Decimal(100) == "100" && Decimal(1421) == "1421"
    ensures Decimal(0) == "0" && Decimal(10) == "10" && Decimal(7) == "7"
  {
    DecimalGrows(1, 0);
    DecimalGrows(10, 0);
    DecimalGrows(100, 0);
    DecimalGrows(1, 4);
    DecimalGrows(14, 2);
    DecimalGrows(142, 1);
  }

  lemma IdsAsDocumented()
    ensures Ids(1421, 1000, 100) == "uid 1000 gid 100 pid 1421"
    ensures Ids(-7, 0, 10) == "uid 0 gid 10 pid -7"
  {
    SomeNumbers();
  }

  /** The shapes an operator greps for. */
  lemma {:induction false} CallersReadAsDocumented()
    ensures Render(Peer(1421, 1000, 100), None) == "uid 1000 gid 100 pid 1421"
    ensures Render(Peer(-7, 0, 10), Some("root")) == "root(uid 0 gid 10 pid -7)"
    ensures Render(Unreadable("bad"), None) == "unreadable (bad)"
    ensures Render(InProcess, None) == "in-process"
  {
    IdsAsDocumented();
  }

  // ---------------------------------------------------------------------
  // Reading from the right
  // ---------------------------------------------------------------------

  function TrailingDigits(s: string): (k: nat)
    ensures k <= |s| && AllDigits(s[|s| - k..])
  {
    if s == "" || !IsDigit(s[|s| - 1]) then 0 else 1 + TrailingDigits(s[..|s| - 1])
  }

  /** Take a number off the end. */
  function NumberOff(s: string): Option<(string, nat)> {
    var k := TrailingDigits(s);
    if k == 0 then None else Some((s[..|s| - k], Number(s[|s| - k..])))
  }

  function WithSign(rest: string, n: int): (string, int) {
    if rest != "" && rest[|rest| - 1] == '-' then (rest[..|rest| - 1], -n) else (rest, n)
  }

  function SignedOff(s: string): Option<(string, int)> {
    match NumberOff(s)
    case None => None
    case Some((rest, n)) =>
      Some(WithSign(rest, n))
  }

  function Off(s: string, suffix: string): Option<string> {
    if |suffix| <= |s| && s[|s| - |suffix|..] == suffix then Some(s[..|s| - |suffix|]) else None
  }

  function LabelledOff(s: string, tag: string): Option<(string, nat)> {
    match NumberOff(s)
    case None => None
    case Some((rest, n)) =>
      match Off(rest, tag)
      case None => None
      case Some(before) => Some((before, n))
  }

  datatype Numbers = Numbers(rest: string, pid: int, uid: nat, gid: nat)

  function IdsOff(s: string): Option<Numbers> {
    match SignedOff(s)
    case None => None
    case Some((a, pid)) =>
      match Off(a, " pid ")
      case None => None
      case Some(b) =>
        match LabelledOff(b, " gid ")
        case None => None
        case Some((c, gid)) =>
          match LabelledOff(c, "uid ")
          case None => None
          case Some((rest, uid)) => Some(Numbers(rest, pid, uid, gid))
  }

  datatype PeerText = PeerText(pid: int, uid: nat, gid: nat, name: Option<string>)

  /** Read a rendered peer from its last character to its first. */
  function ParsePeer(s: string): Option<PeerText> {
    match Off(s, ")")
    case Some(inner) =>
      (match IdsOff(inner)
       case None => None
       case Some(ids) =>
         match Off(ids.rest, "(")
         case None => None
         case Some(name) => Some(PeerText(ids.pid, ids.uid, ids.gid, Some(name))))
    case None =>
      match IdsOff(s)
      case None => None
      case Some(ids) => if ids.rest == "" then Some(PeerText(ids.pid, ids.uid, ids.gid, None)) else None
  }

  lemma {:induction false} TrailingDigitsIs(p: string, d: string)
    requires AllDigits(d) && (p == "" || !IsDigit(p[|p| - 1]))
    ensures TrailingDigits(p + d) == |d|
  {
    if d == "" {
      assert p + d == p;
    } else {
      TrailingDigitsIs(p, d[..|d| - 1]);
      assert (p + d)[..|p + d| - 1] == p + d[..|d| - 1];
    }
  }

  lemma {:induction false} NumberOffIs(p: string, n: nat)
    requires p == "" || !IsDigit(p[|p| - 1])
    ensures NumberOff(p + Decimal(n)) == Some((p, n))
  {
    var s := p + Decimal(n);
    TrailingDigitsIs(p, Decimal(n));
    NumberOfDecimal(n);
    assert s[..|s| - |Decimal(n)|] == p && s[|s| - |Decimal(n)|..] == Decimal(n);
  }

  lemma SignedOffFrom(s: string, rest: string, n: nat)
    requires NumberOff(s) == Some((rest, n))
    ensures SignedOff(s) == Some(WithSign(rest, n))
  {
  }

  lemma {:induction false} NegativeOffIs(p: string, n: int)
    requires n >= 0
    ensures SignedOff(p + "-" + Decimal(n)) == Some((p, -n))
  {
    var q := p + "-";
    NumberOffIs(q, n);
    SignedOffFrom(q + Decimal(n), q, n);
    assert q[..|q| - 1] == p;
  }

  lemma NegativeText(p: string, n: nat)
    ensures p + ("-" + Decimal(n)) == p + "-" + Decimal(n)
  {
  }

  lemma {:induction false} SignedOffIs(p: string, i: int)
    requires p != "" && !IsDigit(p[|p| - 1]) && p[|p| - 1] != '-'
    ensures SignedOff(p + Signed(i)) == Some((p, i))
  {
    if i < 0 {
      NegativeOffIs(p, -i);
      NegativeText(p, -i);
    } else {
      NumberOffIs(p, i);
      SignedOffFrom(p + Decimal(i), p, i);
    }
  }

  lemma {:induction false} OffIs(p: string, suffix: string)
    ensures Off(p + suffix, suffix) == Some(p)
  {
    var s := p + suffix;
    assert s[|s| - |suffix|..] == suffix && s[..|s| - |suffix|] == p;
  }

  lemma {:induction false} LabelledOffIs(p: string, tag: string, n: nat)
    requires tag != "" && !IsDigit(tag[|tag| - 1])
    ensures LabelledOff(p + tag + Decimal(n), tag) == Some((p, n))
  {
    NumberOffIs(p + tag, n);
    OffIs(p, tag);
  }

  lemma IdsFolded(rest: string, uid: string, gid: string, pid: string)
    ensures rest + ("uid " + uid + " gid " + gid + " pid " + pid) == rest + "uid " + uid + " gid " + gid + " pid " + pid
  {
  }

  lemma IdsText(rest: string, pid: int, uid: nat, gid: nat)
    ensures rest + Ids(pid, uid, gid)
            == rest + "uid " + Decimal(uid) + " gid " + Decimal(gid) + " pid " + Signed(pid)
  {
    IdsFolded(rest, Decimal(uid), Decimal(gid), Signed(pid));
  }

  lemma {:induction false} IdsOffIs(rest: string, pid: int, uid: nat, gid: nat)
    ensures IdsOff(rest + Ids(pid, uid, gid)) == Some(Numbers(rest, pid, uid, gid))
  {
    var c := rest + "uid " + Decimal(uid);
    var b := c + " gid " + Decimal(gid);
    IdsText(rest, pid, uid, gid);
    SignedOffIs(b + " pid ", pid);
    OffIs(b, " pid ");
    LabelledOffIs(c, " gid ", gid);
    LabelledOffIs(rest, "uid ", uid);
  }

  lemma {:induction false} IdsEndInADigit(pid: int, uid: nat, gid: nat)
    ensures var s := Ids(pid, uid, gid); s != "" && IsDigit(s[|s| - 1])
  {
    var s := Ids(pid, uid, gid);
    var d := Decimal(if pid < 0 then -pid else pid);
    assert s[|s| - 1] == d[|d| - 1];
  }

  lemma {:induction false} NamedPeerParses(name: string, pid: int, uid: nat, gid: nat)
    ensures ParsePeer(name + "(" + Ids(pid, uid, gid) + ")") == Some(PeerText(pid, uid, gid, Some(name)))
  {
    OffIs(name + "(" + Ids(pid, uid, gid), ")");
    IdsOffIs(name + "(", pid, uid, gid);
    OffIs(name, "(");
  }

  lemma {:induction false} UnnamedPeerParses(pid: int, uid: nat, gid: nat)
    ensures ParsePeer(Ids(pid, uid, gid)) == Some(PeerText(pid, uid, gid, None))
  {
    var ids := Ids(pid, uid, gid);
    IdsEndInADigit(pid, uid, gid);
    assert Off(ids, ")").None?;
    IdsOffIs("", pid, uid, gid);
    assert "" + ids == ids;
  }

  /** Whatever characters the name holds, the right-to-left reader gives back every part of a rendered peer. */
  lemma {:induction false} PeerIsRecoverable(peer: Caller, name: Option<string>)
    requires peer.Peer?
    ensures ParsePeer(Render(peer, name)) == Some(PeerText(peer.pid, peer.uid, peer.gid, name))
  {
    if name.Some? {
      NamedPeerParses(name.value, peer.pid, peer.uid, peer.gid);
    } else {
      UnnamedPeerParses(peer.pid, peer.uid, peer.gid);
    }
  }

  /** Two peers that render alike are the same peer under the same name. */
  lemma {:induction false} PeersRenderApart(a: Caller, b: Caller, aName: Option<string>, bName: Option<string>)
    requires a.Peer? && b.Peer? && Render(a, aName) == Render(b, bName)
    ensures a == b && aName == bName
  {
    PeerIsRecoverable(a, aName);
    PeerIsRecoverable(b, bName);
  }

  // ---------------------------------------------------------------------
  // Callers that only read as peers
  // ---------------------------------------------------------------------

  /** The reason is a peer's numbers, alone or after an opening parenthesis. */
  predicate EndsAs(reason: string, ids: string) {
    reason == ids || (|reason| > |ids| && reason[|reason| - |ids| - 1..] == "(" + ids)
  }

  /** The numbers are within a peer's range and written as `Display` writes them, alone or after a parenthesis. */
  predicate WritesPeer(reason: string, n: Numbers) {
    && -0x8000_0000 <= n.pid <= 0x7FFF_FFFF && n.uid <= U32_MAX && n.gid <= U32_MAX
    && reason == n.rest + Ids(n.pid, n.uid, n.gid)
    && (n.rest == "" || n.rest[|n.rest| - 1] == '(')
  }

  /** The reason, read from the right, is some peer's numbers. */
  predicate ReadsAsPeer(reason: string) {
    IdsOff(reason).Some? && WritesPeer(reason, IdsOff(reason).value)
  }

  lemma {:induction false} DecimalHasNoParenthesis(n: nat)
    ensures '(' !in Decimal(n)
  {
    assert forall i :: 0 <= i < |Decimal(n)| ==> IsDigit(Decimal(n)[i]);
  }

  lemma {:induction false} IdsHaveNoParenthesis(pid: int, uid: nat, gid: nat)
    ensures '(' !in Ids(pid, uid, gid)
  {
    DecimalHasNoParenthesis(uid);
    DecimalHasNoParenthesis(gid);
    DecimalHasNoParenthesis(if pid < 0 then -pid else pid);
  }

  lemma {:induction false} NameReachesTheParenthesis(name: string, ids: string, reason: string)
    requires '(' !in ids && name + "(" + ids == "unreadable (" + reason
    ensures |name| >= 11 && EndsAs(reason, ids)
  {
    var s, k := name + "(" + ids, |name|;
    assert s == "unreadable (" + reason;
    assert s[11] == '(';
    assert forall i :: k < i < |s| ==> s[i] == ids[i - k - 1];
    assert k >= 11;
    assert reason == s[12..];
    if k == 11 {
      assert reason == ids;
    } else {
      assert reason == name[12..] + ("(" + ids);
    }
  }

  lemma AfterAParenthesis(front: string, ids: string)
    ensures "unreadable (" + (front + "(" + ids) + ")" == ("unreadable (" + front) + "(" + ids + ")"
  {
  }

  /** The two failing families: a peer's numbers after any text and a parenthesis, and a peer's numbers alone. */
  lemma {:induction false} UnreadableCanReadAsAPeer(peer: Caller, front: string)
    requires peer.Peer?
    ensures var ids := Ids(peer.pid, peer.uid, peer.gid);
            && Render(Unreadable(front + "(" + ids), None) == Render(peer, Some("unreadable (" + front))
            && Render(Unreadable(ids), None) == Render(peer, Some("unreadable "))
  {
    AfterAParenthesis(front, Ids(peer.pid, peer.uid, peer.gid));
  }

  lemma {:induction false} ReadAsThisPeerEnds(reason: string, peer: Caller, name: Option<string>)
    requires peer.Peer? && Render(peer, name) == Render(Unreadable(reason), None)
    ensures EndsAs(reason, Ids(peer.pid, peer.uid, peer.gid))
  {
    var ids, t := Ids(peer.pid, peer.uid, peer.gid), Render(Unreadable(reason), None);
    IdsEndInADigit(peer.pid, peer.uid, peer.gid);
    assert t[|t| - 1] == ')';
    assert name.Some?;
    OffIs(name.value + "(" + ids, ")");
    OffIs("unreadable (" + reason, ")");
    IdsHaveNoParenthesis(peer.pid, peer.uid, peer.gid);
    NameReachesTheParenthesis(name.value, ids, reason);
  }

  lemma {:induction false} FrontOf(reason: string, ids: string) returns (front: string)
    requires EndsAs(reason, ids) && reason != ids
    ensures reason == front + "(" + ids
  {
    front := reason[..|reason| - |ids| - 1];
    assert reason == front + ("(" + ids) == front + "(" + ids;
  }

  lemma {:induction false} EndingReadsAsThisPeer(reason: string, peer: Caller) returns (name: Option<string>)
    requires peer.Peer? && EndsAs(reason, Ids(peer.pid, peer.uid, peer.gid))
    ensures Render(peer, name) == Render(Unreadable(reason), None)
  {
    if reason == Ids(peer.pid, peer.uid, peer.gid) {
      UnreadableCanReadAsAPeer(peer, "");
      name := Some("unreadable ");
    } else {
      var front := FrontOf(reason, Ids(peer.pid, peer.uid, peer.gid));
      UnreadableCanReadAsAPeer(peer, front);
      name := Some("unreadable (" + front);
    }
  }

  /** An unreadable caller reads as a given peer, under some name, exactly when its reason ends as that peer's numbers. */
  lemma {:induction false} UnreadableReadsAsThisPeerExactly(reason: string, peer: Caller)
    requires peer.Peer?
    ensures (exists name :: Render(peer, name) == Render(Unreadable(reason), None))
            <==> EndsAs(reason, Ids(peer.pid, peer.uid, peer.gid))
  {
    if name :| Render(peer, name) == Render(Unreadable(reason), None) {
      ReadAsThisPeerEnds(reason, peer, name);
    } else if EndsAs(reason, Ids(peer.pid, peer.uid, peer.gid)) {
      var name := EndingReadsAsThisPeer(reason, peer);
    }
  }

  lemma {:induction false} NumbersRead(rest: string, pid: I32, uid: U32, gid: U32)
    requires rest == "" || rest[|rest| - 1] == '('
    ensures ReadsAsPeer(rest + Ids(pid, uid, gid))
  {
    IdsOffIs(rest, pid, uid, gid);
  }

  lemma {:induction false} EndingIsReading(reason: string, peer: Caller)
    requires peer.Peer? && EndsAs(reason, Ids(peer.pid, peer.uid, peer.gid))
    ensures ReadsAsPeer(reason)
  {
    var ids := Ids(peer.pid, peer.uid, peer.gid);
    if reason == ids {
      assert "" + ids == reason;
      NumbersRead("", peer.pid, peer.uid, peer.gid);
    } else {
      var front := FrontOf(reason, ids);
      NumbersRead(front + "(", peer.pid, peer.uid, peer.gid);
    }
  }

  lemma {:induction false} SuffixIsEnding(rest: string, ids: string)
    requires rest == "" || rest[|rest| - 1] == '('
    ensures EndsAs(rest + ids, ids)
  {
    var reason := rest + ids;
    if rest == "" {
      assert reason == ids;
    } else {
      assert reason[|reason| - |ids| - 1..] == "(" + ids;
    }
  }

  lemma WritingIsEnding(reason: string, n: Numbers) returns (peer: Caller)
    requires WritesPeer(reason, n)
    ensures peer.Peer? && EndsAs(reason, Ids(peer.pid, peer.uid, peer.gid))
  {
    peer := Peer(n.pid, n.uid, n.gid);
    SuffixIsEnding(n.rest, Ids(n.pid, n.uid, n.gid));
  }

  lemma {:induction false} PeerEndsInADigitOrAParenthesis(peer: Caller, name: Option<string>)
    requires peer.Peer?
    ensures var s := Render(peer, name); s != "" && (IsDigit(s[|s| - 1]) || s[|s| - 1] == ')')
  {
    IdsEndInADigit(peer.pid, peer.uid, peer.gid);
  }

  lemma {:induction false} ReadAsAPeerReads(other: Caller, peer: Caller, name: Option<string>)
    requires !other.Peer? && peer.Peer? && Render(peer, name) == Render(other, None)
    ensures other.Unreadable? && ReadsAsPeer(other.reason)
  {
    PeerEndsInADigitOrAParenthesis(peer, name);
    assert other.Unreadable?;
    UnreadableReadsAsThisPeerExactly(other.reason, peer);
    EndingIsReading(other.reason, peer);
  }

  /**
   Of the callers that are no peer, exactly the unreadable ones whose reason reads as a peer's numbers
   render as some peer under some name. An in-process caller never does.
   */
  lemma {:induction false} OtherCallersReadAsPeersExactly(other: Caller)
    requires !other.Peer?
    ensures (exists peer: Caller, name: Option<string> :: peer.Peer? && Render(peer, name) == Render(other, None))
            <==> other.Unreadable? && ReadsAsPeer(other.reason)
  {
    if peer: Caller, name: Option<string> :| peer.Peer? && Render(peer, name) == Render(other, None) {
      ReadAsAPeerReads(other, peer, name);
    } else if other.Unreadable? && ReadsAsPeer(other.reason) {
      var peer := WritingIsEnding(other.reason, IdsOff(other.reason).value);
      UnreadableReadsAsThisPeerExactly(other.reason, peer);
    }
  }

  // ---------------------------------------------------------------------
  // A peer at the end of a longer text
  // ---------------------------------------------------------------------

  /** The numbers of a rendered peer that ends the text, named or not. */
  function PeerNumbers(s: string): Option<(int, nat, nat)> {
    var inner := if Off(s, ")").Some? then Off(s, ")").value else s;
    match IdsOff(inner)
    case None => None
    case Some(n) => Some((n.pid, n.uid, n.gid))
  }

  lemma {:induction false} NumbersInParentheses(rest: string, pid: int, uid: nat, gid: nat)
    ensures PeerNumbers(rest + Ids(pid, uid, gid) + ")") == Some((pid, uid, gid))
  {
    OffIs(rest + Ids(pid, uid, gid), ")");
    IdsOffIs(rest, pid, uid, gid);
  }

  lemma {:induction false} NumbersAlone(rest: string, pid: int, uid: nat, gid: nat)
    ensures PeerNumbers(rest + Ids(pid, uid, gid)) == Some((pid, uid, gid))
  {
    var ids, s := Ids(pid, uid, gid), rest + Ids(pid, uid, gid);
    IdsEndInADigit(pid, uid, gid);
    assert s[|s| - 1] == ids[|ids| - 1];
    IdsOffIs(rest, pid, uid, gid);
  }

  lemma NameFolded(front: string, name: string, ids: string)
    ensures front + (name + "(" + ids + ")") == front + name + "(" + ids + ")"
  {
  }

  /** Whatever text a rendered peer ends, and whatever its name, the reader finds its numbers. */
  lemma {:induction false} NumbersAreRecoverable(front: string, peer: Caller, name: Option<string>)
    requires peer.Peer?
    ensures PeerNumbers(front + Render(peer, name)) == Some((peer.pid, peer.uid, peer.gid))
  {
    if name.Some? {
      var rest := front + name.value + "(";
      NumbersInParentheses(rest, peer.pid, peer.uid, peer.gid);
      NameFolded(front, name.value, Ids(peer.pid, peer.uid, peer.gid));
    } else {
      NumbersAlone(front, peer.pid, peer.uid, peer.gid);
    }
  }

  // ---------------------------------------------------------------------
  // One line, of bounded length
  // ---------------------------------------------------------------------

  lemma {:induction false} DecimalHasOneLine(n: nat)
    ensures OneLine(Decimal(n))
  {
    assert forall i :: 0 <= i < |Decimal(n)| ==> IsDigit(Decimal(n)[i]);
  }

  lemma {:induction false} IdsHaveOneLine(pid: int, uid: nat, gid: nat)
    ensures OneLine(Ids(pid, uid, gid))
  {
    DecimalHasOneLine(uid);
    DecimalHasOneLine(gid);
    DecimalHasOneLine(if pid < 0 then -pid else pid);
  }

  /** Every name the memo can hold is one line. */
  ghost predicate NamesAreLines(names: Names) {
    forall uid :: uid in names && names[uid].Some? ==>
      OneLine(names[uid].value) && |names[uid].value| <= MAX_CALLER_NAME_CHARS
  }

  /** A caller shown through the memo is one line, whatever NSS says the account is called. */
  lemma {:induction false} ShownHasOneLine(names: Names, caller: Caller, lookup: Lookup)
    requires NamesAreLines(names) && (caller.Unreadable? ==> OneLine(caller.reason))
    ensures OneLine(Shown(names, caller, lookup)) && NamesAreLines(NameOf(names, caller, lookup).1)
  {
    if caller.Peer? {
      IdsHaveOneLine(caller.pid, caller.uid, caller.gid);
    }
  }

  lemma {:induction false} IdsLength(peer: Caller)
    requires peer.Peer?
    ensures |Ids(peer.pid, peer.uid, peer.gid)| <= 45
  {
    Pow10Ten();
    DecimalLength(peer.uid, 10);
    DecimalLength(peer.gid, 10);
    var pid: int := peer.pid;
    DecimalLength(if pid < 0 then -pid else pid, 10);
  }

  /** How long a shown caller can be. */
  function ShownLimit(caller: Caller): nat {
    match caller
    case Peer(_, _, _) => 111
    case Unreadable(reason) => 13 + |reason|
    case InProcess => 10
  }

  lemma {:induction false} ShownIsShort(names: Names, caller: Caller, lookup: Lookup)
    requires NamesAreLines(names)
    ensures |Shown(names, caller, lookup)| <= ShownLimit(caller)
  {
    if caller.Peer? {
      IdsLength(caller);
    }
  }
}
