/** Reading the journal back: what each line says, found by the literal words an operator looks for. */
module JournalReader {
  import opened Prelude
  import opened Text
  import opened Memo
  import opened Callers
  import opened Audit
  import opened Gate

  /** What a line of a service says. */
  datatype Reading =
    | Announcement(tag: string)
    | Success(tag: string, millis: nat)
    | Failure(tag: string, millis: nat, reason: string)
    | Refusal(text: string)
    | Reply(shown: string)
    | AcceptFailure(reason: string)
    | Foreign

  function After(s: string, front: string): Option<string> {
    if front <= s then Some(s[|front|..]) else None
  }

  function LeadingDigits(s: string): (k: nat)
    ensures k <= |s| && AllDigits(s[..k])
    ensures k < |s| ==> !IsDigit(s[k])
  {
    if s == "" || !IsDigit(s[0]) then 0 else 1 + LeadingDigits(s[1..])
  }

  /** A timing such as " (12ms): " at the start of the text, and what follows it. */
  function TimingAt(s: string): Option<(nat, string)> {
    match After(s, " (")
    case None => None
    case Some(rest) =>
      var k := LeadingDigits(rest);
      if k == 0 then None
      else match After(rest[k..], "ms): ")
        case None => None
        case Some(reason) => Some((Number(rest[..k]), reason))
  }

  /** What stands before the first timing in the text, that timing, and what follows it. */
  function FirstTiming(s: string): Option<(string, nat, string)> {
    match TimingAt(s)
    case Some((millis, reason)) => Some(("", millis, reason))
    case None =>
      if s == "" then None
      else match FirstTiming(s[1..])
        case None => None
        case Some((front, millis, reason)) => Some(([s[0]] + front, millis, reason))
  }

  function ReadSuccess(text: string): Reading {
    match TimingOff(text)
    case None => Foreign
    case Some((tag, millis)) => Success(tag, millis)
  }

  function ReadFailure(text: string): Reading {
    match FirstTiming(text)
    case None => Foreign
    case Some((tag, millis, reason)) => Failure(tag, millis, reason)
  }

  /** Read a line of `service` by its first words. */
  function ReadEntry(service: string, line: string): Reading {
    match After(line, service + ": ")
    case None => Foreign
    case Some(body) =>
      if After(body, "audit: begin ").Some? then Announcement(After(body, "audit: begin ").value)
      else if After(body, "audit: ok ").Some? then ReadSuccess(After(body, "audit: ok ").value)
      else if After(body, "audit: failed ").Some? then ReadFailure(After(body, "audit: failed ").value)
      else if After(body, "refused ").Some? then Refusal(After(body, "refused ").value)
      else if After(body, "answered ").Some? then Reply(After(body, "answered ").value)
      else if After(body, "accept failed: ").Some? then AcceptFailure(After(body, "accept failed: ").value)
      else Foreign
  }

  lemma {:induction false} AfterIs(front: string, back: string)
    ensures After(front + back, front) == Some(back)
  {
    assert (front + back)[..|front|] == front && (front + back)[|front|..] == back;
  }

  lemma AfterOther(front: string, back: string, other: string, k: nat)
    requires k < |front| && k < |other| && front[k] != other[k]
    ensures After(front + back, other).None?
  {
    assert (front + back)[k] == front[k];
  }

  /** A line whose body starts with a word of the journal is read by that word. */
  lemma {:induction false} ReadByItsWord(service: string, word: string, rest: string)
    requires word in {"audit: begin ", "audit: ok ", "audit: failed ", "refused ", "answered ", "accept failed: "}
    ensures var r := ReadEntry(service, service + ": " + (word + rest));
            && (word == "audit: begin " ==> r == Announcement(rest))
            && (word == "audit: ok " ==> r == ReadSuccess(rest))
            && (word == "audit: failed " ==> r == ReadFailure(rest))
            && (word == "refused " ==> r == Refusal(rest))
            && (word == "answered " ==> r == Reply(rest))
            && (word == "accept failed: " ==> r == AcceptFailure(rest))
  {
    AfterIs(service + ": ", word + rest);
    AfterIs(word, rest);
    if word != "audit: begin " {
      AfterOther(word, rest, "audit: begin ", if word[1] != 'u' then 1 else 7);
      if word != "audit: ok " {
        AfterOther(word, rest, "audit: ok ", if word[1] != 'u' then 1 else 7);
        if word != "audit: failed " {
          AfterOther(word, rest, "audit: failed ", 1);
          if word != "refused " {
            AfterOther(word, rest, "refused ", 0);
            if word != "answered " {
              AfterOther(word, rest, "answered ", 1);
            }
          }
        }
      }
    }
  }

  // ---------------------------------------------------------------------
  // Outcomes
  // ---------------------------------------------------------------------

  lemma {:induction false} LeadingDigitsIs(digits: string, rest: string)
    requires AllDigits(digits) && (rest == "" || !IsDigit(rest[0]))
    ensures LeadingDigits(digits + rest) == |digits|
  {
    if digits == "" {
      assert digits + rest == rest;
    } else {
      LeadingDigitsIs(digits[1..], rest);
      assert (digits + rest)[1..] == digits[1..] + rest;
    }
  }

  lemma {:induction false} TimingAtIs(millis: nat, reason: string)
    ensures TimingAt(" (" + (Decimal(millis) + ("ms): " + reason))) == Some((millis, reason))
  {
    var rest := Decimal(millis) + ("ms): " + reason);
    AfterIs(" (", rest);
    LeadingDigitsIs(Decimal(millis), "ms): " + reason);
    assert rest[..|Decimal(millis)|] == Decimal(millis) && rest[|Decimal(millis)|..] == "ms): " + reason;
    NumberOfDecimal(millis);
    AfterIs("ms): ", reason);
  }

  /** The text starts with " (", `k` digits and "ms): ". */
  predicate TimingShape(s: string, k: nat) {
    && k > 0 && 7 + k <= |s| && s[0] == ' ' && s[1] == '('
    && (forall i :: 2 <= i < 2 + k ==> IsDigit(s[i]))
    && s[2 + k] == 'm' && s[3 + k] == 's' && s[4 + k] == ')' && s[5 + k] == ':' && s[6 + k] == ' '
  }

  lemma {:induction false} TimingHasShape(s: string) returns (k: nat)
    requires TimingAt(s).Some?
    ensures TimingShape(s, k)
  {
    var rest := s[2..];
    k := LeadingDigits(rest);
    assert s[..2] == " (" && rest[k..][..5] == "ms): ";
    assert forall i :: 2 <= i < 2 + k ==> s[i] == rest[..k][i - 2];
    var word := rest[k..][..5];
    assert word[0] == s[2 + k] && word[1] == s[3 + k] && word[2] == s[4 + k] && word[3] == s[5 + k] && word[4] == s[6 + k];
  }

  lemma {:induction false} ShapeIsTiming(s: string, k: nat)
    requires TimingShape(s, k)
    ensures TimingAt(s).Some?
  {
    var digits, tail := s[2..2 + k], s[2 + k..];
    assert s[..2] == " (" && s[2..] == digits + tail;
    assert forall i :: 0 <= i < k ==> digits[i] == s[i + 2];
    assert tail[0] == 'm';
    LeadingDigitsIs(digits, tail);
    assert s[2..][k..] == tail;
    assert tail[..5] == ['m', 's', ')', ':', ' '];
  }

  /** Only the first `n` characters matter for a timing at the start, if the last of them is a space. */
  lemma {:induction false} TimingAtPrefix(a: string, b: string, n: nat)
    requires 2 <= n <= |a| && n <= |b| && a[n - 1] == ' ' && forall i :: 0 <= i < n ==> a[i] == b[i]
    requires TimingAt(a).Some?
    ensures TimingAt(b).Some?
  {
    var k := TimingHasShape(a);
    assert n - 1 != 1 && !(2 <= n - 1 < 2 + k) && !(2 + k <= n - 1 < 6 + k);
    assert forall i :: 0 <= i < 7 + k ==> a[i] == b[i];
    assert TimingShape(b, k);
    ShapeIsTiming(b, k);
  }

  /** The tag of a failure line holds a timing of its own: the first timing of the line is not the outcome's. */
  predicate Timed(tag: string) { FirstTiming(tag + " ").Some? }

  lemma {:induction false} NoTimingInASpace()
    ensures FirstTiming(" ").None?
  {
    assert After(" ", " (").None?;
    assert " "[1..] == "";
  }

  lemma {:induction false} FirstTimingStep(tag: string, text: string, spaced: string, millis: nat, reason: string)
    requires tag != "" && text != "" && spaced != "" && text[0] == tag[0]
    requires TimingAt(text).Some? <==> TimingAt(spaced).Some?
    requires FirstTiming(text[1..]).Some?
    requires FirstTiming(text[1..]) == Some((tag[1..], millis, reason)) <==> FirstTiming(spaced[1..]).None?
    ensures FirstTiming(text).Some?
    ensures FirstTiming(text) == Some((tag, millis, reason)) <==> FirstTiming(spaced).None?
  {
    if TimingAt(text).None? {
      var front := FirstTiming(text[1..]).value.0;
      assert tag == [tag[0]] + tag[1..];
      assert ([text[0]] + front)[1..] == front;
    }
  }

  lemma {:induction false} SameTimingAtTheStart(tag: string, tail: string)
    requires tag != "" && tail != "" && tail[0] == ' '
    ensures TimingAt(tag + tail).Some? <==> TimingAt(tag + " ").Some?
  {
    var text, spaced := tag + tail, tag + " ";
    assert forall i :: 0 <= i < |tag| + 1 ==> text[i] == spaced[i];
    if TimingAt(text).Some? {
      TimingAtPrefix(text, spaced, |tag| + 1);
    }
    if TimingAt(spaced).Some? {
      TimingAtPrefix(spaced, text, |tag| + 1);
    }
  }

  lemma {:induction false} FirstTimingBefore(tag: string, tail: string, millis: nat, reason: string)
    requires tail != "" && tail[0] == ' ' && TimingAt(tail) == Some((millis, reason))
    ensures FirstTiming(tag + tail).Some?
    ensures FirstTiming(tag + tail) == Some((tag, millis, reason)) <==> !Timed(tag)
  {
    if tag == "" {
      assert tag + tail == tail && tag + " " == " ";
      NoTimingInASpace();
    } else {
      FirstTimingBefore(tag[1..], tail, millis, reason);
      assert (tag + tail)[1..] == tag[1..] + tail && (tag + " ")[1..] == tag[1..] + " ";
      SameTimingAtTheStart(tag, tail);
      FirstTimingStep(tag, tag + tail, tag + " ", millis, reason);
    }
  }

  lemma {:induction false} FirstTimingExactly(tag: string, millis: nat, reason: string)
    ensures var text := tag + (" (" + (Decimal(millis) + ("ms): " + reason)));
            && FirstTiming(text).Some?
            && (FirstTiming(text) == Some((tag, millis, reason)) <==> !Timed(tag))
  {
    TimingAtIs(millis, reason);
    FirstTimingBefore(tag, " (" + (Decimal(millis) + ("ms): " + reason)), millis, reason);
  }

  /** `kept` is the first 256 characters of the failure with spaces for line breaks. */
  predicate Keeps(kept: string, reason: string) {
    && |kept| == (if |reason| <= 256 then |reason| else 256)
    && forall i :: 0 <= i < |kept| ==>
         kept[i] == (if reason[i] == '\n' || reason[i] == '\r' then ' ' else reason[i])
  }

  datatype Ending = Ended(ok: bool, millis: nat, reason: string)

  /** How the operation announced as `tag` ended, if this line of the service reports it. */
  function OutcomeOf(service: string, tag: string, line: string): Option<Ending> {
    match After(line, service + ": audit: ok " + tag)
    case Some(timing) =>
      (match TimingOff(timing)
       case Some(("", millis)) => Some(Ended(true, millis, ""))
       case _ => None)
    case None =>
      match After(line, service + ": audit: failed " + tag)
      case None => None
      case Some(timed) =>
        match TimingAt(timed)
        case Some((millis, reason)) => Some(Ended(false, millis, reason))
        case None => None
  }

  lemma Words()
    ensures ": " + "audit: begin " == ": audit: begin " && ": " + "answered " == ": answered "
    ensures ": " + "accept failed: " == ": accept failed: "
  {
    var a, b := ": " + "accept failed: ", ": accept failed: ";
    assert a[..9] == b[..9] && a[9..] == b[9..];
    assert a == a[..9] + a[9..] && b == b[..9] + b[9..];
  }

  lemma Folded(service: string, colon: string, word: string, rest: string)
    ensures service + colon + (word + rest) == service + (colon + word) + rest
  {
  }

  lemma {:induction false} BegunReads(service: string, tag: string)
    ensures ReadEntry(service, Line(Begun(service, tag))) == Announcement(tag)
  {
    ReadByItsWord(service, "audit: begin ", tag);
    Folded(service, ": ", "audit: begin ", tag);
    Words();
  }

  lemma SucceededText(service: string, tag: string, millis: string)
    ensures service + ": " + ("audit: ok " + (tag + " (" + millis + "ms)"))
            == service + ": audit: ok " + tag + " (" + millis + "ms)"
    ensures service + ": audit: ok " + tag + " (" + millis + "ms)"
            == service + ": audit: ok " + tag + (" (" + millis + "ms)")
  {
  }

  lemma {:induction false} SucceededReads(service: string, tag: string, millis: nat)
    ensures ReadEntry(service, Line(Succeeded(service, tag, millis))) == Success(tag, millis)
  {
    var rest := tag + " (" + Decimal(millis) + "ms)";
    ReadByItsWord(service, "audit: ok ", rest);
    TimingOffIs(tag, millis);
    SucceededText(service, tag, Decimal(millis));
  }

  lemma FailedText(service: string, tag: string, millis: string, reason: string)
    ensures service + ": " + ("audit: failed " + (tag + (" (" + (millis + ("ms): " + reason)))))
            == service + ": audit: failed " + tag + " (" + millis + "ms): " + reason
    ensures service + ": audit: failed " + tag + " (" + millis + "ms): " + reason
            == service + ": audit: failed " + tag + (" (" + (millis + ("ms): " + reason)))
  {
  }

  lemma KeptIsUnique(reason: string)
    ensures forall kept :: Keeps(kept, reason) <==> kept == Bounded(reason, MAX_FAILURE_CHARS)
  {
  }

  /** A failure line reads as a failure, and gives back its operation exactly when the tag holds no timing of its own. */
  lemma {:induction false} FailedReadsExactly(service: string, tag: string, millis: nat, reason: string)
    ensures var r := ReadEntry(service, Line(Failed(service, tag, millis, reason)));
            && r.Failure?
            && (r.tag == tag && r.millis == millis && Keeps(r.reason, reason) <==> !Timed(tag))
  {
    var kept := Bounded(reason, MAX_FAILURE_CHARS);
    FirstTimingExactly(tag, millis, kept);
    ReadByItsWord(service, "audit: failed ", tag + (" (" + (Decimal(millis) + ("ms): " + kept))));
    FailedText(service, tag, Decimal(millis), kept);
    KeptIsUnique(reason);
  }

  lemma {:induction false} SucceededEnds(service: string, tag: string, millis: nat)
    ensures OutcomeOf(service, tag, Line(Succeeded(service, tag, millis))) == Some(Ended(true, millis, ""))
  {
    var front, timing := service + ": audit: ok " + tag, " (" + Decimal(millis) + "ms)";
    SucceededText(service, tag, Decimal(millis));
    AfterIs(front, timing);
    TimingOffIs("", millis);
    assert "" + " (" + Decimal(millis) + "ms)" == timing;
  }

  lemma FailedIsNotOk(service: string, tag: string, rest: string)
    ensures After(service + ": audit: failed " + tag + rest, service + ": audit: ok " + tag).None?
  {
    var line, k := service + ": audit: failed " + tag + rest, |service| + 9;
    assert line[k] == ": audit: failed "[9];
    assert (service + ": audit: ok " + tag)[k] == ": audit: ok "[9];
  }

  lemma {:induction false} FailedEnds(service: string, tag: string, millis: nat, reason: string)
    ensures OutcomeOf(service, tag, Line(Failed(service, tag, millis, reason)))
            == Some(Ended(false, millis, Bounded(reason, MAX_FAILURE_CHARS)))
  {
    var kept := Bounded(reason, MAX_FAILURE_CHARS);
    var rest := " (" + (Decimal(millis) + ("ms): " + kept));
    FailedText(service, tag, Decimal(millis), kept);
    FailedIsNotOk(service, tag, rest);
    AfterIs(service + ": audit: failed " + tag, rest);
    TimingAtIs(millis, kept);
  }

  /** For whoever knows the announcement, every outcome line gives back how that operation ended. */
  lemma {:induction false} OutcomesAreTold(service: string, tag: string, millis: nat, failure: Option<string>)
    ensures var line := Line(if failure.None? then Succeeded(service, tag, millis)
                             else Failed(service, tag, millis, failure.value));
            var end := OutcomeOf(service, tag, line);
            && end.Some? && end.value.millis == millis && (end.value.ok <==> failure.None?)
            && (failure.Some? ==> Keeps(end.value.reason, failure.value))
  {
    match failure
    case None => SucceededEnds(service, tag, millis);
    case Some(reason) => FailedEnds(service, tag, millis, reason);
  }

  lemma RefusedText(service: string, name: string, shown: string, reason: string)
    ensures service + ": " + ("refused " + (name + " for " + shown + ": " + reason))
            == service + ": refused " + name + " for " + shown + ": " + reason
  {
  }

  lemma {:induction false} RefusedReads(service: string, call: Call, shown: string, reason: string)
    ensures ReadEntry(service, Line(Refused(service, call, shown, reason)))
            == Refusal(call.noun + "." + call.verb + " for " + shown + ": " + reason)
  {
    var refusal := call.noun + "." + call.verb + " for " + shown + ": " + reason;
    ReadByItsWord(service, "refused ", refusal);
    RefusedText(service, call.noun + "." + call.verb, shown, reason);
  }

  lemma {:induction false} RepliedReads(service: string, shown: string)
    ensures ReadEntry(service, Line(Replied(service, shown))) == Reply(shown)
  {
    ReadByItsWord(service, "answered ", shown);
    Folded(service, ": ", "answered ", shown);
    Words();
  }

  lemma {:induction false} AcceptFailedReads(service: string, reason: string)
    ensures ReadEntry(service, Line(AcceptFailed(service, reason))) == AcceptFailure(reason)
  {
    ReadByItsWord(service, "accept failed: ", reason);
    Folded(service, ": ", "accept failed: ", reason);
    Words();
  }

  /** What a line must say of its entry. */
  ghost predicate Tells(e: Entry, line: string) {
    var r := ReadEntry(e.service, line);
    match e
    case Begun(_, tag) => r == Announcement(tag)
    case Succeeded(service, tag, millis) =>
      r == Success(tag, millis) && OutcomeOf(service, tag, line) == Some(Ended(true, millis, ""))
    case Failed(service, tag, millis, reason) =>
      && r.Failure?
      && (!Timed(tag) ==> r.tag == tag && r.millis == millis && Keeps(r.reason, reason))
      && exists kept :: Keeps(kept, reason) && OutcomeOf(service, tag, line) == Some(Ended(false, millis, kept))
    case Refused(_, call, shown, reason) =>
      r == Refusal(call.noun + "." + call.verb + " for " + shown + ": " + reason)
    case Replied(_, shown) => r == Reply(shown)
    case AcceptFailed(_, reason) => r == AcceptFailure(reason)
  }

  lemma {:induction false} LineTells(e: Entry)
    ensures Tells(e, Line(e))
  {
    match e
    case Begun(service, tag) => BegunReads(service, tag);
    case Succeeded(service, tag, millis) =>
      SucceededReads(service, tag, millis);
      SucceededEnds(service, tag, millis);
    case Failed(service, tag, millis, reason) =>
      FailedReadsExactly(service, tag, millis, reason);
      FailedEnds(service, tag, millis, reason);
      KeptIsUnique(reason);
      assert Keeps(Bounded(reason, MAX_FAILURE_CHARS), reason);
    case Refused(service, call, shown, reason) => RefusedReads(service, call, shown, reason);
    case Replied(service, shown) => RepliedReads(service, shown);
    case AcceptFailed(service, reason) => AcceptFailedReads(service, reason);
  }

  /** From the text of the journal alone: cut at its newlines, each line tells its entry. */
  lemma {:induction false} JournalTells(entries: seq<Entry>)
    requires forall i :: 0 <= i < |entries| ==> OneLine(Line(entries[i]))
    ensures var lines := SplitLines(Unlines(Lines(entries)));
            |lines| == |entries| && forall i :: 0 <= i < |lines| ==> Tells(entries[i], lines[i])
  {
    LinesRecoverable(Lines(entries));
    forall i | 0 <= i < |entries|
      ensures Tells(entries[i], Line(entries[i]))
    {
      LineTells(entries[i]);
    }
  }

  /** Lines of different kinds never coincide, whatever they carry: a success is never taken for a failure. */
  lemma {:induction false} KindsNeverCoincide(a: Entry, b: Entry)
    requires a.service == b.service && Line(a) == Line(b)
    ensures a.Begun? == b.Begun? && a.Succeeded? == b.Succeeded? && a.Failed? == b.Failed?
    ensures a.Refused? == b.Refused? && a.Replied? == b.Replied? && a.AcceptFailed? == b.AcceptFailed?
  {
    LineTells(a);
    LineTells(b);
  }

  // ---------------------------------------------------------------------
  // Failure lines that tell of two operations
  // ---------------------------------------------------------------------

  lemma {:induction false} ShortFlatTextIsKept(reason: string)
    requires |reason| <= 256 && OneLine(reason) && '\r' !in reason
    ensures Bounded(reason, MAX_FAILURE_CHARS) == reason
  {
    assert forall i :: 0 <= i < |reason| ==> reason[i] != '\n' && reason[i] != '\r';
  }

  lemma TwoTexts(tag: string, m: string, middle: string, n: string, reason: string, service: string)
    ensures service + ": audit: failed " + tag + " (" + m + "ms): " + (middle + (" (" + n + "ms): " + reason))
            == service + ": audit: failed " + (tag + (" (" + m + "ms): " + middle)) + " (" + n + "ms): " + reason
  {
  }

  /** The ambiguous family: a timing in the failure of one operation or in the tag of another makes one line of both. */
  lemma {:induction false} FailuresCanCoincide(service: string, tag: string, m: nat, middle: string, n: nat, reason: string)
    requires var long := middle + (" (" + Decimal(n) + "ms): " + reason);
             |long| <= 256 && OneLine(long) && '\r' !in long
    ensures Line(Failed(service, tag, m, middle + (" (" + Decimal(n) + "ms): " + reason)))
            == Line(Failed(service, tag + (" (" + Decimal(m) + "ms): " + middle), n, reason))
  {
    var long := middle + (" (" + Decimal(n) + "ms): " + reason);
    ShortFlatTextIsKept(long);
    assert forall i :: 0 <= i < |reason| ==> reason[i] == long[|long| - |reason| + i];
    ShortFlatTextIsKept(reason);
    TwoTexts(tag, Decimal(m), middle, Decimal(n), reason, service);
  }

  lemma PeerTexts(call: string, action: string, n1: string, ids1: string, m: string, n2: string, ids2: string)
    ensures call + " action=" + action + " by=" + (n1 + "(" + ids1 + ")") + (" (" + m + "ms): " + (n2 + "(" + ids2 + ")"))
            == call + " action=" + action + " by=" + ((n1 + "(" + ids1 + ")" + (" (" + m + "ms): " + n2)) + "(" + ids2 + ")")
  {
  }

  /** Two peers under such names share a failure line: one whose failure text reads on, and one whose name did. */
  lemma {:induction false} PeersCanShareAFailureLine(
    service: string, call: Call, action: string, p1: Caller, p2: Caller, n1: string, n2: string,
    m: nat, n: nat, reason: string)
    requires p1.Peer? && p2.Peer?
    requires var long := n2 + "(" + Ids(p2.pid, p2.uid, p2.gid) + ")" + (" (" + Decimal(n) + "ms): " + reason);
             |long| <= 256 && OneLine(long) && '\r' !in long
    ensures var name := n1 + "(" + Ids(p1.pid, p1.uid, p1.gid) + ")" + (" (" + Decimal(m) + "ms): " + n2);
            Line(Failed(service, Describe(call, action, Render(p1, Some(n1))), m,
                        n2 + "(" + Ids(p2.pid, p2.uid, p2.gid) + ")" + (" (" + Decimal(n) + "ms): " + reason)))
            == Line(Failed(service, Describe(call, action, Render(p2, Some(name))), n, reason))
  {
    var ids1, ids2 := Ids(p1.pid, p1.uid, p1.gid), Ids(p2.pid, p2.uid, p2.gid);
    FailuresCanCoincide(service, Describe(call, action, Render(p1, Some(n1))), m, n2 + "(" + ids2 + ")", n, reason);
    PeerTexts(CallName(call), action, n1, ids1, Decimal(m), n2, ids2);
  }

  /** A failure line whose tag is untimed names its peer, as announcements and successes always do. */
  lemma {:induction false} FailureNamesItsPeer(
    service: string, call: Call, action: string, peer: Caller, name: Option<string>, millis: nat, reason: string)
    requires peer.Peer? && !Timed(Describe(call, action, Render(peer, name)))
    ensures var r := ReadEntry(service, Line(Failed(service, Describe(call, action, Render(peer, name)), millis, reason)));
            r.Failure? && PeerNumbers(r.tag) == Some((peer.pid, peer.uid, peer.gid))
  {
    FailedReadsExactly(service, Describe(call, action, Render(peer, name)), millis, reason);
    NumbersAreRecoverable(call.noun + "." + call.verb + " action=" + action + " by=", peer, name);
  }

  // ---------------------------------------------------------------------
  // The tag, word by word
  // ---------------------------------------------------------------------

  datatype TagText = TagText(call: string, action: string, shown: string)

  function FirstSpace(s: string): (i: nat)
    ensures i <= |s| && ' ' !in s[..i]
    ensures i < |s| ==> s[i] == ' '
  {
    if s == "" || s[0] == ' ' then 0 else 1 + FirstSpace(s[1..])
  }

  /** The call up to the first space, the action up to the next, and the caller. */
  function ReadTag(tag: string): Option<TagText> {
    var i := FirstSpace(tag);
    match After(tag[i..], " action=")
    case None => None
    case Some(rest) =>
      var j := FirstSpace(rest);
      match After(rest[j..], " by=")
      case None => None
      case Some(shown) => Some(TagText(tag[..i], rest[..j], shown))
  }

  lemma {:induction false} FirstSpaceIs(word: string, rest: string)
    requires rest != "" && rest[0] == ' '
    ensures FirstSpace(word + rest) == |word| <==> ' ' !in word
    ensures FirstSpace(word + rest) <= |word|
  {
    var s := word + rest;
    var i := FirstSpace(s);
    assert s[|word|] == ' ';
    assert forall k :: 0 <= k < i ==> s[k] != ' ' by {
      assert forall k :: 0 <= k < i ==> s[..i][k] == s[k];
    }
    if i == |word| {
      assert s[..i] == word;
    }
    if i < |word| {
      assert word[i] == ' ';
    }
  }

  lemma TagParts(noun: string, verb: string, action: string, shown: string)
    ensures noun + "." + verb + " action=" + action + " by=" + shown
            == (noun + "." + verb) + (" action=" + (action + (" by=" + shown)))
  {
  }

  /** The tag gives back the call and the action exactly when the contract's strings hold no space; then also the caller. */
  lemma {:induction false} TagReadsExactly(call: Call, action: string, shown: string)
    ensures ReadTag(Describe(call, action, shown)) == Some(TagText(call.noun + "." + call.verb, action, shown))
            <==> ' ' !in call.noun && ' ' !in call.verb && ' ' !in action
  {
    var name, tag := call.noun + "." + call.verb, Describe(call, action, shown);
    var rest := action + (" by=" + shown);
    TagParts(call.noun, call.verb, action, shown);
    FirstSpaceIs(name, " action=" + rest);
    assert ' ' !in name <==> ' ' !in call.noun && ' ' !in call.verb;
    if ' ' !in name {
      assert tag[..|name|] == name && tag[|name|..] == " action=" + rest;
      AfterIs(" action=", rest);
      FirstSpaceIs(action, " by=" + shown);
      if ' ' !in action {
        assert rest[..|action|] == action && rest[|action|..] == " by=" + shown;
        AfterIs(" by=", shown);
      }
    }
  }

  /** Who a refusal of `call` was for, and whose uid and gid it says were not listed. */
  function ReadRefusedPeer(call: Call, text: string): Option<(PeerText, nat, nat)> {
    match After(text, call.noun + "." + call.verb + " for ")
    case None => None
    case Some(rest) =>
      match Off(rest, " may not call " + call.noun + "." + call.verb)
      case None => None
      case Some(numbers) =>
        match LabelledOff(numbers, " gid ")
        case None => None
        case Some((front, gid)) =>
          match LabelledOff(front, ": uid ")
          case None => None
          case Some((shown, uid)) =>
            match ParsePeer(shown)
            case None => None
            case Some(peer) => Some((peer, uid, gid))
  }

  lemma RefusedPeerText(front: string, shown: string, uid: string, gid: string, word: string, noun: string, verb: string)
    ensures front + shown + ": " + ("uid " + uid + " gid " + gid + word + (noun + "." + verb))
            == front + (shown + ": uid " + uid + " gid " + gid + (word + noun + "." + verb))
  {
  }

  /** The refusal line of a peer names the peer twice over: as shown, whatever its name holds, and by its numbers. */
  lemma {:induction false} RefusedPeerIsRead(gate: PeerGate, call: Call, peer: Caller, name: Option<string>)
    requires peer.Peer? && Authorize(gate, call, peer).Err?
    ensures var text := call.noun + "." + call.verb + " for " + Render(peer, name) + ": " + Authorize(gate, call, peer).error;
            ReadRefusedPeer(call, text) == Some((PeerText(peer.pid, peer.uid, peer.gid, name), peer.uid, peer.gid))
  {
    var front, suffix := call.noun + "." + call.verb + " for ", " may not call " + call.noun + "." + call.verb;
    var shown := Render(peer, name);
    RefusedPeerText(front, shown, Decimal(peer.uid), Decimal(peer.gid), " may not call ", call.noun, call.verb);
    AfterIs(front, shown + ": uid " + Decimal(peer.uid) + " gid " + Decimal(peer.gid) + suffix);
    OffIs(shown + ": uid " + Decimal(peer.uid) + " gid " + Decimal(peer.gid), suffix);
    LabelledOffIs(shown + ": uid " + Decimal(peer.uid), " gid ", peer.gid);
    LabelledOffIs(shown, ": uid ", peer.uid);
    PeerIsRecoverable(peer, name);
  }
}
