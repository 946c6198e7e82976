/** Reading token usage off a response: router/usage.go. */
module Usage {
  import opened Options
  import opened Ledger

  /** A data line's JSON, as each of the two event shapes would decode it: `None` is a decode error,
      `Some(None)` an event without usage. */
  datatype Payload = Payload(asStart: Option<Option<Tokens>>, asDelta: Option<Option<Tokens>>)

  datatype Kind = MessageStart | MessageDelta | OtherEvent(name: string)

  /** A line of the stream. `Junk` is any other non-empty line. */
  datatype Line = Empty | EventLine(kind: Kind) | DataLine(payload: Payload) | Junk(text: string)

  datatype Usage = Usage(tokens: Tokens, ok: bool)
  const NO_USAGE := Usage(NO_TOKENS, false)

  // ---------------------------------------------------------------------------------------
  // What one event does, and what the scanner computes
  // ---------------------------------------------------------------------------------------

  /** The running result after one event, or nothing when its data does not decode. */
  function Apply(result: Tokens, kind: Kind, p: Payload): Option<Tokens> {
    match kind
    case MessageStart =>
      (match p.asStart
       case None => None
       case Some(u) => Some(if u.Some? then u.value else result))
    case MessageDelta =>
      (match p.asDelta
       case None => None
       case Some(u) => Some(if u.Some? && u.value.output > 0 then result.(output := u.value.output) else result))
    case OtherEvent(_) => Some(result)
  }

  function Scan(lines: seq<Line>, result: Tokens): Usage
    decreases |lines|
  {
    if lines == [] then (if result == NO_TOKENS then NO_USAGE else Usage(result, true))
    else if !lines[0].EventLine? then Scan(lines[1..], result)
    else if |lines| == 1 || !lines[1].DataLine? then NO_USAGE
    else
      match Apply(result, lines[0].kind, lines[1].payload)
      case None => NO_USAGE
      case Some(next) => Scan(lines[2..], next)
  }

  method UsageFromSSE(lines: seq<Line>) returns (u: Usage)
    ensures u == Scan(lines, NO_TOKENS)
  {
    var result := NO_TOKENS;
    var i := 0;
    while i < |lines|
      invariant i <= |lines|
      invariant Scan(lines, NO_TOKENS) == Scan(lines[i..], result)
    {
      assert lines[i..][1..] == lines[i + 1..];
      if lines[i].EventLine? {
        var kind := lines[i].kind;
        if i + 1 == |lines| || !lines[i + 1].DataLine? {
          return NO_USAGE;
        }
        assert lines[i..][2..] == lines[i + 2..];
        var next := Apply(result, kind, lines[i + 1].payload);
        if next.None? {
          return NO_USAGE;
        }
        result := next.value;
        i := i + 2;
      } else {
        i := i + 1;
      }
    }
    if result == NO_TOKENS {
      return NO_USAGE;
    }
    return Usage(result, true);
  }

  function UsageFromJSON(usage: Option<Option<Tokens>>): Usage {
    if usage.Some? && usage.value.Some? then Usage(usage.value.value, true) else NO_USAGE
  }

  // ---------------------------------------------------------------------------------------
  // Streams
  // ---------------------------------------------------------------------------------------

  datatype Event = Event(kind: Kind, payload: Payload)

  /** An event stream as it is sent: an event line, its data line, and a blank line, for each event. */
  function Print(events: seq<Event>): seq<Line> {
    if events == [] then [] else [EventLine(events[0].kind), DataLine(events[0].payload), Empty] + Print(events[1..])
  }

  /** All events applied in order, stopping at data that does not decode. */
  function ApplyAll(events: seq<Event>, result: Tokens): Option<Tokens>
    decreases |events|
  {
    if events == [] then Some(result)
    else
      match Apply(result, events[0].kind, events[0].payload)
      case None => None
      case Some(next) => ApplyAll(events[1..], next)
  }

  /** Scanning a printed stream is applying its events: the one-line lookahead never slips. */
  lemma {:induction false} ScanPrinted(events: seq<Event>, result: Tokens)
    ensures Scan(Print(events), result)
         == match ApplyAll(events, result)
            case None => NO_USAGE
            case Some(t) => if t == NO_TOKENS then NO_USAGE else Usage(t, true)
    decreases |events|
  {
    if events != [] {
      var lines, rest := Print(events), Print(events[1..]);
      match Apply(result, events[0].kind, events[0].payload)
      case None =>
      case Some(next) =>
        ScanPrinted(events[1..], next);
        assert lines[2..] == [Empty] + rest;
        assert lines[2..][1..] == rest;
    }
  }

  /** Anything after the first event but another message_start, with data that decodes. */
  predicate Later(e: Event) {
    e.kind != MessageStart && (e.kind == MessageDelta ==> e.payload.asDelta.Some?)
  }

  predicate PositiveDelta(e: Event) {
    e.kind == MessageDelta && e.payload.asDelta.Some? && e.payload.asDelta.value.Some?
    && e.payload.asDelta.value.value.output > 0
  }

  /** The output count of the last delta that carries a positive one. */
  function LastOutput(events: seq<Event>, start: int): int {
    if events == [] then start
    else
      var last := events[|events| - 1];
      if PositiveDelta(last) then last.payload.asDelta.value.value.output else LastOutput(events[..|events| - 1], start)
  }

  lemma {:induction false} ApplySplit(a: seq<Event>, b: seq<Event>, result: Tokens)
    ensures ApplyAll(a + b, result) == match ApplyAll(a, result) case None => None case Some(t) => ApplyAll(b, t)
    decreases |a|
  {
    if a == [] {
      assert a + b == b;
    } else {
      assert (a + b)[1..] == a[1..] + b;
      match Apply(result, a[0].kind, a[0].payload)
      case None =>
      case Some(next) => ApplySplit(a[1..], b, next);
    }
  }

  lemma {:induction false} LaterKeepsInputs(events: seq<Event>, start: Tokens)
    requires forall e :: e in events ==> Later(e)
    ensures ApplyAll(events, start) == Some(start.(output := LastOutput(events, start.output)))
  {
    if events != [] {
      var init, last := events[..|events| - 1], events[|events| - 1];
      LaterKeepsInputs(init, start);
      ApplySplit(init, [last], start);
      assert events == init + [last];
      assert last in events && Later(last);
      var mid := start.(output := LastOutput(init, start.output));
      assert [last][1..] == [];
      assert ApplyAll([last], mid) == Apply(mid, last.kind, last.payload);
    }
  }

  /** A stream that opens with usage `start` and goes on with deltas and unrelated events reads as that
      usage with its output replaced by the last positive cumulative count, never by a sum: what the
      non-streaming reader yields on that final usage object. It fails exactly when that is all zero. */
  lemma {:induction false} StreamReadsAsFinalUsage(opening: Event, events: seq<Event>, start: Tokens)
    requires opening.kind == MessageStart && opening.payload.asStart == Some(Some(start))
    requires forall e :: e in events ==> Later(e)
    ensures var final := start.(output := LastOutput(events, start.output));
            Scan(Print([opening] + events), NO_TOKENS)
            == if final == NO_TOKENS then NO_USAGE else UsageFromJSON(Some(Some(final)))
  {
    ScanPrinted([opening] + events, NO_TOKENS);
    assert ([opening] + events)[1..] == events;
    LaterKeepsInputs(events, start);
  }

  /** Scanning what begins with printed events is applying them and scanning the rest. */
  lemma {:induction false} ScanAfter(events: seq<Event>, rest: seq<Line>, result: Tokens)
    ensures Scan(Print(events) + rest, result)
         == match ApplyAll(events, result) case None => NO_USAGE case Some(t) => Scan(rest, t)
    decreases |events|
  {
    if events == [] {
      assert Print(events) + rest == rest;
    } else {
      var lines, more := Print(events) + rest, Print(events[1..]) + rest;
      assert lines == [EventLine(events[0].kind), DataLine(events[0].payload), Empty] + more;
      match Apply(result, events[0].kind, events[0].payload)
      case None =>
      case Some(next) =>
        ScanAfter(events[1..], rest, next);
        assert lines[2..] == [Empty] + more;
        assert lines[2..][1..] == more;
    }
  }

  /** A stream cut off after an event line yields nothing, whatever was read before. */
  lemma {:induction false} TruncatedStreamFails(events: seq<Event>, kind: Kind, result: Tokens)
    ensures Scan(Print(events) + [EventLine(kind)], result) == NO_USAGE
  {
    ScanAfter(events, [EventLine(kind)], result);
  }

  /** A stream is read to its end or not at all: an event line without a data line after it, or with data that
      does not decode as the event it belongs to, yields nothing, whatever was read before it or comes after. */
  lemma {:induction false} BrokenEventFails(events: seq<Event>, kind: Kind, rest: seq<Line>, result: Tokens)
    requires rest == [] || !rest[0].DataLine?
          || (kind == MessageStart && rest[0].payload.asStart == None)
          || (kind == MessageDelta && rest[0].payload.asDelta == None)
    ensures Scan(Print(events) + ([EventLine(kind)] + rest), result) == NO_USAGE
  {
    ScanAfter(events, [EventLine(kind)] + rest, result);
    assert ([EventLine(kind)] + rest)[1..] == rest;
  }

  /** Any other line between events is passed over. */
  lemma {:induction false} StrayLinePassedOver(events: seq<Event>, stray: Line, rest: seq<Line>, result: Tokens)
    requires !stray.EventLine?
    ensures Scan(Print(events) + ([stray] + rest), result) == Scan(Print(events) + rest, result)
  {
    ScanAfter(events, [stray] + rest, result);
    ScanAfter(events, rest, result);
    assert ([stray] + rest)[1..] == rest;
  }

  /** An event without usage, or of another kind, changes nothing, wherever it stands; and neither does a delta
      without a positive output count. */
  lemma {:induction false} IdleEventChangesNothing(before: seq<Event>, e: Event, rest: seq<Event>, result: Tokens)
    requires match e.kind
             case MessageStart => e.payload.asStart == Some(None)
             case MessageDelta =>
               e.payload.asDelta == Some(None)
               || (&& e.payload.asDelta.Some? && e.payload.asDelta.value.Some?
                   && e.payload.asDelta.value.value.output <= 0)
             case OtherEvent(_) => true
    ensures Scan(Print(before + [e] + rest), result) == Scan(Print(before + rest), result)
  {
    ScanPrinted(before + [e] + rest, result);
    ScanPrinted(before + rest, result);
    ApplySplit(before, [e] + rest, result);
    ApplySplit(before, rest, result);
    assert before + [e] + rest == before + ([e] + rest) && ([e] + rest)[1..] == rest;
  }

  /** A later message_start with usage replaces everything read before it. */
  lemma {:induction false} StartOverwrites(before: seq<Event>, opening: Event, rest: seq<Event>, result: Tokens,
          start: Tokens)
    requires opening.kind == MessageStart && opening.payload.asStart == Some(Some(start))
    requires forall e :: e in before ==> (e.kind == MessageStart ==> e.payload.asStart.Some?)
                                         && (e.kind == MessageDelta ==> e.payload.asDelta.Some?)
    ensures Scan(Print(before + [opening] + rest), result) == Scan(Print([opening] + rest), NO_TOKENS)
  {
    ScanPrinted(before + [opening] + rest, result);
    ScanPrinted([opening] + rest, NO_TOKENS);
    ApplySplit(before, [opening] + rest, result);
    DecodesThrough(before, result);
    assert before + [opening] + rest == before + ([opening] + rest) && ([opening] + rest)[1..] == rest;
  }

  lemma {:induction false} DecodesThrough(events: seq<Event>, result: Tokens)
    requires forall e :: e in events ==> (e.kind == MessageStart ==> e.payload.asStart.Some?)
                                         && (e.kind == MessageDelta ==> e.payload.asDelta.Some?)
    ensures ApplyAll(events, result).Some?
    decreases |events|
  {
    if events != [] {
      assert events[0] in events;
      DecodesThrough(events[1..], Apply(result, events[0].kind, events[0].payload).value);
    }
  }

  /** The last delta with a positive output count decides it, and without any the count is the one given. */
  lemma {:induction false} LastOutputIff(events: seq<Event>, start: int, j: nat)
    requires j < |events| && events[j].kind == MessageDelta
    requires events[j].payload.asDelta.Some? && events[j].payload.asDelta.value.Some?
    requires events[j].payload.asDelta.value.value.output > 0
    requires forall k :: j < k < |events| && events[k].kind == MessageDelta && events[k].payload.asDelta.Some?
                         && events[k].payload.asDelta.value.Some?
               ==> events[k].payload.asDelta.value.value.output <= 0
    ensures LastOutput(events, start) == events[j].payload.asDelta.value.value.output
  {
    if j < |events| - 1 {
      LastOutputIff(events[..|events| - 1], start, j);
    }
  }

  lemma {:induction false} NoOutput(events: seq<Event>, start: int)
    requires forall k :: 0 <= k < |events| && events[k].kind == MessageDelta && events[k].payload.asDelta.Some?
                         && events[k].payload.asDelta.value.Some?
               ==> events[k].payload.asDelta.value.value.output <= 0
    ensures LastOutput(events, start) == start
  {
    if events != [] {
      NoOutput(events[..|events| - 1], start);
    }
  }

  /** Usage can come from deltas alone: a stream with no message_start still succeeds if and only if some
      delta carries a positive output, although the reader's own comment asks for a message_start. */
  lemma {:induction false} DeltasAloneSucceedIff(events: seq<Event>)
    requires forall e :: e in events ==> Later(e)
    ensures Scan(Print(events), NO_TOKENS).ok <==> exists e :: e in events && PositiveDelta(e)
  {
    ScanPrinted(events, NO_TOKENS);
    LaterKeepsInputs(events, NO_TOKENS);
    LastOutputPositiveIff(events);
  }

  lemma {:induction false} LastOutputPositiveIff(events: seq<Event>)
    ensures LastOutput(events, 0) >= 0
    ensures LastOutput(events, 0) > 0 <==> exists e :: e in events && PositiveDelta(e)
  {
    if events != [] {
      var init, last := events[..|events| - 1], events[|events| - 1];
      LastOutputPositiveIff(init);
      assert events == init + [last];
      assert last in events;
    }
  }
}
