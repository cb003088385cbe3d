/** Replaying the runtime measurement register RTMR3 from an event log, and looking events up in it
    (attestation/src/attestation.rs). The hash is any function to 48 bytes. */
module Replay {
  import opened Common
  import opened Hex
  import opened TcbInfos

  type Sha384 = seq<byte> -> Bytes48

  const DSTACK_EVENT_TYPE: nat := 134217729
  const RTMR3_INDEX: nat := 3
  const COLON: byte := 58

  datatype VerificationError =
    | DcapVerification | ReportNotTd10 | TcbStatusNotUpToDate | NonEmptyAdvisoryIds
    | WrongHash(name: string) | InvalidEventType(eventType: nat) | EventDecoding(digest: Text)
    | AppComposeParsing | MissingEvent(event: Text) | DuplicateEvent(event: Text) | InvalidAppComposeConfig
    | AppComposeEventPayloadWrongSize(size: nat) | AppComposeEventPayloadNotHex(payload: Text)
    | ExpiredCertificate(time: nat, expiry: nat) | InvalidMockAttestation | Custom(reason: string) | Overflow

  const ZERO48: Bytes48 := seq(48, _ => 0)

  /** The four bytes of the event type, least significant first. */
  function TypeBytes(t: nat): (r: seq<byte>)
    ensures |r| == 4
  {
    [t % 256, t / 256 % 256, t / 65536 % 256, t / 16777216 % 256]
  }

  /** What is hashed for an event: type, name and payload, separated by colons. */
  function Digested(eventType: nat, name: Text, payload: seq<byte>): seq<byte> {
    TypeBytes(eventType) + [COLON] + name + [COLON] + payload
  }

  function EventDigest(h: Sha384, eventType: nat, name: Text, payload: seq<byte>): Bytes48 {
    h(Digested(eventType, name, payload))
  }

  predicate Measured(e: EventLog) { e.imr == RTMR3_INDEX }

  /** The events measured into RTMR3, in order. */
  function MeasuredEvents(log: seq<EventLog>): seq<EventLog> {
    if log == [] then []
    else MeasuredEvents(log[..|log| - 1]) + if Measured(log[|log| - 1]) then [log[|log| - 1]] else []
  }

  /** What the replay checks of one event: its type, its payload and its digest. */
  function CheckEvent(h: Sha384, e: EventLog): Result<Unit, VerificationError> {
    if e.eventType != DSTACK_EVENT_TYPE then Err(InvalidEventType(e.eventType))
    else
      match Decode(e.eventPayload)
      case Err(_) => Err(EventDecoding(Encode(e.digest)))
      case Ok(payload) =>
        if e.digest == EventDigest(h, e.eventType, e.event, payload) then Ok(Unit.Unit)
          else Err(WrongHash("event_digest"))
  }

  /** The register after extending it with these digests. */
  function Chain(h: Sha384, es: seq<EventLog>): Bytes48 {
    if es == [] then ZERO48 else h(Chain(h, es[..|es| - 1]) + es[|es| - 1].digest)
  }

  ghost predicate AllChecked(h: Sha384, es: seq<EventLog>) {
    forall i :: 0 <= i < |es| ==> CheckEvent(h, es[i]).Ok?
  }

  /** The log replays to `expected`: every measured event is as it claims, and their digests chain up to
      it. */
  ghost predicate ReplaysTo(h: Sha384, log: seq<EventLog>, expected: Bytes48) {
    AllChecked(h, MeasuredEvents(log)) && Chain(h, MeasuredEvents(log)) == expected
  }

  /** The error of the first measured event that does not check out. */
  function FirstFailure(h: Sha384, es: seq<EventLog>): (r: Option<VerificationError>)
    ensures r.None? <==> AllChecked(h, es)
  {
    if es == [] then None
    else
      var before := FirstFailure(h, es[..|es| - 1]);
      if before.Some? then before
      else
        var last := CheckEvent(h, es[|es| - 1]);
        if last.Err? then Some(last.error) else None
  }

  function ReplayResult(h: Sha384, log: seq<EventLog>, expected: Bytes48): (r: Result<Unit, VerificationError>)
    ensures r.Ok? <==> ReplaysTo(h, log, expected)
  {
    var es := MeasuredEvents(log);
    var failure := FirstFailure(h, es);
    if failure.Some? then Err(failure.value)
    else if Chain(h, es) != expected then Err(WrongHash("event_log"))
    else Ok(Unit.Unit)
  }

  method VerifyEventLogRtmr3(h: Sha384, log: seq<EventLog>, expected: Bytes48)
    returns (r: Result<Unit, VerificationError>)
    ensures r == ReplayResult(h, log, expected)
    ensures r.Ok? <==> ReplaysTo(h, log, expected)
  {
    var digest := ZERO48;
    for i := 0 to |log|
      invariant digest == Chain(h, MeasuredEvents(log[..i]))
      invariant FirstFailure(h, MeasuredEvents(log[..i])).None?
    {
      var event := log[i];
      assert log[..i + 1][..i] == log[..i];
      ghost var before := MeasuredEvents(log[..i]);
      if Measured(event) {
        assert MeasuredEvents(log[..i + 1]) == before + [event];
        assert (before + [event])[..|before|] == before;
        var check := CheckEvent(h, event);
        if check.Err? {
          FailureStays(h, log, i + 1);
          return Err(check.error);
        }
        digest := h(digest + event.digest);
      } else {
        assert MeasuredEvents(log[..i + 1]) == before;
      }
    }
    assert log[..|log|] == log;
    r := if digest == expected then Ok(Unit.Unit) else Err(WrongHash("event_log"));
  }

  lemma {:induction false} FailureStays(h: Sha384, log: seq<EventLog>, i: nat)
    requires i <= |log| && FirstFailure(h, MeasuredEvents(log[..i])).Some?
    ensures FirstFailure(h, MeasuredEvents(log)) == FirstFailure(h, MeasuredEvents(log[..i]))
    decreases |log|
  {
    if i == |log| {
      assert log[..i] == log;
    } else {
      var before := log[..|log| - 1];
      assert before[..i] == log[..i];
      FailureStays(h, before, i);
      var es := MeasuredEvents(before);
      if Measured(log[|log| - 1]) {
        assert (es + [log[|log| - 1]])[..|es|] == es;
      } else {
        assert es + [] == es;
      }
    }
  }

  // ---------- binding ----------

  /** The bytes that were hashed for this event. */
  function BytesOf(e: EventLog): seq<byte> {
    Digested(e.eventType, e.event, PayloadOf(e))
  }

  function DigestedBytes(es: seq<EventLog>): seq<seq<byte>> {
    seq(|es|, i requires 0 <= i < |es| => BytesOf(es[i]))
  }

  function PayloadOf(e: EventLog): seq<byte> {
    var p := Decode(e.eventPayload);
    if p.Ok? then p.value else []
  }

  predicate Collides(h: Sha384, x: seq<byte>, y: seq<byte>) { x != y && h(x) == h(y) }

  /** Evidence against the hash: a collision, or a preimage of the all-zero start value. */
  predicate Broken(h: Sha384, x: seq<byte>, y: seq<byte>) {
    Collides(h, x, y) || h(x) == ZERO48
  }

  lemma {:induction false} ChainBinds(h: Sha384, a: seq<EventLog>, b: seq<EventLog>)
    returns (x: seq<byte>, y: seq<byte>)
    requires AllChecked(h, a) && AllChecked(h, b) && Chain(h, a) == Chain(h, b)
    ensures DigestedBytes(a) == DigestedBytes(b) || Broken(h, x, y)
    decreases |a|
  {
    x, y := [], [];
    if a == [] && b == [] {
    } else if a == [] {
      x := Chain(h, b[..|b| - 1]) + b[|b| - 1].digest;
    } else if b == [] {
      x := Chain(h, a[..|a| - 1]) + a[|a| - 1].digest;
    } else {
      var p, d, q, e := a[..|a| - 1], a[|a| - 1], b[..|b| - 1], b[|b| - 1];
      x, y := Chain(h, p) + d.digest, Chain(h, q) + e.digest;
      if x == y {
        SplitAt48(Chain(h, p), d.digest, Chain(h, q), e.digest);
        x, y := ChainBinds(h, p, q);
        if !Broken(h, x, y) {
          x, y := BytesOf(d), BytesOf(e);
          CheckedDigest(h, d);
          CheckedDigest(h, e);
          DigestedLast(a);
          DigestedLast(b);
        }
      }
    }
  }

  lemma DigestedLast(es: seq<EventLog>)
    requires es != []
    ensures DigestedBytes(es) == DigestedBytes(es[..|es| - 1]) + [BytesOf(es[|es| - 1])]
  {
  }

  lemma SplitAt48(a: Bytes48, b: Bytes48, c: Bytes48, d: Bytes48)
    requires a + b == c + d
    ensures a == c && b == d
  {
    assert a == (a + b)[..48] && c == (c + d)[..48];
    assert b == (a + b)[48..] && d == (c + d)[48..];
  }

  lemma CheckedDigest(h: Sha384, e: EventLog)
    requires CheckEvent(h, e).Ok?
    ensures e.digest == h(BytesOf(e))
  {
  }

  /** Two logs that replay to the same register value measured the same bytes, in the same order, or
      the hash is broken by strings found in them. */
  lemma RegisterBinds(h: Sha384, log1: seq<EventLog>, log2: seq<EventLog>, register: Bytes48)
    returns (x: seq<byte>, y: seq<byte>)
    requires ReplayResult(h, log1, register).Ok? && ReplayResult(h, log2, register).Ok?
    ensures DigestedBytes(MeasuredEvents(log1)) == DigestedBytes(MeasuredEvents(log2)) || Broken(h, x, y)
  {
    x, y := ChainBinds(h, MeasuredEvents(log1), MeasuredEvents(log2));
  }

  // ---------- names and payloads ----------

  predicate NoColon(name: Text) { COLON !in name }

  /** Equal bytes mean equal names and payloads exactly when the names are equally long. */
  lemma SameFieldsIff(t: nat, name1: Text, payload1: seq<byte>, name2: Text, payload2: seq<byte>)
    requires Digested(t, name1, payload1) == Digested(t, name2, payload2)
    ensures (name1 == name2 && payload1 == payload2) <==> |name1| == |name2|
  {
    var a, b := Digested(t, name1, payload1), Digested(t, name2, payload2);
    if |name1| == |name2| {
      var n := |name1|;
      assert name1 == a[5..5 + n] && name2 == b[5..5 + n];
      assert payload1 == a[6 + n..] && payload2 == b[6 + n..];
    }
  }

  /** Of two events hashed alike, the longer name has a colon where the shorter one ends. */
  lemma LongerHasColon(t: nat, name1: Text, payload1: seq<byte>, name2: Text, payload2: seq<byte>)
    requires Digested(t, name1, payload1) == Digested(t, name2, payload2)
    ensures |name1| < |name2| ==> name2[|name1|] == COLON
  {
    if |name1| < |name2| {
      var a, b := Digested(t, name1, payload1), Digested(t, name2, payload2);
      assert a[5 + |name1|] == COLON && b[5 + |name1|] == name2[|name1|];
    }
  }

  /** So names without a colon are told apart, and so are their payloads. */
  lemma ColonFreeNames(t: nat, name1: Text, payload1: seq<byte>, name2: Text, payload2: seq<byte>)
    requires Digested(t, name1, payload1) == Digested(t, name2, payload2) && NoColon(name1) && NoColon(name2)
    ensures name1 == name2 && payload1 == payload2
  {
    LongerHasColon(t, name1, payload1, name2, payload2);
    LongerHasColon(t, name2, payload2, name1, payload1);
    SameFieldsIff(t, name1, payload1, name2, payload2);
  }

  /** With a colon in a name, two different events are hashed alike: name `a` with payload `b:c`, and
      name `a:b` with payload `c`. */
  lemma ColonIsAmbiguous()
    ensures exists n1, p1, n2, p2 ::
              n1 != n2 && Digested(DSTACK_EVENT_TYPE, n1, p1) == Digested(DSTACK_EVENT_TYPE, n2, p2)
  {
    var a, b, c: byte := 97, 98, 99;
    assert [a] + [COLON] + [b, COLON, c] == [a, COLON, b] + [COLON] + [c];
    assert Digested(DSTACK_EVENT_TYPE, [a], [b, COLON, c]) == Digested(DSTACK_EVENT_TYPE, [a, COLON, b], [c]);
  }

  // ---------- single events ----------

  predicate Matches(e: EventLog, name: Text) { e.event == name && e.imr == RTMR3_INDEX }

  /** The events of that name measured into RTMR3. */
  function Named(log: seq<EventLog>, name: Text): seq<EventLog> {
    if log == [] then []
    else Named(log[..|log| - 1], name) + if Matches(log[|log| - 1], name) then [log[|log| - 1]] else []
  }

  function GetSingleEvent(log: seq<EventLog>, name: Text): Result<EventLog, VerificationError> {
    var found := Named(log, name);
    if found == [] then Err(MissingEvent(name))
    else if |found| > 1 then Err(DuplicateEvent(name))
    else Ok(found[0])
  }

  lemma {:induction false} NamedOfMeasured(log: seq<EventLog>, name: Text)
    ensures Named(MeasuredEvents(log), name) == Named(log, name)
  {
    if log != [] {
      var before, e := MeasuredEvents(log[..|log| - 1]), log[|log| - 1];
      NamedOfMeasured(log[..|log| - 1], name);
      if Measured(e) {
        assert (before + [e])[..|before|] == before;
      } else {
        assert before + [] == before;
      }
    }
  }

  /** Replay and lookup see only the measured events: two logs that agree on these, whatever else they
      contain and wherever, give the same results. */
  lemma OnlyMeasuredMatter(h: Sha384, log1: seq<EventLog>, log2: seq<EventLog>, expected: Bytes48, name: Text)
    requires MeasuredEvents(log1) == MeasuredEvents(log2)
    ensures ReplayResult(h, log1, expected) == ReplayResult(h, log2, expected)
    ensures GetSingleEvent(log1, name) == GetSingleEvent(log2, name)
  {
    NamedOfMeasured(log1, name);
    NamedOfMeasured(log2, name);
  }

  /** A lookup succeeds exactly when one position of the log matches, and gives the event there. */
  lemma {:induction false} SingleEventIff(log: seq<EventLog>, name: Text, e: EventLog)
    ensures GetSingleEvent(log, name) == Ok(e) <==>
            exists i :: 0 <= i < |log| && OnlyMatch(log, name, i) && log[i] == e
  {
    NamedCounts(log, name);
    if GetSingleEvent(log, name) == Ok(e) {
      NamedAt(log, name);
    }
    if i :| 0 <= i < |log| && OnlyMatch(log, name, i) && log[i] == e {
      OnlyMatchNamed(log, name, i);
    }
  }

  predicate OnlyMatch(log: seq<EventLog>, name: Text, i: nat)
    requires i < |log|
  {
    Matches(log[i], name) && forall j :: 0 <= j < |log| && j != i ==> !Matches(log[j], name)
  }

  lemma {:induction false} NamedCounts(log: seq<EventLog>, name: Text)
    ensures Named(log, name) == [] <==> forall j :: 0 <= j < |log| ==> !Matches(log[j], name)
  {
    if log != [] {
      NamedCounts(log[..|log| - 1], name);
    }
  }

  lemma {:induction false} OnlyMatchNamed(log: seq<EventLog>, name: Text, i: nat)
    requires i < |log| && OnlyMatch(log, name, i)
    ensures Named(log, name) == [log[i]]
  {
    var last := |log| - 1;
    if i == last {
      NamedCounts(log[..last], name);
    } else {
      OnlyMatchNamed(log[..last], name, i);
    }
  }

  lemma {:induction false} NamedAt(log: seq<EventLog>, name: Text)
    requires |Named(log, name)| == 1
    ensures exists i :: 0 <= i < |log| && OnlyMatch(log, name, i) && log[i] == Named(log, name)[0]
  {
    var last := |log| - 1;
    if Matches(log[last], name) {
      NamedCounts(log[..last], name);
      assert OnlyMatch(log, name, last);
    } else {
      NamedAt(log[..last], name);
      var i :| 0 <= i < last && OnlyMatch(log[..last], name, i) && log[..last][i] == Named(log[..last], name)[0];
      assert OnlyMatch(log, name, i);
    }
  }

  // ---------- payloads fixed by the register ----------

  /** The hashed bytes could be those of an event of this name. */
  predicate ReadsAs(bytes: seq<byte>, name: Text) {
    |bytes| >= 6 + |name| && bytes[5..6 + |name|] == name + [COLON]
  }

  lemma NamedReadsAs(e: EventLog)
    ensures ReadsAs(BytesOf(e), e.event)
  {
  }

  /** Exactly one measured event's bytes can be read as an event of this name. */
  predicate OneReading(es: seq<EventLog>, name: Text) {
    exists i :: 0 <= i < |es| && OnlyReading(DigestedBytes(es), name, i)
  }

  predicate OnlyReading(ds: seq<seq<byte>>, name: Text, i: nat)
    requires i < |ds|
  {
    ReadsAs(ds[i], name) && forall j :: 0 <= j < |ds| && j != i ==> !ReadsAs(ds[j], name)
  }

  /** If one of two logs with the same register value has only one reading of a name, both lookups of
      that name give the same payload, or the hash is broken. */
  lemma RegisterFixesPayload(h: Sha384, log1: seq<EventLog>, log2: seq<EventLog>, register: Bytes48, name: Text)
    returns (x: seq<byte>, y: seq<byte>)
    requires ReplayResult(h, log1, register).Ok? && ReplayResult(h, log2, register).Ok?
    requires GetSingleEvent(log1, name).Ok? && GetSingleEvent(log2, name).Ok?
    requires OneReading(MeasuredEvents(log1), name)
    ensures PayloadOf(GetSingleEvent(log1, name).value) == PayloadOf(GetSingleEvent(log2, name).value)
            || Broken(h, x, y)
  {
    x, y := RegisterBinds(h, log1, log2, register);
    if !Broken(h, x, y) {
      var ds := DigestedBytes(MeasuredEvents(log1));
      var i :| 0 <= i < |ds| && OnlyReading(ds, name, i);
      FoundAtReading(h, log1, name, i);
      FoundAtReading(h, log2, name, i);
      var e1, e2 := GetSingleEvent(log1, name).value, GetSingleEvent(log2, name).value;
      SameFieldsIff(DSTACK_EVENT_TYPE, name, PayloadOf(e1), name, PayloadOf(e2));
    }
  }

  lemma FoundAtReading(h: Sha384, log: seq<EventLog>, name: Text, i: nat)
    requires AllChecked(h, MeasuredEvents(log)) && GetSingleEvent(log, name).Ok?
    requires i < |MeasuredEvents(log)| && OnlyReading(DigestedBytes(MeasuredEvents(log)), name, i)
    ensures var e := GetSingleEvent(log, name).value;
            e.event == name && e.eventType == DSTACK_EVENT_TYPE && DigestedBytes(MeasuredEvents(log))[i] == BytesOf(e)
  {
    var es, e := MeasuredEvents(log), GetSingleEvent(log, name).value;
    NamedOfMeasured(log, name);
    SingleEventIff(es, name, e);
    var k :| 0 <= k < |es| && OnlyMatch(es, name, k) && es[k] == e;
    NamedReadsAs(e);
    assert DigestedBytes(es)[k] == BytesOf(e);
    assert CheckEvent(h, es[k]).Ok?;
  }

  /** A log whose measured names have no colon has one reading of every colon-free name it holds once. */
  lemma ColonFreeOneReading(h: Sha384, log: seq<EventLog>, name: Text)
    requires AllChecked(h, MeasuredEvents(log)) && GetSingleEvent(log, name).Ok? && NoColon(name)
    requires forall i :: 0 <= i < |MeasuredEvents(log)| ==> NoColon(MeasuredEvents(log)[i].event)
    ensures OneReading(MeasuredEvents(log), name)
  {
    var es, e := MeasuredEvents(log), GetSingleEvent(log, name).value;
    NamedOfMeasured(log, name);
    SingleEventIff(es, name, e);
    var k :| 0 <= k < |es| && OnlyMatch(es, name, k) && es[k] == e;
    var ds := DigestedBytes(es);
    AllMeasured(log);
    forall j | 0 <= j < |ds|
      ensures ReadsAs(ds[j], name) <==> j == k
    {
      ReadingIsName(es[j], name);
    }
    assert OnlyReading(ds, name, k);
  }

  lemma {:induction false} AllMeasured(log: seq<EventLog>)
    ensures forall i :: 0 <= i < |MeasuredEvents(log)| ==> Measured(MeasuredEvents(log)[i])
  {
    if log != [] {
      AllMeasured(log[..|log| - 1]);
    }
  }

  lemma ReadingIsName(e: EventLog, name: Text)
    requires NoColon(e.event) && NoColon(name)
    ensures ReadsAs(BytesOf(e), name) <==> e.event == name
  {
    if ReadsAs(BytesOf(e), name) {
      var n := |name|;
      var d := BytesOf(e);
      var rest := d[6 + n..];
      assert d == Digested(e.eventType, name, rest) by {
        assert d == d[..5] + d[5..6 + n] + rest;
        assert d[..5] == TypeBytes(e.eventType) + [COLON];
      }
      ColonFreeNames(e.eventType, e.event, PayloadOf(e), name, rest);
    }
    NamedReadsAs(e);
  }

  // ---------- why one reading is needed ----------

  /** An event as a node would log it. */
  function Logged(h: Sha384, name: Text, payload: seq<byte>): EventLog {
    EventLog(RTMR3_INDEX, DSTACK_EVENT_TYPE, EventDigest(h, DSTACK_EVENT_TYPE, name, payload), name, Encode(payload))
  }

  lemma LoggedChecks(h: Sha384, name: Text, payload: seq<byte>)
    ensures CheckEvent(h, Logged(h, name, payload)).Ok? && PayloadOf(Logged(h, name, payload)) == payload
  {
    DecodeOfEncode(payload);
  }

  lemma TwoLogged(h: Sha384, a: EventLog, b: EventLog)
    requires CheckEvent(h, a).Ok? && CheckEvent(h, b).Ok? && Measured(a) && Measured(b)
    ensures MeasuredEvents([a, b]) == [a, b]
    ensures Chain(h, [a, b]) == h(h(ZERO48 + a.digest) + b.digest)
    ensures ReplayResult(h, [a, b], Chain(h, [a, b])).Ok?
    ensures forall name :: Named([a, b], name) ==
              (if a.event == name then [a] else []) + (if b.event == name then [b] else [])
  {
    assert [a, b][..1] == [a] && [a][..0] == [];
    assert MeasuredEvents([a]) == [a];
    assert Chain(h, [a]) == h(ZERO48 + a.digest);
    forall name
      ensures Named([a, b], name) == (if a.event == name then [a] else []) + (if b.event == name then [b] else [])
    {
      assert Named([a], name) == if a.event == name then [a] else [];
    }
  }

  /** Without it the register does not fix a payload: for every hash there are two logs with the same
      register value whose lookups of one name give different payloads. The first reads name `n` with payload
      `A:B`, then `n:Q` with `R`; the second `n:A` with `B`, then `n` with `Q:R`. */
  lemma OneReadingNeeded(h: Sha384)
    ensures exists log1, log2, register, name ::
              && ReplayResult(h, log1, register).Ok? && ReplayResult(h, log2, register).Ok?
              && DiffersAt(log1, log2, name)
  {
    var n: byte, a: byte, b: byte, q: byte, r: byte := 110, 65, 66, 81, 82;
    var e1, e2 := Logged(h, [n], [a, COLON, b]), Logged(h, [n, COLON, q], [r]);
    var f1, f2 := Logged(h, [n, COLON, a], [b]), Logged(h, [n], [q, COLON, r]);
    LoggedChecks(h, [n], [a, COLON, b]);
    LoggedChecks(h, [n, COLON, q], [r]);
    LoggedChecks(h, [n, COLON, a], [b]);
    LoggedChecks(h, [n], [q, COLON, r]);
    SameDigested([n], [a, COLON, b], [n, COLON, a], [b]);
    SameDigested([n, COLON, q], [r], [n], [q, COLON, r]);
    TwoLogged(h, e1, e2);
    TwoLogged(h, f1, f2);
    assert [e1] + [] == [e1] && [] + [f2] == [f2];
    assert PayloadOf(e1)[0] != PayloadOf(f2)[0];
    assert DiffersAt([e1, e2], [f1, f2], [n]);
  }

  predicate DiffersAt(log1: seq<EventLog>, log2: seq<EventLog>, name: Text) {
    var e, f := GetSingleEvent(log1, name), GetSingleEvent(log2, name);
    e.Ok? && f.Ok? && PayloadOf(e.value) != PayloadOf(f.value)
  }

  lemma SameDigested(n1: Text, p1: seq<byte>, n2: Text, p2: seq<byte>)
    requires n1 + [COLON] + p1 == n2 + [COLON] + p2
    ensures Digested(DSTACK_EVENT_TYPE, n1, p1) == Digested(DSTACK_EVENT_TYPE, n2, p2)
  {
    var t := TypeBytes(DSTACK_EVENT_TYPE) + [COLON];
    assert Digested(DSTACK_EVENT_TYPE, n1, p1) == t + (n1 + [COLON] + p1);
    assert Digested(DSTACK_EVENT_TYPE, n2, p2) == t + (n2 + [COLON] + p2);
  }
}
