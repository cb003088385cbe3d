/** The attested platform description and its conversion to and from the string form used at the
    contract's interface (attestation/src/tcb_info.rs, contract/src/dto_mapping.rs). */
module TcbInfos {
  import opened Common
  import opened Hex

  type Bytes32 = b: seq<byte> | |b| == 32 witness seq(32, _ => 0)
  type Bytes48 = b: seq<byte> | |b| == 48 witness seq(48, _ => 0)

  datatype EventLog = EventLog(imr: nat, eventType: nat, digest: Bytes48, event: Text, eventPayload: Text)

  datatype TcbInfo = TcbInfo(
    mrtd: Bytes48, rtmr0: Bytes48, rtmr1: Bytes48, rtmr2: Bytes48, rtmr3: Bytes48,
    osImageHash: Option<Bytes32>, composeHash: Bytes32, deviceId: Bytes32,
    appCompose: Text, eventLog: seq<EventLog>)

  datatype DtoEventLog = DtoEventLog(imr: nat, eventType: nat, digest: Text, event: Text, eventPayload: Text)

  datatype DtoTcbInfo = DtoTcbInfo(
    mrtd: Text, rtmr0: Text, rtmr1: Text, rtmr2: Text, rtmr3: Text,
    osImageHash: Text, composeHash: Text, deviceId: Text,
    appCompose: Text, eventLog: seq<DtoEventLog>)

  // ---------- to the interface ----------

  function EventToDto(e: EventLog): DtoEventLog {
    DtoEventLog(e.imr, e.eventType, Encode(e.digest), e.event, e.eventPayload)
  }

  function EventsToDto(es: seq<EventLog>): (r: seq<DtoEventLog>)
    ensures |r| == |es| && forall i :: 0 <= i < |es| ==> r[i] == EventToDto(es[i])
  {
    seq(|es|, i requires 0 <= i < |es| => EventToDto(es[i]))
  }

  function ToDto(t: TcbInfo): DtoTcbInfo {
    DtoTcbInfo(
      Encode(t.mrtd), Encode(t.rtmr0), Encode(t.rtmr1), Encode(t.rtmr2), Encode(t.rtmr3),
      PrintOrEmpty(t.osImageHash), Encode(t.composeHash), Encode(t.deviceId),
      t.appCompose, EventsToDto(t.eventLog))
  }

  // ---------- from the interface ----------

  function Parse48(s: Text): (r: Result<Bytes48, ParsingError>)
    ensures r == ParseHexBytes(48, s)
  {
    HexBytesRoundTrip(48, s, seq(48, _ => 0));
    ParseHexBytes(48, s)
  }

  function Parse32(s: Text): (r: Result<Bytes32, ParsingError>)
    ensures r == ParseHexBytes(32, s)
  {
    HexBytesRoundTrip(32, s, seq(32, _ => 0));
    ParseHexBytes(32, s)
  }

  function EventFromDto(e: DtoEventLog): Result<EventLog, ParsingError> {
    var digest :- Parse48(e.digest);
    Ok(EventLog(e.imr, e.eventType, digest, e.event, e.eventPayload))
  }

  /** All events, or the error of the first that does not convert. */
  function EventsFromDto(es: seq<DtoEventLog>): Result<seq<EventLog>, ParsingError> {
    if es == [] then Ok([])
    else
      var first :- EventFromDto(es[0]);
      var rest :- EventsFromDto(es[1..]);
      Ok([first] + rest)
  }

  function FromDto(d: DtoTcbInfo): Result<TcbInfo, ParsingError> {
    var eventLog :- EventsFromDto(d.eventLog);
    var osImageHash: Option<Bytes32> :- OsImageHash(d.osImageHash);
    var mrtd :- Parse48(d.mrtd);
    var rtmr0 :- Parse48(d.rtmr0);
    var rtmr1 :- Parse48(d.rtmr1);
    var rtmr2 :- Parse48(d.rtmr2);
    var rtmr3 :- Parse48(d.rtmr3);
    var composeHash :- Parse32(d.composeHash);
    var deviceId :- Parse32(d.deviceId);
    Ok(TcbInfo(mrtd, rtmr0, rtmr1, rtmr2, rtmr3, osImageHash, composeHash, deviceId, d.appCompose, eventLog))
  }

  function OsImageHash(s: Text): Result<Option<Bytes32>, ParsingError> {
    if s == [] then Ok(None)
    else
      var b :- Parse32(s);
      Ok(Some(b))
  }

  // ---------- round trips ----------

  lemma FieldRoundTrips(n: nat, b: seq<byte>)
    requires |b| == n
    ensures ParseHexBytes(n, Encode(b)) == Ok(b)
  {
    HexBytesRoundTrip(n, [], b);
  }

  lemma {:induction false} EventsRoundTrip(es: seq<EventLog>)
    ensures EventsFromDto(EventsToDto(es)) == Ok(es)
  {
    if es != [] {
      FieldRoundTrips(48, es[0].digest);
      assert EventsToDto(es)[1..] == EventsToDto(es[1..]);
      EventsRoundTrip(es[1..]);
      assert [es[0]] + es[1..] == es;
    }
  }

  /** Every description survives the trip to the interface and back. */
  lemma InternalRoundTrip(t: TcbInfo)
    ensures FromDto(ToDto(t)) == Ok(t)
  {
    EventsRoundTrip(t.eventLog);
    FieldRoundTrips(48, t.mrtd);
    FieldRoundTrips(48, t.rtmr0);
    FieldRoundTrips(48, t.rtmr1);
    FieldRoundTrips(48, t.rtmr2);
    FieldRoundTrips(48, t.rtmr3);
    if t.osImageHash.Some? { FieldRoundTrips(32, t.osImageHash.value); }
    FieldRoundTrips(32, t.composeHash);
    FieldRoundTrips(32, t.deviceId);
  }

  function LowerEvents(es: seq<DtoEventLog>): (r: seq<DtoEventLog>)
    ensures |r| == |es| && forall i :: 0 <= i < |es| ==> r[i] == es[i].(digest := Lower(es[i].digest))
  {
    seq(|es|, i requires 0 <= i < |es| => es[i].(digest := Lower(es[i].digest)))
  }

  /** The hex fields in lower case; names, payloads and the compose file as they are. */
  function LowerFields(d: DtoTcbInfo): DtoTcbInfo {
    DtoTcbInfo(
      Lower(d.mrtd), Lower(d.rtmr0), Lower(d.rtmr1), Lower(d.rtmr2), Lower(d.rtmr3),
      Lower(d.osImageHash), Lower(d.composeHash), Lower(d.deviceId),
      d.appCompose, LowerEvents(d.eventLog))
  }

  lemma FieldLowers(n: nat, s: Text)
    ensures ParseHexBytes(n, s).Ok? <==> |s| == 2 * n && AllHex(s)
    ensures ParseHexBytes(n, s).Ok? ==> Encode(ParseHexBytes(n, s).value) == Lower(s)
  {
    HexBytesRoundTrip(n, s, seq(n, _ => 0));
  }

  predicate AllDigestsHex(es: seq<DtoEventLog>) {
    forall i :: 0 <= i < |es| ==> IsHex(48, es[i].digest)
  }

  lemma AllDigestsHexTail(es: seq<DtoEventLog>)
    requires es != []
    ensures AllDigestsHex(es) <==> IsHex(48, es[0].digest) && AllDigestsHex(es[1..])
  {
  }

  lemma {:induction false} EventsAccepted(es: seq<DtoEventLog>)
    ensures EventsFromDto(es).Ok? <==> AllDigestsHex(es)
  {
    if es != [] {
      FieldLowers(48, es[0].digest);
      AllDigestsHexTail(es);
      EventsAccepted(es[1..]);
    }
  }

  lemma {:induction false} EventsLower(es: seq<DtoEventLog>)
    requires EventsFromDto(es).Ok?
    ensures EventsToDto(EventsFromDto(es).value) == LowerEvents(es)
  {
    if es != [] {
      FieldLowers(48, es[0].digest);
      EventsLower(es[1..]);
      var r := EventsFromDto(es).value;
      assert r[1..] == EventsFromDto(es[1..]).value;
      assert EventsToDto(r) == [EventToDto(r[0])] + EventsToDto(r[1..]);
      assert LowerEvents(es) == [es[0].(digest := Lower(es[0].digest))] + LowerEvents(es[1..]);
    }
  }

  /** All hex fields are of the right length and contain only hex digits; a missing image hash is
      empty. */
  predicate Convertible(d: DtoTcbInfo) {
    && IsHex(48, d.mrtd) && IsHex(48, d.rtmr0) && IsHex(48, d.rtmr1) && IsHex(48, d.rtmr2) && IsHex(48, d.rtmr3)
    && (d.osImageHash == [] || IsHex(32, d.osImageHash)) && IsHex(32, d.composeHash) && IsHex(32, d.deviceId)
    && AllDigestsHex(d.eventLog)
  }

  predicate IsHex(n: nat, s: Text) { |s| == 2 * n && AllHex(s) }

  lemma InterfaceAccepts(d: DtoTcbInfo)
    ensures FromDto(d).Ok? <==> Convertible(d)
  {
    EventsAccepted(d.eventLog);
    FieldLowers(48, d.mrtd);
    FieldLowers(48, d.rtmr0);
    FieldLowers(48, d.rtmr1);
    FieldLowers(48, d.rtmr2);
    FieldLowers(48, d.rtmr3);
    FieldLowers(32, d.osImageHash);
    FieldLowers(32, d.composeHash);
    FieldLowers(32, d.deviceId);
  }

  /** A description given at the interface converts exactly when its fields are well formed, and comes
      back changed in the letter case of the hex fields only. */
  lemma InterfaceRoundTrip(d: DtoTcbInfo)
    ensures FromDto(d).Ok? <==> Convertible(d)
    ensures FromDto(d).Ok? ==> ToDto(FromDto(d).value) == LowerFields(d)
  {
    InterfaceAccepts(d);
    if FromDto(d).Ok? {
      EventsLower(d.eventLog);
      FieldLowers(48, d.mrtd);
      FieldLowers(48, d.rtmr0);
      FieldLowers(48, d.rtmr1);
      FieldLowers(48, d.rtmr2);
      FieldLowers(48, d.rtmr3);
      FieldLowers(32, d.osImageHash);
      FieldLowers(32, d.composeHash);
      FieldLowers(32, d.deviceId);
      assert Lower([]) == [];
    }
  }
}
