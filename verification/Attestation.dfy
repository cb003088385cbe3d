/** Verifying an attestation, and verifying a stored one again later (attestation/src/attestation.rs and
    mpc-attestation/src/attestation.rs). Hash functions, quote verification and JSON parsing are
    parameters. */
module Attestation {
  import opened Common
  import opened Hex
  import opened TcbInfos
  import opened Replay

  const DEFAULT_EXPIRATION_DURATION_SECONDS: nat := 604800
  const EXPECTED_QUOTE_STATUS := "UpToDate"
  const MPC_IMAGE_HASH_EVENT := Ascii("mpc-image-digest")
  const COMPOSE_HASH_EVENT := Ascii("compose-hash")
  const KEY_PROVIDER_EVENT := Ascii("key-provider")

  function Ascii(s: string): Text {
    seq(|s|, i requires 0 <= i < |s| => s[i] as int % 256)
  }

  datatype Report = Report(reportData: seq<byte>, mrTd: Bytes48, rtMr0: Bytes48, rtMr1: Bytes48, rtMr2: Bytes48,
                           rtMr3: Bytes48)

  /** `td10` is the report if it is a TDX 1.0 report. */
  datatype VerifiedReport = VerifiedReport(td10: Option<Report>, status: string, advisoryIds: seq<string>)

  datatype AppCompose = AppCompose(
    manifestVersion: nat, runner: string, dockerComposeFile: Text, kmsEnabled: bool, gatewayEnabled: Option<bool>,
    publicLogs: bool, publicSysinfo: bool, localKeyProviderEnabled: bool, allowedEnvs: seq<string>,
    noInstanceId: bool, preLaunchScript: Option<string>)

  datatype Measurements = Measurements(mrtd: Bytes48, rtmr0: Bytes48, rtmr1: Bytes48, rtmr2: Bytes48)
  datatype ExpectedMeasurements = ExpectedMeasurements(rtmrs: Measurements, keyProviderEventDigest: Bytes48)

  datatype Libraries = Libraries(
    sha384: Sha384,
    sha256: seq<byte> -> Bytes32,
    parseAppCompose: Text -> Option<AppCompose>,
    verifyQuote: (seq<byte>, seq<byte>, nat) -> Option<VerifiedReport>)

  datatype DstackAttestation = DstackAttestation(quote: seq<byte>, collateral: seq<byte>, tcbInfo: TcbInfo)

  datatype MockAttestation =
    | Valid
    | Invalid
    | WithConstraints(mpcImageHash: Option<Bytes32>, launcherComposeHash: Option<Bytes32>, expiry: Option<nat>)

  datatype Attestation = Dstack(dstack: DstackAttestation) | Mock(mock: MockAttestation)

  datatype VerifiedAttestation =
    | VerifiedDstack(mpcImageHash: Bytes32, launcherComposeHash: Bytes32, expiry: nat)
    | VerifiedMock(mock: MockAttestation)

  type Check = Result<Unit, VerificationError>

  function Require(condition: bool, e: VerificationError): Check {
    if condition then Ok(Unit.Unit) else Err(e)
  }

  function CompareHashes(name: string, found: seq<byte>, expected: seq<byte>): Check {
    Require(found == expected, WrongHash(name))
  }

  // ---------- the parts of a Dstack verification ----------

  predicate ValidAppComposeConfig(c: AppCompose) {
    c.manifestVersion == 2 && c.runner == "docker-compose" && !c.kmsEnabled && c.gatewayEnabled == Some(false) &&
    c.publicLogs && c.publicSysinfo && c.localKeyProviderEnabled && c.allowedEnvs == [] && c.noInstanceId &&
    c.preLaunchScript.None?
  }

  function ValidateAppComposePayload(l: Libraries, payload: Text, appCompose: Text): Check {
    match Decode(payload)
    case Err(_) => Err(AppComposeEventPayloadNotHex(payload))
    case Ok(bytes) =>
      if |bytes| != 32 then Err(AppComposeEventPayloadWrongSize(|bytes|))
      else CompareHashes("app_compose_payload", l.sha256(appCompose), bytes)
  }

  function VerifyAppCompose(l: Libraries, tcb: TcbInfo): Check {
    var parsed := l.parseAppCompose(tcb.appCompose);
    if parsed.None? then Err(AppComposeParsing)
    else
      var _ :- Require(ValidAppComposeConfig(parsed.value), InvalidAppComposeConfig);
      var event :- GetSingleEvent(tcb.eventLog, COMPOSE_HASH_EVENT);
      var _ :- CompareHashes("app_compose_event_hash", event.eventPayload, Encode(tcb.composeHash));
      ValidateAppComposePayload(l, event.eventPayload, tcb.appCompose)
  }

  function VerifyTcbStatus(v: VerifiedReport): Check {
    var _ :- Require(v.status == EXPECTED_QUOTE_STATUS, TcbStatusNotUpToDate);
    Require(v.advisoryIds == [], NonEmptyAdvisoryIds)
  }

  function VerifyStaticRtmrs(r: Report, tcb: TcbInfo, m: Measurements): Check {
    var _ :- CompareHashes("rtmr0_report_data", r.rtMr0, m.rtmr0);
    var _ :- CompareHashes("rtmr1_report_data", r.rtMr1, m.rtmr1);
    var _ :- CompareHashes("rtmr2_report_data", r.rtMr2, m.rtmr2);
    var _ :- CompareHashes("mrtd_report_data", r.mrTd, m.mrtd);
    var _ :- CompareHashes("rtmr0_tcb_info", tcb.rtmr0, m.rtmr0);
    var _ :- CompareHashes("rtmr1_tcb_info", tcb.rtmr1, m.rtmr1);
    var _ :- CompareHashes("rtmr2_tcb_info", tcb.rtmr2, m.rtmr2);
    CompareHashes("mtrd_tcb_info", tcb.mrtd, m.mrtd)
  }

  function VerifyKeyProviderDigest(tcb: TcbInfo, expected: Bytes48): Check {
    var event :- GetSingleEvent(tcb.eventLog, KEY_PROVIDER_EVENT);
    CompareHashes("key_provider", event.digest, expected)
  }

  /** Report and TCB info agree with each other on the static registers. */
  predicate Agree(r: Report, tcb: TcbInfo) {
    r.rtMr0 == tcb.rtmr0 && r.rtMr1 == tcb.rtmr1 && r.rtMr2 == tcb.rtmr2 && r.mrTd == tcb.mrtd
  }

  /** The measurement set that this report and event log would satisfy. */
  function MeasuredSet(r: Report, keyProvider: EventLog): ExpectedMeasurements {
    ExpectedMeasurements(Measurements(r.mrTd, r.rtMr0, r.rtMr1, r.rtMr2), keyProvider.digest)
  }

  predicate AnyMeasurements(r: Report, tcb: TcbInfo, accepted: seq<ExpectedMeasurements>) {
    Agree(r, tcb) &&
    var event := GetSingleEvent(tcb.eventLog, KEY_PROVIDER_EVENT);
    event.Ok? && MeasuredSet(r, event.value) in accepted
  }

  const NoneMatched: VerificationError := WrongHash("expected_measurements")

  /** Some accepted set matches exactly when report and TCB info agree and what they measured is among the
      accepted sets. */
  method VerifyAnyMeasurements(r: Report, tcb: TcbInfo, accepted: seq<ExpectedMeasurements>) returns (c: Check)
    ensures c == Require(AnyMeasurements(r, tcb, accepted), NoneMatched)
  {
    for i := 0 to |accepted|
      invariant !AnyMeasurements(r, tcb, accepted[..i])
    {
      var expected := accepted[i];
      assert accepted[..i + 1] == accepted[..i] + [expected];
      if VerifyStaticRtmrs(r, tcb, expected.rtmrs).Ok?
        && VerifyKeyProviderDigest(tcb, expected.keyProviderEventDigest).Ok? {
        return Ok(Unit.Unit);
      }
    }
    assert accepted[..|accepted|] == accepted;
    return Err(NoneMatched);
  }

  /** What a successful app-compose check amounts to. */
  ghost predicate AppComposeHolds(l: Libraries, tcb: TcbInfo) {
    var parsed := l.parseAppCompose(tcb.appCompose);
    var event := GetSingleEvent(tcb.eventLog, COMPOSE_HASH_EVENT);
    parsed.Some? && ValidAppComposeConfig(parsed.value) && event.Ok? &&
    Decode(event.value.eventPayload) == Ok(l.sha256(tcb.appCompose))
      && Encode(tcb.composeHash) == event.value.eventPayload
  }

  /** The app-compose check passes exactly when the measured payload decodes to the hash of the
      app-compose text. Its payload is then written like `composeHash`, so the errors about a payload that
      is not hex or not 32 bytes long never occur. */
  lemma VerifyAppComposeIff(l: Libraries, tcb: TcbInfo)
    ensures VerifyAppCompose(l, tcb).Ok? <==> AppComposeHolds(l, tcb)
    ensures AppComposeHolds(l, tcb) ==> tcb.composeHash == l.sha256(tcb.appCompose)
    ensures VerifyAppCompose(l, tcb).Err? ==>
              !VerifyAppCompose(l, tcb).error.AppComposeEventPayloadNotHex? &&
              !VerifyAppCompose(l, tcb).error.AppComposeEventPayloadWrongSize?
  {
    DecodeOfEncode(tcb.composeHash);
    SingleEventError(tcb.eventLog, COMPOSE_HASH_EVENT);
  }

  lemma SingleEventError(log: seq<EventLog>, name: Text)
    ensures GetSingleEvent(log, name).Err? ==>
              GetSingleEvent(log, name).error.MissingEvent? || GetSingleEvent(log, name).error.DuplicateEvent?
  {
  }

  // ---------- the whole Dstack verification ----------

  /** What the quote says of this attestation at this time. */
  function QuoteReport(l: Libraries, a: DstackAttestation, time: nat): Option<VerifiedReport> {
    l.verifyQuote(a.quote, a.collateral, time)
  }

  ghost predicate Genuine(l: Libraries, a: DstackAttestation, reportData: seq<byte>, time: nat,
                          accepted: seq<ExpectedMeasurements>) {
    var quote := QuoteReport(l, a, time);
    quote.Some? && quote.value.td10.Some? && GenuineReport(l, a.tcbInfo, quote.value, reportData, accepted)
  }

  ghost predicate GenuineReport(l: Libraries, tcb: TcbInfo, v: VerifiedReport, reportData: seq<byte>,
                                accepted: seq<ExpectedMeasurements>)
    requires v.td10.Some?
  {
    var r := v.td10.value;
    v.status == EXPECTED_QUOTE_STATUS && v.advisoryIds == [] && r.reportData == reportData &&
    tcb.rtmr3 == r.rtMr3 && ReplaysTo(l.sha384, tcb.eventLog, r.rtMr3) && AppComposeHolds(l, tcb) &&
    AnyMeasurements(r, tcb, accepted)
  }

  function VerifyReport(l: Libraries, tcb: TcbInfo, v: VerifiedReport, r: Report, reportData: seq<byte>,
                        accepted: seq<ExpectedMeasurements>): Check
  {
    var _ :- VerifyTcbStatus(v);
    var _ :- CompareHashes("report_data", r.reportData, reportData);
    var _ :- CompareHashes("rtmr3", tcb.rtmr3, r.rtMr3);
    var _ :- ReplayResult(l.sha384, tcb.eventLog, r.rtMr3);
    var _ :- VerifyAppCompose(l, tcb);
    Require(AnyMeasurements(r, tcb, accepted), NoneMatched)
  }

  function DstackResult(l: Libraries, a: DstackAttestation, reportData: seq<byte>, time: nat,
                        accepted: seq<ExpectedMeasurements>): (c: Check)
    ensures c.Ok? <==> Genuine(l, a, reportData, time, accepted)
  {
    var quote := QuoteReport(l, a, time);
    if quote.None? then Err(DcapVerification)
    else if quote.value.td10.None? then Err(ReportNotTd10)
    else
      VerifyAppComposeIff(l, a.tcbInfo);
      VerifyReport(l, a.tcbInfo, quote.value, quote.value.td10.value, reportData, accepted)
  }

  method VerifyDstack(l: Libraries, a: DstackAttestation, reportData: seq<byte>, time: nat,
                      accepted: seq<ExpectedMeasurements>) returns (c: Check)
    ensures c == DstackResult(l, a, reportData, time, accepted)
    ensures c.Ok? <==> Genuine(l, a, reportData, time, accepted)
  {
    var quote := QuoteReport(l, a, time);
    if quote.None? {
      return Err(DcapVerification);
    }
    if quote.value.td10.None? {
      return Err(ReportNotTd10);
    }
    var r := quote.value.td10.value;
    var _ :- VerifyTcbStatus(quote.value);
    var _ :- CompareHashes("report_data", r.reportData, reportData);
    var _ :- CompareHashes("rtmr3", a.tcbInfo.rtmr3, r.rtMr3);
    var _ :- VerifyEventLogRtmr3(l.sha384, a.tcbInfo.eventLog, r.rtMr3);
    var _ :- VerifyAppCompose(l, a.tcbInfo);
    c := VerifyAnyMeasurements(r, a.tcbInfo, accepted);
  }

  // ---------- attestations ----------

  /** The hash is in the list; an empty list is reported differently. */
  function VerifyHash(name: string, hash: Bytes32, allowed: seq<Bytes32>): (c: Check)
    ensures c.Ok? <==> hash in allowed
  {
    if allowed == [] then Err(Custom("the allowed " + name + " list is empty"))
    else Require(hash in allowed, Custom(name + " not allowed"))
  }

  function VerifyOptional(name: string, hash: Option<Bytes32>, allowed: seq<Bytes32>): Check {
    if hash.None? then Ok(Unit.Unit) else VerifyHash(name, hash.value, allowed)
  }

  function VerifyMock(m: MockAttestation, images: seq<Bytes32>, launchers: seq<Bytes32>, time: nat): Check {
    match m
    case Valid => Ok(Unit.Unit)
    case Invalid => Err(InvalidMockAttestation)
    case WithConstraints(image, launcher, expiry) =>
      var _ :- VerifyOptional("mpc image hashes", image, images);
      var _ :- VerifyOptional("launcher compose hashes", launcher, launchers);
      if expiry.None? then Ok(Unit.Unit) else Require(time < expiry.value, ExpiredCertificate(time, expiry.value))
  }

  /** The image hash measured into RTMR3. */
  function ImageHash(tcb: TcbInfo): Result<Bytes32, VerificationError> {
    var event :- GetSingleEvent(tcb.eventLog, MPC_IMAGE_HASH_EVENT);
    match Decode(event.eventPayload)
    case Err(_) => Err(Custom("provided mpc image is not hex encoded"))
    case Ok(bytes) =>
      if |bytes| != 32 then Err(Custom("The provided MPC image hash is not 32 bytes"))
      else
        var hash: Bytes32 := bytes;
        Ok(hash)
  }

  function LauncherHash(l: Libraries, tcb: TcbInfo): Result<Bytes32, VerificationError> {
    var parsed := l.parseAppCompose(tcb.appCompose);
    if parsed.None? then Err(AppComposeParsing) else Ok(l.sha256(parsed.value.dockerComposeFile))
  }

  /** The verified form of a Dstack attestation whose verification came out as `checked`. */
  function Accepted(image: Bytes32, launcher: Bytes32, time: nat,
                    checked: Check): Result<VerifiedAttestation, VerificationError>
  {
    var _ :- checked;
    if time + DEFAULT_EXPIRATION_DURATION_SECONDS > U64_MAX then Err(Overflow)
    else Ok(VerifiedDstack(image, launcher, time + DEFAULT_EXPIRATION_DURATION_SECONDS))
  }

  function VerifyResult(l: Libraries, a: Attestation, reportData: seq<byte>, time: nat, images: seq<Bytes32>,
                        launchers: seq<Bytes32>,
                        accepted: seq<ExpectedMeasurements>): Result<VerifiedAttestation, VerificationError>
  {
    match a
    case Dstack(d) =>
      var image :- ImageHash(d.tcbInfo);
      var _ :- VerifyHash("mpc image hashes", image, images);
      var launcher :- LauncherHash(l, d.tcbInfo);
      var _ :- VerifyHash("mpc launcher compose hashes", launcher, launchers);
      Accepted(image, launcher, time, DstackResult(l, d, reportData, time, accepted))
    case Mock(m) =>
      var _ :- VerifyMock(m, images, launchers, time);
      Ok(VerifiedMock(m))
  }

  /** `v` is what is stored of a genuine attestation with allowed hashes: the measured image hash, the hash
      of the launched compose file and a week from now. */
  ghost predicate Acceptable(l: Libraries, d: DstackAttestation, reportData: seq<byte>, time: nat, images: seq<Bytes32>,
                             launchers: seq<Bytes32>, accepted: seq<ExpectedMeasurements>, v: VerifiedAttestation) {
    Genuine(l, d, reportData, time, accepted) && v.VerifiedDstack? && v.expiry == time + 604800 <= U64_MAX &&
    ImageHash(d.tcbInfo) == Ok(v.mpcImageHash) && v.mpcImageHash in images &&
    LauncherHash(l, d.tcbInfo) == Ok(v.launcherComposeHash) && v.launcherComposeHash in launchers
  }

  /** Each constraint that the mock sets holds. */
  predicate MockHolds(m: MockAttestation, images: seq<Bytes32>, launchers: seq<Bytes32>, time: nat) {
    m.Valid? ||
    (m.WithConstraints? && (m.mpcImageHash.Some? ==> m.mpcImageHash.value in images) &&
     (m.launcherComposeHash.Some? ==> m.launcherComposeHash.value in launchers) &&
     (m.expiry.Some? ==> time < m.expiry.value))
  }

  method Verify(l: Libraries, a: Attestation, reportData: seq<byte>, time: nat, images: seq<Bytes32>,
                launchers: seq<Bytes32>, accepted: seq<ExpectedMeasurements>)
    returns (r: Result<VerifiedAttestation, VerificationError>)
    ensures r == VerifyResult(l, a, reportData, time, images, launchers, accepted)
    ensures match a
            case Dstack(d) =>
              && (r.Ok? ==> Acceptable(l, d, reportData, time, images, launchers, accepted, r.value))
              && (r.Err? ==> forall v :: !Acceptable(l, d, reportData, time, images, launchers, accepted, v))
            case Mock(m) => if MockHolds(m, images, launchers, time) then r == Ok(VerifiedMock(m)) else r.Err?
  {
    match a {
      case Dstack(d) =>
        var image :- ImageHash(d.tcbInfo);
        var _ :- VerifyHash("mpc image hashes", image, images);
        var launcher :- LauncherHash(l, d.tcbInfo);
        var _ :- VerifyHash("mpc launcher compose hashes", launcher, launchers);
        var checked := VerifyDstack(l, d, reportData, time, accepted);
        r := Accepted(image, launcher, time, checked);
      case Mock(m) =>
        var _ :- VerifyMock(m, images, launchers, time);
        r := Ok(VerifiedMock(m));
    }
  }

  function ReVerify(v: VerifiedAttestation, time: nat, images: seq<Bytes32>, launchers: seq<Bytes32>): Check {
    match v
    case VerifiedDstack(image, launcher, expiry) =>
      var _ :- Require(time <= expiry, Custom("The attestation expired"));
      var _ :- VerifyHash("mpc image hashes", image, images);
      VerifyHash("mpc launcher compose hashes", launcher, launchers)
    case VerifiedMock(m) => VerifyMock(m, images, launchers, time)
  }

  // ---------- verification and re-verification ----------

  /** A Dstack attestation is accepted exactly when it is genuine, its two hashes are allowed and its
      expiry time can be written down; what is stored are the measured image hash, the hash of the launched
      compose file and a week from now. */
  lemma VerifyDstackIff(l: Libraries, d: DstackAttestation, reportData: seq<byte>, time: nat, images: seq<Bytes32>,
                        launchers: seq<Bytes32>, accepted: seq<ExpectedMeasurements>, v: VerifiedAttestation)
    ensures VerifyResult(l, Dstack(d), reportData, time, images, launchers, accepted) == Ok(v) <==>
            Acceptable(l, d, reportData, time, images, launchers, accepted, v)
  {
  }

  /** A stored Dstack attestation stays valid for exactly one week, whatever the lists become, and only
      while both of its hashes are on the current lists. */
  lemma ReVerifiesForAWeek(l: Libraries, d: DstackAttestation, reportData: seq<byte>, time: nat, images: seq<Bytes32>,
                           launchers: seq<Bytes32>, accepted: seq<ExpectedMeasurements>, v: VerifiedAttestation,
                           later: nat, images': seq<Bytes32>, launchers': seq<Bytes32>)
    requires VerifyResult(l, Dstack(d), reportData, time, images, launchers, accepted) == Ok(v)
    ensures ReVerify(v, later, images', launchers').Ok? <==>
            later <= time + 604800 && ImageHash(d.tcbInfo).value in images'
              && LauncherHash(l, d.tcbInfo).value in launchers'
  {
    VerifyDstackIff(l, d, reportData, time, images, launchers, accepted, v);
  }

  /** A mock attestation passes exactly when each constraint that it sets holds. Its expiry time is the
      first at which it fails, while a stored Dstack attestation still passes at its expiry time. */
  lemma VerifyMockIff(m: MockAttestation, images: seq<Bytes32>, launchers: seq<Bytes32>, time: nat)
    ensures VerifyMock(m, images, launchers, time).Ok? <==> MockHolds(m, images, launchers, time)
  {
  }

  /** What was just accepted passes re-verification under the same inputs, for both kinds. */
  lemma AcceptedReVerifies(l: Libraries, a: Attestation, reportData: seq<byte>, time: nat, images: seq<Bytes32>,
                           launchers: seq<Bytes32>, accepted: seq<ExpectedMeasurements>)
    requires VerifyResult(l, a, reportData, time, images, launchers, accepted).Ok?
    ensures
      ReVerify(VerifyResult(l, a, reportData, time, images, launchers, accepted).value, time, images, launchers).Ok?
  {
    var v := VerifyResult(l, a, reportData, time, images, launchers, accepted).value;
    match a
    case Dstack(d) => VerifyDstackIff(l, d, reportData, time, images, launchers, accepted, v);
    case Mock(m) =>
  }

  /** Lists that only grow and a clock that only runs backwards never invalidate a stored attestation. So
      one that fails re-verification has run out of time or lost a hash from its list. */
  lemma ReVerifyMonotone(v: VerifiedAttestation, time: nat, images: seq<Bytes32>, launchers: seq<Bytes32>,
                         earlier: nat, images': seq<Bytes32>, launchers': seq<Bytes32>)
    requires ReVerify(v, time, images, launchers).Ok? && earlier <= time
    requires (forall h :: h in images ==> h in images') && (forall h :: h in launchers ==> h in launchers')
    ensures ReVerify(v, earlier, images', launchers').Ok?
  {
  }

  // ---------- what the outcome depends on ----------

  /** Verification sees the event log only through its RTMR3 events: adding, removing or moving any others
      changes nothing, not even the error. */
  lemma OnlyMeasuredEventsMatter(l: Libraries, d: DstackAttestation, log: seq<EventLog>, reportData: seq<byte>,
                                 time: nat,
                                 images: seq<Bytes32>, launchers: seq<Bytes32>, accepted: seq<ExpectedMeasurements>)
    requires MeasuredEvents(log) == MeasuredEvents(d.tcbInfo.eventLog)
    ensures VerifyResult(l, Dstack(d.(tcbInfo := d.tcbInfo.(eventLog := log))), reportData, time, images, launchers,
            accepted)
            == VerifyResult(l, Dstack(d), reportData, time, images, launchers, accepted)
  {
    var tcb := d.tcbInfo;
    var tcb' := tcb.(eventLog := log);
    SameLookups(tcb, log);
    assert ImageHash(tcb') == ImageHash(tcb) && LauncherHash(l, tcb') == LauncherHash(l, tcb);
    SameDstackResult(l, d, log, reportData, time, accepted);
  }

  lemma SameLookups(tcb: TcbInfo, log: seq<EventLog>)
    requires MeasuredEvents(log) == MeasuredEvents(tcb.eventLog)
    ensures forall name :: GetSingleEvent(log, name) == GetSingleEvent(tcb.eventLog, name)
  {
    forall name ensures GetSingleEvent(log, name) == GetSingleEvent(tcb.eventLog, name) {
      NamedOfMeasured(log, name);
      NamedOfMeasured(tcb.eventLog, name);
    }
  }

  lemma SameDstackResult(l: Libraries, d: DstackAttestation, log: seq<EventLog>, reportData: seq<byte>, time: nat,
                         accepted: seq<ExpectedMeasurements>)
    requires MeasuredEvents(log) == MeasuredEvents(d.tcbInfo.eventLog)
    ensures DstackResult(l, d.(tcbInfo := d.tcbInfo.(eventLog := log)), reportData, time, accepted)
            == DstackResult(l, d, reportData, time, accepted)
  {
    var tcb := d.tcbInfo;
    var tcb' := tcb.(eventLog := log);
    SameLookups(tcb, log);
    assert VerifyAppCompose(l, tcb') == VerifyAppCompose(l, tcb);
  }

  // ---------- what the register binds ----------

  predicate Collides256(l: Libraries, x: seq<byte>, y: seq<byte>) { x != y && l.sha256(x) == l.sha256(y) }

  /** The names that are looked up are unambiguous in this log. */
  predicate Unambiguous(log: seq<EventLog>) {
    OneReading(MeasuredEvents(log), MPC_IMAGE_HASH_EVENT) && OneReading(MeasuredEvents(log), COMPOSE_HASH_EVENT)
  }

  /** What acceptance says of a Dstack attestation and its stored form, given the register it reported. */
  ghost predicate Identified(l: Libraries, d: DstackAttestation, register: Bytes48, v: VerifiedAttestation) {
    ReplaysTo(l.sha384, d.tcbInfo.eventLog, register) && AppComposeHolds(l, d.tcbInfo) && v.VerifiedDstack? &&
    ImageHash(d.tcbInfo) == Ok(v.mpcImageHash) && LauncherHash(l, d.tcbInfo) == Ok(v.launcherComposeHash)
  }

  ghost predicate SameIdentity(a: DstackAttestation, b: DstackAttestation, va: VerifiedAttestation,
                               vb: VerifiedAttestation)
    requires va.VerifiedDstack? && vb.VerifiedDstack?
  {
    a.tcbInfo.appCompose == b.tcbInfo.appCompose && va.mpcImageHash == vb.mpcImageHash &&
    va.launcherComposeHash == vb.launcherComposeHash
  }

  lemma IdentityBound(l: Libraries, a: DstackAttestation, b: DstackAttestation, register: Bytes48,
                      va: VerifiedAttestation,
                      vb: VerifiedAttestation) returns (x: seq<byte>, y: seq<byte>)
    requires Identified(l, a, register, va) && Identified(l, b, register, vb) && Unambiguous(a.tcbInfo.eventLog)
    ensures SameIdentity(a, b, va, vb) || Broken(l.sha384, x, y) || Collides256(l, x, y)
  {
    var log1, log2 := a.tcbInfo.eventLog, b.tcbInfo.eventLog;
    x, y := RegisterFixesPayload(l.sha384, log1, log2, register, MPC_IMAGE_HASH_EVENT);
    if !Broken(l.sha384, x, y) {
      x, y := RegisterFixesPayload(l.sha384, log1, log2, register, COMPOSE_HASH_EVENT);
      if !Broken(l.sha384, x, y) {
        x, y := a.tcbInfo.appCompose, b.tcbInfo.appCompose;
      }
    }
  }

  /** The RTMR3 value in the quote. */
  function ReportedRegister(l: Libraries, d: DstackAttestation, time: nat): Option<Bytes48> {
    var quote := QuoteReport(l, d, time);
    if quote.Some? && quote.value.td10.Some? then Some(quote.value.td10.value.rtMr3) else None
  }

  /** The inputs of one verification besides the attestation. */
  datatype Policy = Policy(reportData: seq<byte>, time: nat, images: seq<Bytes32>, launchers: seq<Bytes32>,
                           accepted: seq<ExpectedMeasurements>)

  function VerifyUnder(l: Libraries, d: DstackAttestation, p: Policy): Result<VerifiedAttestation, VerificationError> {
    VerifyResult(l, Dstack(d), p.reportData, p.time, p.images, p.launchers, p.accepted)
  }

  /** Two attestations accepted at any times and under any policies, whose quotes report the same RTMR3
      value, were made with the same app-compose text and are stored with the same image and launcher
      hashes, or else one of the hash functions is broken by strings found in them. It is enough that one of
      the two logs is unambiguous. */
  lemma RegisterBindsIdentity(l: Libraries, a: DstackAttestation, b: DstackAttestation, p: Policy, q: Policy)
    returns (x: seq<byte>, y: seq<byte>)
    requires VerifyUnder(l, a, p).Ok? && VerifyUnder(l, b, q).Ok?
    requires ReportedRegister(l, a, p.time) == ReportedRegister(l, b, q.time) && Unambiguous(a.tcbInfo.eventLog)
    ensures VerifyUnder(l, a, p).value.VerifiedDstack? && VerifyUnder(l, b, q).value.VerifiedDstack?
    ensures SameIdentity(a, b, VerifyUnder(l, a, p).value, VerifyUnder(l, b, q).value) ||
            Broken(l.sha384, x, y) || Collides256(l, x, y)
  {
    var va, vb := VerifyUnder(l, a, p).value, VerifyUnder(l, b, q).value;
    AcceptedIsIdentified(l, a, p);
    AcceptedIsIdentified(l, b, q);
    x, y := IdentityBound(l, a, b, ReportedRegister(l, a, p.time).value, va, vb);
  }

  lemma AcceptedIsIdentified(l: Libraries, d: DstackAttestation, p: Policy)
    requires VerifyUnder(l, d, p).Ok?
    ensures ReportedRegister(l, d, p.time).Some?
    ensures Identified(l, d, ReportedRegister(l, d, p.time).value, VerifyUnder(l, d, p).value)
  {
    VerifyDstackIff(l, d, p.reportData, p.time, p.images, p.launchers, p.accepted, VerifyUnder(l, d, p).value);
  }
}
