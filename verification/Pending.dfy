/** Pending requests and the host's yield/resume mechanism, for signature, key-derivation and
    foreign-transaction requests alike: three maps in the contract with the same handling (lib.rs,
    `sign`, `respond`, `return_signature_and_clean_state_on_success` and their twins). The host's
    side is modelled by the status of each yielded promise. */
module Pending {
  import opened Common

  type YieldId = nat

  /** `Expired`: the timeout has struck but the callback has not run yet; resuming it then has no
      effect. `Returned` and `Failed`: the callback has run. */
  datatype Status<Resp> = Waiting | Expired | Resumed(resp: Resp) | Returned(resp: Resp) | Failed

  datatype Yield<Req, Resp> = Yield(request: Req, status: Status<Resp>)

  datatype State<Req, Resp> = State(pending: map<Req, YieldId>, promises: map<YieldId, Yield<Req, Resp>>)

  /** `id` of a request is the host's fresh data id; `accepted` is the verdict of all the checks made
      before the lookup, including that of the signature. */
  datatype Event<Req, Resp> =
    | Request(req: Req, id: YieldId)
    | Respond(req: Req, resp: Resp, accepted: bool)
    | Timeout(id: YieldId)
    | Callback(id: YieldId)

  datatype Outcome<Resp> =
    | Rejected
    | Issued
    | Resumption(id: YieldId)
    | TooLate(id: YieldId)
    | Struck
    | Success(resp: Resp)
    | TimedOut

  function Step<Req(==), Resp>(s: State<Req, Resp>, e: Event<Req, Resp>): (State<Req, Resp>, Outcome<Resp>) {
    match e
    case Request(req, id) =>
      if id in s.promises then (s, Rejected)
      else (State(s.pending[req := id], s.promises[id := Yield(req, Waiting)]), Issued)
    case Respond(req, resp, accepted) =>
      if !accepted || req !in s.pending then (s, Rejected)
      else
        var id := s.pending[req];
        var pending := s.pending - {req};
        if id in s.promises && s.promises[id].status.Waiting?
        then (State(pending, s.promises[id := s.promises[id].(status := Status.Resumed(resp))]), Resumption(id))
        else (State(pending, s.promises), TooLate(id))
    case Timeout(id) =>
      if id in s.promises && s.promises[id].status.Waiting?
      then (s.(promises := s.promises[id := s.promises[id].(status := Expired)]), Struck)
      else (s, Rejected)
    case Callback(id) =>
      if id !in s.promises then (s, Rejected)
      else
        var y := s.promises[id];
        match y.status
        case Resumed(resp) => (s.(promises := s.promises[id := y.(status := Returned(resp))]), Success(resp))
        case Expired => (State(s.pending - {y.request}, s.promises[id := y.(status := Failed)]), TimedOut)
        case _ => (s, Rejected)
  }

  function Empty<Req(==), Resp>(): State<Req, Resp> { State(map[], map[]) }

  function End<Req(==), Resp>(es: seq<Event<Req, Resp>>): State<Req, Resp>
    decreases |es|
  {
    if es == [] then Empty() else Step(End(es[..|es| - 1]), es[|es| - 1]).0
  }

  function Outcomes<Req(==), Resp>(es: seq<Event<Req, Resp>>): (outs: seq<Outcome<Resp>>)
    ensures |outs| == |es|
    decreases |es|
  {
    if es == [] then [] else Outcomes(es[..|es| - 1]) + [Step(End(es[..|es| - 1]), es[|es| - 1]).1]
  }

  /** The contract's map, beside the host's promises that it cannot see. */
  class PendingRequests<Req(==), Resp> {
    var pending: map<Req, YieldId>
    ghost var promises: map<YieldId, Yield<Req, Resp>>

    ghost function View(): State<Req, Resp>
      reads this
    {
      State(pending, promises)
    }

    constructor ()
      ensures View() == Empty()
    {
      pending, promises := map[], map[];
    }

    /** `sign`, once its checks have passed: the host has just created promise `id`. */
    method Add(req: Req, id: YieldId) returns (overridden: bool)
      requires id !in promises
      modifies this
      ensures View() == Step(old(View()), Request(req, id)).0
      ensures overridden <==> req in old(pending)
    {
      overridden := req in pending;
      pending := pending[req := id];
      promises := promises[id := Yield(req, Waiting)];
    }

    /** `respond`: takes the entry out and tells the host which promise to resume. */
    method Answer(req: Req, resp: Resp, accepted: bool) returns (resumed: Option<YieldId>)
      modifies this
      ensures View() == Step(old(View()), Event.Respond(req, resp, accepted)).0
      ensures resumed == if accepted && req in old(pending) then Some(old(pending)[req]) else None
    {
      if !accepted || req !in pending { return None; }
      var id := pending[req];
      pending := pending - {req};
      if id in promises && promises[id].status.Waiting? {
        promises := promises[id := promises[id].(status := Status.Resumed(resp))];
      }
      resumed := Some(id);
    }

    /** The callback of promise `id`, made for `req`: the response, or `None` on a timeout. */
    method Return(ghost id: YieldId, req: Req, result: Option<Resp>) returns (value: Option<Resp>)
      requires id in promises && promises[id].request == req
      requires match result
               case Some(resp) => promises[id].status == Status.Resumed(resp)
               case None => promises[id].status.Expired?
      modifies this
      ensures View() == Step(old(View()), Callback(id)).0
      ensures value == result
    {
      value := result;
      match result
      case Some(resp) =>
        promises := promises[id := promises[id].(status := Returned(resp))];
      case None =>
        pending := pending - {req};
        promises := promises[id := promises[id].(status := Failed)];
    }
  }

  // ---------- the invariant ----------

  /** A pending entry points at a yield of that very request whose callback is still to come and that
      nobody resumed. */
  ghost predicate Sound<Req, Resp>(s: State<Req, Resp>) {
    forall req :: req in s.pending ==>
      && s.pending[req] in s.promises
      && s.promises[s.pending[req]].request == req
      && (s.promises[s.pending[req]].status.Waiting? || s.promises[s.pending[req]].status.Expired?)
  }

  ghost predicate InjectivePending<Req, Resp>(s: State<Req, Resp>) {
    forall p, q :: p in s.pending && q in s.pending && s.pending[p] == s.pending[q] ==> p == q
  }

  lemma StepKeepsSound<Req, Resp>(s: State<Req, Resp>, e: Event<Req, Resp>)
    requires Sound(s)
    ensures Sound(Step(s, e).0)
  {
  }

  lemma {:induction false} RunIsSound<Req, Resp>(es: seq<Event<Req, Resp>>)
    ensures Sound(End(es)) && InjectivePending(End(es))
    decreases |es|
  {
    if es != [] {
      RunIsSound(es[..|es| - 1]);
      StepKeepsSound(End(es[..|es| - 1]), es[|es| - 1]);
    }
  }

  // ---------- which request a resumption answers ----------

  /** Call `k` issued `id` for `req`. */
  predicate IssuedAt<Req(==), Resp>(es: seq<Event<Req, Resp>>, outs: seq<Outcome<Resp>>, k: nat, req: Req, id: YieldId)
    requires k < |es| == |outs|
  {
    es[k].Request? && es[k].req == req && es[k].id == id && outs[k].Issued?
  }

  /** `id` was issued by the latest request for `req`. */
  ghost predicate Latest<Req, Resp>(es: seq<Event<Req, Resp>>, outs: seq<Outcome<Resp>>, req: Req, id: YieldId)
    requires |es| == |outs|
  {
    exists k :: 0 <= k < |es| && IssuedAt(es, outs, k, req, id)
                && forall j :: k < j < |es| && es[j].Request? && outs[j].Issued? ==> es[j].req != req
  }

  lemma LatestStep<Req, Resp>(es: seq<Event<Req, Resp>>, outs: seq<Outcome<Resp>>, e: Event<Req, Resp>,
                              out: Outcome<Resp>, req: Req, id: YieldId)
    requires |es| == |outs| && Latest(es, outs, req, id)
    requires !(e.Request? && e.req == req && out.Issued?)
    ensures Latest(es + [e], outs + [out], req, id)
  {
    var k :| 0 <= k < |es| && IssuedAt(es, outs, k, req, id)
             && forall j :: k < j < |es| && es[j].Request? && outs[j].Issued? ==> es[j].req != req;
    assert IssuedAt(es + [e], outs + [out], k, req, id);
  }

  /** A pending entry is always the one its latest request made. */
  lemma {:induction false} PendingIsLatest<Req, Resp>(es: seq<Event<Req, Resp>>, req: Req)
    requires req in End(es).pending
    ensures Latest(es, Outcomes(es), req, End(es).pending[req])
    decreases |es|
  {
    if es != [] {
      var before, e := es[..|es| - 1], es[|es| - 1];
      var s, out := End(before), Step(End(before), e).1;
      assert es == before + [e] && Outcomes(es) == Outcomes(before) + [out];
      if e.Request? && e.req == req && out.Issued? {
        assert IssuedAt(es, Outcomes(es), |before|, req, e.id);
      } else {
        assert req in s.pending && s.pending[req] == End(es).pending[req];
        PendingIsLatest(before, req);
        LatestStep(before, Outcomes(before), e, out, req, s.pending[req]);
      }
    }
  }

  /** A resumption answers the latest request for what was responded to, with an accepted response. */
  lemma ResumesLatest<Req, Resp>(es: seq<Event<Req, Resp>>, e: Event<Req, Resp>, id: YieldId)
    requires Step(End(es), e).1 == Resumption(id)
    ensures e.Respond? && e.accepted && Latest(es, Outcomes(es), e.req, id)
  {
    PendingIsLatest(es, e.req);
  }

  /** Ids known to the host are exactly the issued ones, each issued once, for the request on record. */
  lemma {:induction false} IssuedOnce<Req, Resp>(es: seq<Event<Req, Resp>>, k: nat, req: Req, id: YieldId)
    requires k < |es| && IssuedAt(es, Outcomes(es), k, req, id)
    ensures id in End(es).promises && End(es).promises[id].request == req
    ensures forall j, r :: 0 <= j < |es| && IssuedAt(es, Outcomes(es), j, r, id) ==> j == k
    decreases |es|
  {
    var last := |es| - 1;
    var before := es[..last];
    var outs, outs' := Outcomes(before), Outcomes(es);
    if k < last {
      assert IssuedAt(before, outs, k, req, id);
      IssuedOnce(before, k, req, id);
    }
    forall j, r | 0 <= j < |es| && IssuedAt(es, outs', j, r, id) ensures j == k {
      if j < last {
        assert IssuedAt(before, outs, j, r, id);
        IssuedOnce(before, j, r, id);
      }
    }
  }

  /** Once a newer request has replaced it, a yield is never resumed. */
  lemma OverriddenNeverResumed<Req, Resp>(es: seq<Event<Req, Resp>>, e: Event<Req, Resp>, k: nat, j: nat, req: Req,
                                          id: YieldId, newer: YieldId)
    requires k < j < |es|
    requires IssuedAt(es, Outcomes(es), k, req, id) && IssuedAt(es, Outcomes(es), j, req, newer)
    ensures Step(End(es), e).1 != Resumption(id)
  {
    if Step(End(es), e).1 == Resumption(id) {
      ResumesLatest(es, e, id);
      IssuedOnce(es, k, req, id);
    }
  }

  // ---------- at most once, and what the caller gets ----------

  ghost predicate Settled<Req, Resp>(s: State<Req, Resp>, id: YieldId) {
    id in s.promises && (s.promises[id].status.Resumed? || s.promises[id].status.Returned?)
  }

  lemma {:induction false} ResumedIsSettled<Req, Resp>(es: seq<Event<Req, Resp>>, k: nat, id: YieldId)
    requires k < |es| && Outcomes(es)[k] == Resumption(id)
    ensures Settled(End(es), id)
    decreases |es|
  {
    var before := es[..|es| - 1];
    if k < |before| {
      assert Outcomes(before)[k] == Outcomes(es)[k];
      ResumedIsSettled(before, k, id);
    }
  }

  /** No yield is resumed twice. */
  lemma ResumedAtMostOnce<Req, Resp>(es: seq<Event<Req, Resp>>, e: Event<Req, Resp>, k: nat, id: YieldId)
    requires k < |es| && Outcomes(es)[k] == Resumption(id)
    ensures Step(End(es), e).1 != Resumption(id)
  {
    ResumedIsSettled(es, k, id);
    RunIsSound(es);
    SettledNotResumed(End(es), e, id);
  }

  lemma SettledNotResumed<Req, Resp>(s: State<Req, Resp>, e: Event<Req, Resp>, id: YieldId)
    requires Sound(s) && Settled(s, id)
    ensures Step(s, e).1 != Resumption(id)
  {
  }

  /** Some accepted response to `req` carried `resp`. */
  ghost predicate Answered<Req, Resp>(es: seq<Event<Req, Resp>>, req: Req, resp: Resp) {
    exists k :: 0 <= k < |es| && es[k] == Respond(req, resp, true)
  }

  lemma {:induction false} ResponsesAreAccepted<Req, Resp>(es: seq<Event<Req, Resp>>, id: YieldId)
    requires id in End(es).promises
    ensures var y := End(es).promises[id];
            && (y.status.Resumed? ==> Answered(es, y.request, y.status.resp))
            && (y.status.Returned? ==> Answered(es, y.request, y.status.resp))
    decreases |es|
  {
    if es != [] {
      var before, e := es[..|es| - 1], es[|es| - 1];
      RunIsSound(before);
      var s := End(before);
      if id in s.promises {
        ResponsesAreAccepted(before, id);
        forall req, resp | Answered(before, req, resp) ensures Answered(es, req, resp) {
          var k :| 0 <= k < |before| && before[k] == Respond(req, resp, true);
          assert es[k] == Respond(req, resp, true);
        }
        if Step(s, e).1 == Resumption(id) {
          assert es[|es| - 1] == Respond(e.req, e.resp, true);
        }
      }
    }
  }

  /** A caller only ever gets a response that was accepted for its own request, and delivering it
      removes no pending entry, in particular not a newer one. */
  lemma DeliveredResponse<Req, Resp>(es: seq<Event<Req, Resp>>, e: Event<Req, Resp>, resp: Resp)
    requires Step(End(es), e).1 == Success(resp)
    ensures e.Callback? && e.id in End(es).promises && Answered(es, End(es).promises[e.id].request, resp)
    ensures Step(End(es), e).0.pending == End(es).pending
  {
    ResponsesAreAccepted(es, e.id);
  }

  // ---------- timeouts ----------

  /** Call `j` ends whatever entry `req` had: a newer request for it, an accepted response to it, or a
      callback after the timeout of any promise made for it. */
  ghost predicate Clears<Req, Resp>(es: seq<Event<Req, Resp>>, outs: seq<Outcome<Resp>>, j: nat, req: Req)
    requires j < |es| == |outs|
  {
    || (es[j].Request? && es[j].req == req && outs[j].Issued?)
    || (es[j].Respond? && es[j].req == req && es[j].accepted)
    || (es[j].Callback? && outs[j].TimedOut? && exists i :: 0 <= i < j && IssuedAt(es, outs, i, req, es[j].id))
  }

  /** Call `k` issued `id` for `req`, and no call since has ended the entry. */
  ghost predicate UnclearedSince<Req, Resp>(es: seq<Event<Req, Resp>>, outs: seq<Outcome<Resp>>, k: nat, req: Req,
                                            id: YieldId)
    requires k < |es| == |outs|
  {
    IssuedAt(es, outs, k, req, id) && forall j :: k < j < |es| ==> !Clears(es, outs, j, req)
  }

  ghost predicate Uncleared<Req, Resp>(es: seq<Event<Req, Resp>>, outs: seq<Outcome<Resp>>, req: Req, id: YieldId)
    requires |es| == |outs|
  {
    exists k :: 0 <= k < |es| && UnclearedSince(es, outs, k, req, id)
  }

  lemma EarlierClears<Req, Resp>(es: seq<Event<Req, Resp>>, outs: seq<Outcome<Resp>>, e: Event<Req, Resp>,
                                 out: Outcome<Resp>, j: nat, req: Req)
    requires j < |es| == |outs|
    ensures Clears(es + [e], outs + [out], j, req) <==> Clears(es, outs, j, req)
  {
    var es', outs' := es + [e], outs + [out];
    assert es'[j] == es[j] && outs'[j] == outs[j];
    if es[j].Callback? {
      forall i | 0 <= i < j ensures IssuedAt(es', outs', i, req, es[j].id) <==> IssuedAt(es, outs, i, req, es[j].id) {
      }
    }
  }

  lemma UnclearedStep<Req, Resp>(es: seq<Event<Req, Resp>>, outs: seq<Outcome<Resp>>, e: Event<Req, Resp>,
                                 out: Outcome<Resp>, req: Req, id: YieldId)
    requires |es| == |outs|
    ensures Uncleared(es + [e], outs + [out], req, id) <==>
            || IssuedAt(es + [e], outs + [out], |es|, req, id)
            || (Uncleared(es, outs, req, id) && !Clears(es + [e], outs + [out], |es|, req))
  {
    var es', outs' := es + [e], outs + [out];
    forall j | 0 <= j < |es| ensures Clears(es', outs', j, req) <==> Clears(es, outs, j, req) {
      EarlierClears(es, outs, e, out, j, req);
    }
    if IssuedAt(es', outs', |es|, req, id) {
      assert UnclearedSince(es', outs', |es|, req, id);
    }
    if Uncleared(es, outs, req, id) && !Clears(es', outs', |es|, req) {
      var k :| 0 <= k < |es| && UnclearedSince(es, outs, k, req, id);
      assert UnclearedSince(es', outs', k, req, id);
    }
    if Uncleared(es', outs', req, id) {
      var k :| 0 <= k < |es'| && UnclearedSince(es', outs', k, req, id);
      if k < |es| {
        assert UnclearedSince(es, outs, k, req, id);
      }
    }
  }

  ghost predicate PendingAs<Req, Resp>(s: State<Req, Resp>, req: Req, id: YieldId) {
    req in s.pending && s.pending[req] == id
  }

  /** The last call clears `req` in terms of the host's record of promises. */
  lemma ClearsByRecord<Req, Resp>(es: seq<Event<Req, Resp>>, e: Event<Req, Resp>, req: Req)
    requires e.Callback? && Step(End(es), e).1.TimedOut?
    ensures Clears(es + [e], Outcomes(es) + [Step(End(es), e).1], |es|, req) <==> End(es).promises[e.id].request == req
  {
    var es', outs' := es + [e], Outcomes(es) + [Step(End(es), e).1];
    var k := PromiseIssued(es, e.id);
    assert IssuedAt(es', outs', k, End(es).promises[e.id].request, e.id);
    forall i | 0 <= i < |es| && IssuedAt(es', outs', i, req, e.id) ensures End(es).promises[e.id].request == req {
      assert IssuedAt(es, Outcomes(es), i, req, e.id);
      IssuedOnce(es, i, req, e.id);
    }
  }

  lemma {:induction false} PromiseIssued<Req, Resp>(es: seq<Event<Req, Resp>>, id: YieldId) returns (k: nat)
    requires id in End(es).promises
    ensures k < |es| && IssuedAt(es, Outcomes(es), k, End(es).promises[id].request, id)
    decreases |es|
  {
    var before := es[..|es| - 1];
    if id in End(before).promises {
      k := PromiseIssued(before, id);
    } else {
      k := |es| - 1;
    }
  }

  /** Exactly which requests are pending, read off the calls made: a promise is pending for a request
      exactly when it was issued for it and no call since has ended that. */
  lemma {:induction false} PendingIff<Req, Resp>(es: seq<Event<Req, Resp>>, req: Req, id: YieldId)
    ensures PendingAs(End(es), req, id) <==> Uncleared(es, Outcomes(es), req, id)
    decreases |es|
  {
    if es != [] {
      var before, e := es[..|es| - 1], es[|es| - 1];
      var out := Step(End(before), e).1;
      assert es == before + [e] && Outcomes(es) == Outcomes(before) + [out];
      PendingIff(before, req, id);
      UnclearedStep(before, Outcomes(before), e, out, req, id);
      if e.Callback? && out.TimedOut? {
        ClearsByRecord(before, e, req);
      }
    }
  }

  /** A newer request for the same thing than call `k` is pending as `newer`. */
  ghost predicate NewerUncleared<Req, Resp>(es: seq<Event<Req, Resp>>, outs: seq<Outcome<Resp>>, k: nat, req: Req,
                                            newer: YieldId)
    requires k < |es| == |outs|
  {
    exists j :: k < j < |es| && UnclearedSince(es, outs, j, req, newer)
  }

  /** The callback takes away an entry that belongs to another promise. */
  ghost predicate RemovesOther<Req, Resp>(s: State<Req, Resp>, id: YieldId) {
    exists r :: r in s.pending && s.pending[r] != id && r !in Step(s, Callback(id)).0.pending
  }

  lemma RemovesOtherAt<Req, Resp>(s: State<Req, Resp>, id: YieldId)
    requires Step(s, Callback(id)).1.TimedOut?
    ensures var req := s.promises[id].request;
            RemovesOther(s, id) <==> req in s.pending && s.pending[req] != id
  {
  }

  /** With each id issued once, an uncleared request other than call `k` is a later one. */
  lemma OtherIsLater<Req, Resp>(es: seq<Event<Req, Resp>>, outs: seq<Outcome<Resp>>, k: nat, req: Req, id: YieldId,
                                newer: YieldId)
    requires k < |es| == |outs| && IssuedAt(es, outs, k, req, id)
    requires forall j, r :: 0 <= j < |es| && IssuedAt(es, outs, j, r, id) ==> j == k
    ensures newer != id && Uncleared(es, outs, req, newer) <==> NewerUncleared(es, outs, k, req, newer)
  {
    if newer != id && Uncleared(es, outs, req, newer) {
      var j :| 0 <= j < |es| && UnclearedSince(es, outs, j, req, newer);
      assert j < k ==> Clears(es, outs, k, req);
    }
  }

  lemma OtherPendingIsLater<Req, Resp>(es: seq<Event<Req, Resp>>, k: nat, req: Req, id: YieldId, newer: YieldId)
    requires k < |es| && IssuedAt(es, Outcomes(es), k, req, id)
    ensures newer != id && PendingAs(End(es), req, newer) <==> NewerUncleared(es, Outcomes(es), k, req, newer)
  {
    PendingIff(es, req, newer);
    IssuedOnce(es, k, req, id);
    OtherIsLater(es, Outcomes(es), k, req, id, newer);
  }

  /** The callback after a timeout takes another promise's entry away in exactly one case: since the timed-out
      request was made, the same thing was requested again, and that newer request was not replaced, not
      answered with an accepted response and not cleared by another timeout. */
  lemma TimeoutRemovesNewerIff<Req, Resp>(es: seq<Event<Req, Resp>>, k: nat, req: Req, id: YieldId)
    requires k < |es| && IssuedAt(es, Outcomes(es), k, req, id) && Step(End(es), Callback(id)).1.TimedOut?
    ensures RemovesOther(End(es), id) <==> exists newer :: NewerUncleared(es, Outcomes(es), k, req, newer)
  {
    IssuedOnce(es, k, req, id);
    RemovesOtherAt(End(es), id);
    NewerExists(es, Outcomes(es), End(es), k, req, id) by {
      forall newer
        ensures newer != id && PendingAs(End(es), req, newer) <==> NewerUncleared(es, Outcomes(es), k, req, newer)
      {
        OtherPendingIsLater(es, k, req, id, newer);
      }
    }
  }

  lemma NewerExists<Req, Resp>(es: seq<Event<Req, Resp>>, outs: seq<Outcome<Resp>>, s: State<Req, Resp>, k: nat,
                               req: Req, id: YieldId)
    requires k < |es| == |outs|
    requires forall newer :: newer != id && PendingAs(s, req, newer) <==> NewerUncleared(es, outs, k, req, newer)
    ensures req in s.pending && s.pending[req] != id <==> exists newer :: NewerUncleared(es, outs, k, req, newer)
  {
    if req in s.pending && s.pending[req] != id {
      assert PendingAs(s, req, s.pending[req]);
    }
  }

  /** Two requests for the same thing; the first one's timeout takes the second one's entry away, and
      an accepted response then finds nothing to resume. */
  lemma NewerRequestLost<Req, Resp>(req: Req, resp: Resp)
    ensures var es := [Request(req, 0), Timeout(0), Request(req, 1), Callback(0)];
            && 1 in End<Req, Resp>(es).promises && End<Req, Resp>(es).promises[1] == Yield(req, Waiting)
            && Step(End(es), Respond(req, resp, true)).1 == Rejected
  {
    var s1: State<Req, Resp> := State(map[req := 0], map[0 := Yield(req, Waiting)]);
    var s2: State<Req, Resp> := State(map[req := 0], map[0 := Yield(req, Expired)]);
    var s3: State<Req, Resp> := State(map[req := 1], map[0 := Yield(req, Expired), 1 := Yield(req, Waiting)]);
    var s4: State<Req, Resp> := State(map[], map[0 := Yield(req, Failed), 1 := Yield(req, Waiting)]);
    var none: seq<Event<Req, Resp>> := [];
    EndAppend(none, Request(req, 0));
    assert Step(Empty(), Request(req, 0)).0 == s1;
    EndAppend(none + [Request(req, 0)], Timeout(0));
    assert Step(s1, Timeout(0)).0 == s2;
    EndAppend(none + [Request(req, 0)] + [Timeout(0)], Request(req, 1));
    assert Step(s2, Request(req, 1)).0 == s3;
    EndAppend(none + [Request(req, 0)] + [Timeout(0)] + [Request(req, 1)], Callback(0));
    assert Step(s3, Callback(0)).0 == s4;
    assert none + [Request(req, 0)] + [Timeout(0)] + [Request(req, 1)] + [Callback(0)] ==
      [Request(req, 0), Timeout(0), Request(req, 1), Callback(0)];
  }

  lemma EndAppend<Req, Resp>(es: seq<Event<Req, Resp>>, e: Event<Req, Resp>)
    ensures End(es + [e]) == Step(End(es), e).0
  {
  }
}
