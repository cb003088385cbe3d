/** Participant lists, thresholds and the admission rule for a new parameter set
    (primitives/participants.rs and primitives/thresholds.rs of the contract). */
module Parameters {
  import opened Common

  const MIN_THRESHOLD_ABSOLUTE: nat := 2

  type ParticipantId = x: nat | x < U32_SIZE

  datatype ParticipantInfo = ParticipantInfo(url: string, signKey: string)
  datatype Participant = Participant(account: AccountId, id: ParticipantId, info: ParticipantInfo)
  datatype Participants = Participants(nextId: ParticipantId, members: seq<Participant>)
  datatype ThresholdParameters = ThresholdParameters(participants: Participants, threshold: nat) {
    function Members(): seq<Participant> { participants.members }
  }

  function Accounts(ms: seq<Participant>): set<AccountId> {
    set p | p in ms :: p.account
  }

  function Ids(ms: seq<Participant>): set<ParticipantId> {
    set p | p in ms :: p.id
  }

  ghost predicate DistinctAccounts(ms: seq<Participant>) {
    forall i, j :: 0 <= i < j < |ms| ==> ms[i].account != ms[j].account
  }

  ghost predicate DistinctIds(ms: seq<Participant>) {
    forall i, j :: 0 <= i < j < |ms| ==> ms[i].id != ms[j].id
  }

  /** The list is well formed: nobody appears twice and every id lies below the next one. */
  ghost predicate Coherent(ps: Participants) {
    && DistinctAccounts(ps.members)
    && DistinctIds(ps.members)
    && forall p :: p in ps.members ==> p.id < ps.nextId
  }

  predicate ValidThreshold(shares: nat, k: nat) {
    MIN_THRESHOLD_ABSOLUTE <= k <= shares && 3 * shares <= 5 * k
  }

  ghost predicate ValidParameters(t: ThresholdParameters) {
    Coherent(t.participants) && ValidThreshold(|t.Members()|, t.threshold)
  }

  // ---------- cardinalities ----------

  lemma {:induction false} DistinctCardinality(ms: seq<Participant>)
    ensures |Accounts(ms)| <= |ms| && |Ids(ms)| <= |ms|
    ensures |Accounts(ms)| == |ms| <==> DistinctAccounts(ms)
    ensures |Ids(ms)| == |ms| <==> DistinctIds(ms)
  {
    var accounts := seq(|ms|, i requires 0 <= i < |ms| => ms[i].account);
    var ids := seq(|ms|, i requires 0 <= i < |ms| => ms[i].id);
    CardinalityIsLength(accounts);
    CardinalityIsLength(ids);
    assert Elements(accounts) == Accounts(ms) by {
      forall p | p in ms ensures p.account in accounts {
        var i :| 0 <= i < |ms| && ms[i] == p;
        assert accounts[i] == p.account;
      }
    }
    assert Elements(ids) == Ids(ms) by {
      forall p | p in ms ensures p.id in ids {
        var i :| 0 <= i < |ms| && ms[i] == p;
        assert ids[i] == p.id;
      }
    }
    assert Injective(accounts) <==> DistinctAccounts(ms) by {
      if Injective(accounts) {
        forall i, j | 0 <= i < j < |ms| ensures ms[i].account != ms[j].account {
          assert accounts[i] != accounts[j];
        }
      }
    }
    assert Injective(ids) <==> DistinctIds(ms) by {
      if Injective(ids) {
        forall i, j | 0 <= i < j < |ms| ensures ms[i].id != ms[j].id {
          assert ids[i] != ids[j];
        }
      }
    }
  }

  // ---------- authentication and leadership ----------

  /** The id the signer acts under; the source's `AuthenticatedParticipantId::new`. */
  function FindId(ms: seq<Participant>, account: AccountId): (r: Option<ParticipantId>)
    ensures r.Some? <==> account in Accounts(ms)
    ensures r.Some? ==> exists p :: p in ms && p.account == account && p.id == r.value
  {
    if ms == [] then None
    else if ms[0].account == account then Some(ms[0].id)
    else
      assert ms == [ms[0]] + ms[1..];
      FindId(ms[1..], account)
  }

  /** The leader is the participant with the lowest id. */
  function Leader(ms: seq<Participant>): (r: Option<Participant>)
    ensures r.None? <==> ms == []
    ensures r.Some? ==> r.value in ms && forall p :: p in ms ==> r.value.id <= p.id
  {
    if ms == [] then None
    else
      assert ms == [ms[0]] + ms[1..];
      var rest := Leader(ms[1..]);
      if rest.Some? && rest.value.id < ms[0].id then rest else Some(ms[0])
  }

  // ---------- validation ----------

  function ValidateThreshold(shares: nat, k: nat): (r: bool)
    ensures r <==> ValidThreshold(shares, k)
  {
    var percentageBound := (3 * shares + 4) / 5;
    k <= shares && MIN_THRESHOLD_ABSOLUTE <= k && percentageBound <= k
  }

  method ValidateParticipants(ps: Participants) returns (ok: bool)
    ensures ok <==> Coherent(ps)
  {
    var ids: set<ParticipantId>, accounts: set<AccountId> := {}, {};
    for i := 0 to |ps.members|
      invariant ids == Ids(ps.members[..i]) && accounts == Accounts(ps.members[..i])
      invariant forall p :: p in ps.members[..i] ==> p.id < ps.nextId
    {
      var p := ps.members[i];
      assert ps.members[..i + 1] == ps.members[..i] + [p];
      accounts := accounts + {p.account};
      ids := ids + {p.id};
      if ps.nextId <= p.id {
        assert p in ps.members;
        return false;
      }
    }
    assert ps.members[..|ps.members|] == ps.members;
    DistinctCardinality(ps.members);
    ok := |ids| == |ps.members| && |accounts| == |ps.members|;
  }

  method ValidateParameters(t: ThresholdParameters) returns (ok: bool)
    ensures ok <==> ValidParameters(t)
  {
    if !ValidateThreshold(|t.Members()|, t.threshold) { return false; }
    ok := ValidateParticipants(t.participants);
  }

  // ---------- the admission rule ----------

  /** Ids handed to members of `ms` whose account is not in `old`. */
  function NewIds(ms: seq<Participant>, known: set<AccountId>): set<ParticipantId> {
    set p | p in ms && p.account !in known :: p.id
  }

  /** Ids from `lo` up to, not including, `hi`. */
  function IdRange(lo: nat, hi: ParticipantId): (r: set<ParticipantId>)
    ensures forall x :: x in r <==> lo <= x < hi
    decreases hi - lo
  {
    if lo < hi then {lo} + IdRange(lo + 1, hi) else {}
  }

  /** A member who stays is unchanged and a newcomer takes no id in use. */
  ghost predicate KeepsIdentity(cur: seq<Participant>, p: Participant) {
    if p.account in Accounts(cur) then p in cur else p.id !in Ids(cur)
  }

  /** What a proposal must satisfy before it can be voted for: it is valid by itself, a member
      who stays keeps id and info, nobody takes an id in use, at least `threshold` members stay,
      and newcomers get exactly the ids from the current next id up to the proposal's next id. */
  ghost predicate Admissible(current: ThresholdParameters, proposal: ThresholdParameters) {
    && ValidParameters(proposal)
    && (forall p :: p in proposal.Members() ==> KeepsIdentity(current.Members(), p))
    && |Accounts(proposal.Members()) * Accounts(current.Members())| >= current.threshold
    && var added := NewIds(proposal.Members(), Accounts(current.Members()));
       added != {} ==> added == IdRange(current.participants.nextId, proposal.participants.nextId)
  }

  lemma {:induction false} RangeCardinality(lo: nat, hi: ParticipantId)
    requires lo <= hi
    ensures |IdRange(lo, hi)| == hi - lo
    decreases hi - lo
  {
    if lo < hi {
      RangeCardinality(lo + 1, hi);
      assert IdRange(lo, hi) == {lo} + IdRange(lo + 1, hi);
    } else {
      assert IdRange(lo, hi) == {};
    }
  }

  /** Bounds that a set of ids attains pin it down exactly when its size fills them. */
  lemma ContiguousIsRange(ids: set<ParticipantId>, lo: nat, hi: ParticipantId)
    requires forall x :: x in ids ==> lo <= x < hi
    requires lo <= hi
    ensures |ids| == hi - lo <==> ids == IdRange(lo, hi)
  {
    RangeCardinality(lo, hi);
    assert ids <= IdRange(lo, hi);
    SubsetCardinality(ids, IdRange(lo, hi));
  }

  lemma OneMoreMember(rest: seq<Participant>, p: Participant, known: set<AccountId>)
    requires DistinctAccounts(rest + [p]) && DistinctIds(rest + [p])
    ensures p.account in known ==>
              |Accounts(rest + [p]) * known| == |Accounts(rest) * known| + 1
              && NewIds(rest + [p], known) == NewIds(rest, known)
    ensures p.account !in known ==>
              |Accounts(rest + [p]) * known| == |Accounts(rest) * known|
              && NewIds(rest + [p], known) == NewIds(rest, known) + {p.id}
              && |NewIds(rest + [p], known)| == |NewIds(rest, known)| + 1
  {
    AccountsAppend(rest, p);
    NewIdsAppend(rest, p, known);
    if p.account in known {
      assert (Accounts(rest) + {p.account}) * known == Accounts(rest) * known + {p.account};
    } else {
      assert (Accounts(rest) + {p.account}) * known == Accounts(rest) * known;
    }
  }

  lemma AccountsAppend(rest: seq<Participant>, p: Participant)
    ensures Accounts(rest + [p]) == Accounts(rest) + {p.account}
    ensures Ids(rest + [p]) == Ids(rest) + {p.id}
    ensures DistinctAccounts(rest + [p]) ==> p.account !in Accounts(rest)
  {
    var ms := rest + [p];
    assert p == ms[|rest|];
    forall q | q in rest
      ensures q in ms
      ensures DistinctAccounts(ms) ==> q.account != p.account
      ensures DistinctIds(ms) ==> q.id != p.id
    {
      var i :| 0 <= i < |rest| && rest[i] == q;
      assert ms[i] == q;
    }
  }

  lemma NewIdsAppend(rest: seq<Participant>, p: Participant, known: set<AccountId>)
    ensures NewIds(rest + [p], known) ==
            if p.account in known then NewIds(rest, known) else NewIds(rest, known) + {p.id}
    ensures DistinctIds(rest + [p]) ==> p.id !in NewIds(rest, known)
  {
    var ms := rest + [p];
    assert p == ms[|rest|];
    forall q | q in rest
      ensures q in ms
      ensures DistinctAccounts(ms) ==> q.account != p.account
      ensures DistinctIds(ms) ==> q.id != p.id
    {
      var i :| 0 <= i < |rest| && rest[i] == q;
      assert ms[i] == q;
    }
  }

  /** The lookup tables over the current members, by account and by id. */
  method IndexMembers(cur: seq<Participant>)
    returns (byAccount: map<AccountId, Participant>, byId: map<ParticipantId, AccountId>)
    ensures Indexes(cur, byAccount, byId)
  {
    byAccount, byId := map[], map[];
    for i := 0 to |cur|
      invariant byAccount.Keys == Accounts(cur[..i]) && byId.Keys == Ids(cur[..i])
      invariant forall a :: a in byAccount ==> byAccount[a] in cur && byAccount[a].account == a
    {
      assert cur[..i + 1] == cur[..i] + [cur[i]];
      AccountsAppend(cur[..i], cur[i]);
      byId := byId[cur[i].id := cur[i].account];
      byAccount := byAccount[cur[i].account := cur[i]];
    }
    assert cur[..|cur|] == cur;
  }

  /** Lowest and highest of a set of ids, when it has any. */
  ghost predicate Bounds(ids: set<ParticipantId>, lo: nat, hi: nat) {
    && (forall x :: x in ids ==> lo <= x <= hi)
    && (ids != {} ==> lo in ids && hi in ids)
  }

  lemma BoundsExtend(ids: set<ParticipantId>, lo: nat, hi: nat, x: ParticipantId)
    requires Bounds(ids, lo, hi)
    requires ids == {} ==> lo == U32_SIZE - 1 && hi == 0
    ensures Bounds(ids + {x}, if x < lo then x else lo, if hi < x then x else hi)
  {
  }

  /** What one pass has established about the members it has seen. */
  ghost predicate Scanned(cur: seq<Participant>, seen: seq<Participant>, stayers: nat, lo: nat, hi: nat) {
    var added := NewIds(seen, Accounts(cur));
    && stayers == |Accounts(seen) * Accounts(cur)|
    && stayers + |added| == |seen|
    && (forall k :: 0 <= k < |seen| ==> KeepsIdentity(cur, seen[k]))
    && Bounds(added, lo, hi)
    && (added == {} ==> lo == U32_SIZE - 1 && hi == 0)
  }

  /** The tally after one more member; `None` if that member changes identity. */
  function Tally(byAccount: map<AccountId, Participant>, byId: map<ParticipantId, AccountId>,
                 p: Participant, t: (nat, nat, nat)): Option<(nat, nat, nat)>
  {
    var (stayers, lo, hi) := t;
    if p.account in byAccount then
      if p.id != byAccount[p.account].id || p.info != byAccount[p.account].info then None
      else Some((stayers + 1, lo, hi))
    else if p.id in byId then None
    else Some((stayers, if p.id < lo then p.id else lo, if hi < p.id then p.id else hi))
  }

  ghost predicate Indexes(cur: seq<Participant>, byAccount: map<AccountId, Participant>,
                          byId: map<ParticipantId, AccountId>)
  {
    && byAccount.Keys == Accounts(cur) && byId.Keys == Ids(cur)
    && forall a :: a in byAccount ==> byAccount[a] in cur && byAccount[a].account == a
  }

  lemma TallyDecides(cur: seq<Participant>, byAccount: map<AccountId, Participant>, byId: map<ParticipantId, AccountId>,
                     p: Participant, t: (nat, nat, nat))
    requires DistinctAccounts(cur) && Indexes(cur, byAccount, byId)
    ensures Tally(byAccount, byId, p, t).Some? <==> KeepsIdentity(cur, p)
  {
  }

  lemma ScanStayer(cur: seq<Participant>, seen: seq<Participant>, p: Participant, stayers: nat, lo: nat, hi: nat)
    requires Scanned(cur, seen, stayers, lo, hi) && KeepsIdentity(cur, p) && p.account in Accounts(cur)
    requires DistinctAccounts(seen + [p]) && DistinctIds(seen + [p])
    ensures Scanned(cur, seen + [p], stayers + 1, lo, hi)
  {
    OneMoreMember(seen, p, Accounts(cur));
  }

  lemma ScanNewcomer(cur: seq<Participant>, seen: seq<Participant>, p: Participant, stayers: nat, lo: nat, hi: nat)
    requires Scanned(cur, seen, stayers, lo, hi) && KeepsIdentity(cur, p) && p.account !in Accounts(cur)
    requires DistinctAccounts(seen + [p]) && DistinctIds(seen + [p])
    ensures Scanned(cur, seen + [p], stayers, if p.id < lo then p.id else lo, if hi < p.id then p.id else hi)
  {
    OneMoreMember(seen, p, Accounts(cur));
    BoundsExtend(NewIds(seen, Accounts(cur)), lo, hi, p.id);
  }

  lemma TallyScans(cur: seq<Participant>, byAccount: map<AccountId, Participant>, byId: map<ParticipantId, AccountId>,
                   seen: seq<Participant>, p: Participant, t: (nat, nat, nat))
    requires DistinctAccounts(cur) && Indexes(cur, byAccount, byId)
    requires Scanned(cur, seen, t.0, t.1, t.2)
    requires DistinctAccounts(seen + [p]) && DistinctIds(seen + [p])
    ensures Tally(byAccount, byId, p, t).Some? <==> KeepsIdentity(cur, p)
    ensures var u := Tally(byAccount, byId, p, t);
            u.Some? ==> Scanned(cur, seen + [p], u.value.0, u.value.1, u.value.2)
  {
    TallyDecides(cur, byAccount, byId, p, t);
    if KeepsIdentity(cur, p) {
      if p.account in byAccount {
        ScanStayer(cur, seen, p, t.0, t.1, t.2);
      } else {
        ScanNewcomer(cur, seen, p, t.0, t.1, t.2);
      }
    }
  }

  lemma PrefixDistinct(ms: seq<Participant>, i: nat)
    requires i < |ms| && DistinctAccounts(ms) && DistinctIds(ms)
    ensures ms[..i + 1] == ms[..i] + [ms[i]]
    ensures DistinctAccounts(ms[..i] + [ms[i]]) && DistinctIds(ms[..i] + [ms[i]])
  {
  }

  lemma NothingScanned(cur: seq<Participant>)
    ensures Scanned(cur, [], 0, U32_SIZE - 1, 0)
  {
  }

  /** The tally of all these members; `None` if one changes identity. */
  function TallyAll(byAccount: map<AccountId, Participant>, byId: map<ParticipantId, AccountId>,
                    ms: seq<Participant>): Option<(nat, nat, nat)>
  {
    if ms == [] then Some((0, U32_SIZE - 1, 0))
    else
      var before := TallyAll(byAccount, byId, ms[..|ms| - 1]);
      if before.None? then None else Tally(byAccount, byId, ms[|ms| - 1], before.value)
  }

  lemma {:induction false} TallyAllScans(cur: seq<Participant>, byAccount: map<AccountId, Participant>,
                                         byId: map<ParticipantId, AccountId>,
                                         ms: seq<Participant>)
    requires DistinctAccounts(cur) && Indexes(cur, byAccount, byId) && DistinctAccounts(ms) && DistinctIds(ms)
    ensures var t := TallyAll(byAccount, byId, ms);
            if t.Some? then Scanned(cur, ms, t.value.0, t.value.1, t.value.2)
            else exists p :: p in ms && !KeepsIdentity(cur, p)
  {
    if ms == [] {
      NothingScanned(cur);
    } else {
      var last := |ms| - 1;
      TallyAllScans(cur, byAccount, byId, ms[..last]);
      PrefixDistinct(ms, last);
      assert ms[..last + 1] == ms;
      var before := TallyAll(byAccount, byId, ms[..last]);
      if before.Some? {
        TallyScans(cur, byAccount, byId, ms[..last], ms[last], before.value);
      }
    }
  }

  lemma {:induction false} TallyStops(byAccount: map<AccountId, Participant>, byId: map<ParticipantId, AccountId>,
                                      ms: seq<Participant>, i: nat)
    requires i <= |ms| && TallyAll(byAccount, byId, ms[..i]).None?
    ensures TallyAll(byAccount, byId, ms).None?
    decreases |ms|
  {
    if i == |ms| {
      assert ms[..i] == ms;
    } else {
      assert ms[..|ms| - 1][..i] == ms[..i];
      TallyStops(byAccount, byId, ms[..|ms| - 1], i);
    }
  }

  /** One pass over the proposed members: `None` as soon as one changes identity; otherwise how
      many stay and the extent of the newcomers' ids. */
  method ScanMembers(cur: seq<Participant>, ms: seq<Participant>)
    returns (r: Option<(nat, nat, nat)>)
    requires DistinctAccounts(cur) && DistinctAccounts(ms) && DistinctIds(ms)
    ensures r.None? ==> exists p :: p in ms && !KeepsIdentity(cur, p)
    ensures r.Some? ==> Scanned(cur, ms, r.value.0, r.value.1, r.value.2)
  {
    var byAccount, byId := IndexMembers(cur);
    r := TallyMembers(byAccount, byId, ms);
    TallyAllScans(cur, byAccount, byId, ms);
  }

  method TallyMembers(byAccount: map<AccountId, Participant>, byId: map<ParticipantId, AccountId>, ms: seq<Participant>)
    returns (r: Option<(nat, nat, nat)>)
    ensures r == TallyAll(byAccount, byId, ms)
  {
    var tally: (nat, nat, nat) := (0, U32_SIZE - 1, 0);
    for i := 0 to |ms|
      invariant TallyAll(byAccount, byId, ms[..i]) == Some(tally)
    {
      assert ms[..i + 1][..i] == ms[..i];
      var next := Tally(byAccount, byId, ms[i], tally);
      if next.None? {
        TallyStops(byAccount, byId, ms, i + 1);
        return None;
      }
      tally := next.value;
    }
    assert ms[..|ms|] == ms;
    r := Some(tally);
  }

  method ValidateIncomingProposal(current: ThresholdParameters, proposal: ThresholdParameters)
    returns (ok: bool)
    requires Coherent(current.participants)
    ensures ok <==> Admissible(current, proposal)
  {
    var valid := ValidateParameters(proposal);
    if !valid { return false; }
    var ms := proposal.Members();
    var scan := ScanMembers(current.Members(), ms);
    if scan.None? { return false; }
    var (stayers, minId, maxId) := scan.value;
    if stayers < current.threshold { return false; }
    var newcomers := |ms| - stayers;
    ghost var added := NewIds(ms, Accounts(current.Members()));
    if newcomers > 0 {
      assert |added| > 0;
      var next := proposal.participants.nextId;
      if newcomers - 1 != maxId - minId || minId != current.participants.nextId || maxId + 1 != next {
        NotContiguous(added, minId, maxId, current.participants.nextId, next);
        return false;
      }
      ContiguousIsRange(added, minId, next);
    }
    ok := true;
  }

  lemma NotContiguous(added: set<ParticipantId>, minId: nat, maxId: nat, lo: nat, hi: ParticipantId)
    requires minId in added && maxId in added
    requires forall x :: x in added ==> minId <= x <= maxId && x < hi
    requires |added| - 1 != maxId - minId || minId != lo || maxId + 1 != hi
    ensures added != IdRange(lo, hi)
  {
    if added == IdRange(lo, hi) {
      assert lo <= minId && lo in added;
      assert hi - 1 in IdRange(lo, hi);
      RangeCardinality(lo, hi);
    }
  }
}
