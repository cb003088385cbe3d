/** Signing domains and the registry that hands out their ids (primitives/domain.rs). */
module Domains {
  import opened Common

  type DomainId = nat

  datatype SignatureScheme = Secp256k1 | Ed25519 | Bls12381 | V2Secp256k1
  datatype DomainPurpose = Sign | ForeignTx | CKD
  datatype DomainConfig = DomainConfig(id: DomainId, scheme: SignatureScheme, purpose: DomainPurpose)
  datatype DomainRegistry = DomainRegistry(domains: seq<DomainConfig>, nextDomainId: DomainId)

  const EMPTY_REGISTRY := DomainRegistry([], 0)

  predicate ValidSchemeForPurpose(d: DomainConfig) {
    match d.purpose
    case Sign => d.scheme != Bls12381
    case ForeignTx => d.scheme == Secp256k1
    case CKD => d.scheme == Bls12381
  }

  /** Ids increase along the list and stay below the next id. */
  predicate WellFormed(r: DomainRegistry) {
    && (forall i, j :: 0 <= i < j < |r.domains| ==> r.domains[i].id < r.domains[j].id)
    && (forall i :: 0 <= i < |r.domains| ==> r.domains[i].id < r.nextDomainId)
  }

  /** The proposed ids continue the registry without a gap. */
  predicate Contiguous(next: DomainId, ds: seq<DomainConfig>) {
    forall i :: 0 <= i < |ds| ==> ds[i].id == next + i
  }

  function Extended(r: DomainRegistry, ds: seq<DomainConfig>): DomainRegistry {
    DomainRegistry(r.domains + ds, r.nextDomainId + |ds|)
  }

  method AddDomains(r: DomainRegistry, ds: seq<DomainConfig>) returns (out: Option<DomainRegistry>)
    ensures out == if Contiguous(r.nextDomainId, ds) then Some(Extended(r, ds)) else None
  {
    var reg := r;
    for i := 0 to |ds|
      invariant reg == Extended(r, ds[..i])
      invariant Contiguous(r.nextDomainId, ds[..i])
    {
      var id := reg.nextDomainId;
      reg := DomainRegistry(reg.domains + [DomainConfig(id, ds[i].scheme, ds[i].purpose)], id + 1);
      if id != ds[i].id {
        return None;
      }
      assert ds[..i + 1] == ds[..i] + [ds[i]];
      assert reg.domains == r.domains + ds[..i + 1];
    }
    assert ds[..|ds|] == ds;
    out := Some(reg);
  }

  /** Neighbouring ids in order, and the last below the next id. */
  method FromRawValidated(ds: seq<DomainConfig>, next: DomainId) returns (out: Option<DomainRegistry>)
    ensures out == if WellFormed(DomainRegistry(ds, next)) then Some(DomainRegistry(ds, next)) else None
  {
    var i := 1;
    while i < |ds|
      invariant 1 <= i
      invariant forall j, k :: 0 <= j < k < |ds| && k < i ==> ds[j].id < ds[k].id
    {
      if ds[i - 1].id >= ds[i].id {
        assert !WellFormed(DomainRegistry(ds, next));
        return None;
      }
      i := i + 1;
    }
    if |ds| > 0 && ds[|ds| - 1].id >= next {
      return None;
    }
    out := Some(DomainRegistry(ds, next));
  }

  function Retain(r: DomainRegistry, n: nat): DomainRegistry {
    if n <= |r.domains| then r.(domains := r.domains[..n]) else r
  }
}
