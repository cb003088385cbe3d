/** Adding access keys to an account (devnet/src/account.rs): each round, every key adds at most one more.
    Freshly generated keys are a parameter, and the keys known to the chain are kept beside the account. */
module AccessKeys {

  type SigningKey = string

  /** A key that can send transactions, one at a time. */
  datatype OperatingAccessKey = OperatingAccessKey(signer: SigningKey)

  /** One transaction: this key added that one. */
  datatype Added = Added(sender: SigningKey, key: SigningKey)

  /** `count` doubled `k` times. */
  function Doubled(count: nat, k: nat): nat { if k == 0 then count else 2 * Doubled(count, k - 1) }

  function Min(a: int, b: int): int { if b < a then b else a }

  /** The number of keys after one more round. */
  function Grown(count: nat, desired: nat): nat {
    if count < desired then count + Min(desired - count, count) else count
  }

  function Rounds(count: nat, desired: nat, k: nat): nat {
    if k == 0 then count else Grown(Rounds(count, desired, k - 1), desired)
  }

  /** The keys double every round up to the desired number. */
  lemma {:induction false} RoundsDouble(count: nat, desired: nat, k: nat)
    requires count <= desired
    ensures Rounds(count, desired, k) == Min(desired, Doubled(count, k))
  {
    if k > 0 {
      RoundsDouble(count, desired, k - 1);
    }
  }

  /** The desired number is reached after some round exactly when there is a key to start from, or none is
      wanted. */
  lemma ReachedIff(count: nat, desired: nat)
    requires count <= desired
    ensures (exists k :: Rounds(count, desired, k) == desired) <==> count > 0 || desired == 0
  {
    if k :| Rounds(count, desired, k) == desired {
      RoundsDouble(count, desired, k);
      if count == 0 {
        DoubledZero(k);
      }
    }
    if count > 0 {
      RoundsDouble(count, desired, desired);
      DoubledExceeds(count, desired);
      assert Rounds(count, desired, desired) == desired;
    } else if desired == 0 {
      assert Rounds(count, desired, 0) == desired;
    }
  }

  lemma {:induction false} DoubledExceeds(count: nat, k: nat)
    requires count > 0
    ensures Doubled(count, k) > k
  {
    if k > 0 {
      DoubledExceeds(count, k - 1);
    }
  }

  lemma {:induction false} DoubledZero(k: nat)
    ensures Doubled(0, k) == 0
  {
    if k > 0 {
      DoubledZero(k - 1);
    }
  }

  /** The transactions of one round: the i-th key adds the i-th new one. */
  function RoundOf(keys: seq<OperatingAccessKey>, added: seq<SigningKey>): seq<Added>
    requires |added| <= |keys|
  {
    seq(|added|, i requires 0 <= i < |added| => Added(keys[i].signer, added[i]))
  }

  /** The j-th transaction added the j-th key after the `initial` ones, and an earlier key sent it. */
  ghost predicate AddedInOrder(keys: seq<SigningKey>, initial: nat, sent: seq<Added>) {
    |keys| == initial + |sent| &&
    forall j :: 0 <= j < |sent| ==> sent[j].key == keys[initial + j] && sent[j].sender in keys[..initial + j]
  }

  lemma RoundInOrder(keys: seq<SigningKey>, operating: seq<OperatingAccessKey>, initial: nat, sent: seq<Added>,
                     added: seq<SigningKey>)
    requires AddedInOrder(keys, initial, sent) && |operating| == |keys| && |added| <= |keys|
    requires forall i :: 0 <= i < |keys| ==> operating[i].signer == keys[i]
    ensures AddedInOrder(keys + added, initial, sent + RoundOf(operating, added))
  {
    var keys', sent' := keys + added, sent + RoundOf(operating, added);
    forall j | 0 <= j < |sent'|
      ensures sent'[j].key == keys'[initial + j] && sent'[j].sender in keys'[..initial + j]
    {
      if j < |sent| {
        assert keys'[..initial + j] == keys[..initial + j];
      } else {
        assert keys'[..initial + j][j - |sent|] == keys[j - |sent|];
      }
    }
  }

  class OperatingAccount {
    var accessKeys: seq<SigningKey>
    var keys: seq<OperatingAccessKey>
    /** Transactions sent, oldest first. */
    var sent: seq<Added>
    /** Keys the chain accepts for this account. */
    ghost var onChain: set<SigningKey>

    /** Stored keys and usable keys are the same, place by place, and the chain accepts them. */
    ghost predicate Aligned()
      reads this
    {
      |keys| == |accessKeys| &&
      forall i :: 0 <= i < |keys| ==> keys[i].signer == accessKeys[i] && accessKeys[i] in onChain
    }

    constructor (accessKeys: seq<SigningKey>, ghost onChain: set<SigningKey>)
      requires forall i :: 0 <= i < |accessKeys| ==> accessKeys[i] in onChain
      ensures Aligned() && this.accessKeys == accessKeys && sent == [] && this.onChain == onChain
    {
      this.accessKeys := accessKeys;
      keys := seq(|accessKeys|, i requires 0 <= i < |accessKeys| => OperatingAccessKey(accessKeys[i]));
      sent := [];
      this.onChain := onChain;
    }

    /** One round: `added` were generated for the first `|added|` keys, which send at the same time. */
    method Round(added: seq<SigningKey>)
      requires Aligned() && |added| <= |keys|
      modifies this
      ensures Aligned() && accessKeys == old(accessKeys) + added
      ensures sent == old(sent) + RoundOf(old(keys), added)
      ensures onChain == old(onChain) + set k | k in added
    {
      sent := sent + RoundOf(keys, added);
      onChain := onChain + set k | k in added;
      for i := 0 to |added|
        invariant Aligned() && accessKeys == old(accessKeys) + added[..i]
        invariant sent == old(sent) + RoundOf(old(keys), added) && onChain == old(onChain) + set k | k in added
      {
        accessKeys := accessKeys + [added[i]];
        keys := keys + [OperatingAccessKey(added[i])];
      }
      assert added[..|added|] == added;
    }

    /** The account as it grew out of these keys and transactions: the keys after them were generated in
        turn, each added by an earlier key. */
    ghost predicate GrownFrom(keys0: seq<SigningKey>, sent0: seq<Added>, generate: nat -> SigningKey)
      reads this
    {
      Aligned() && keys0 <= accessKeys && sent0 <= sent && AddedInOrder(accessKeys, |keys0|, sent[|sent0|..]) &&
      forall i :: |keys0| <= i < |accessKeys| ==> accessKeys[i] == generate(i - |keys0|)
    }

    method GrowOnce(desired: nat, generate: nat -> SigningKey, initial: nat, ghost keys0: seq<SigningKey>,
                    ghost sent0: seq<Added>)
      requires GrownFrom(keys0, sent0, generate) && |keys0| == initial && |keys| < desired
      modifies this
      ensures GrownFrom(keys0, sent0, generate) && |keys| == Grown(old(|keys|), desired)
    {
      var toAdd, offset := Min(desired - |keys|, |keys|), |accessKeys| - initial;
      var added := seq(toAdd, i requires 0 <= i < toAdd => generate(offset + i));
      RoundInOrder(accessKeys, keys, initial, sent[|sent0|..], added);
      ghost var before := sent;
      Round(added);
      assert sent[|sent0|..] == before[|sent0|..] + sent[|before|..];
    }

    /** Ends with the desired number of keys, or those there were if they were more, after the least number
        of doublings that can reach it. `generate(n)` is the n-th key generated. */
    method EnsureHaveNAccessKeys(desired: nat, generate: nat -> SigningKey) returns (rounds: nat)
      requires Aligned() && (|keys| > 0 || desired == 0)
      modifies this
      ensures GrownFrom(old(accessKeys), old(sent), generate)
      ensures |keys| == if old(|keys|) < desired then desired else old(|keys|)
      ensures desired <= Doubled(old(|keys|), rounds)
      ensures rounds > 0 ==> Doubled(old(|keys|), rounds - 1) < desired
    {
      rounds := 0;
      var initial := |accessKeys|;
      while |keys| < desired
        invariant GrownFrom(old(accessKeys), old(sent), generate)
        invariant |keys| > 0 || desired == 0
        invariant if initial < desired then |keys| == Rounds(initial, desired, rounds) <= desired
                  else |keys| == initial && rounds == 0
        invariant rounds > 0 ==> Doubled(initial, rounds - 1) < desired
        decreases desired - |keys|
      {
        RoundsDouble(initial, desired, rounds);
        GrowOnce(desired, generate, initial, old(accessKeys), old(sent));
        rounds := rounds + 1;
      }
      if initial < desired {
        RoundsDouble(initial, desired, rounds);
      }
    }
  }
}
