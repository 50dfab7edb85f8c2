/** The collaborators of the iko ledger engine: its transaction type, the
    transaction rules it calls (signature and hash checks, which live in
    code that is not part of this model) and the two stores it drives, the
    chain log (Common.ChainDB) and the ownership projection (StateDB). Only the
    contracts that src/iko/blockchain.go relies on are stated. */
module IkoStore {
  import opened Common

  /** An iko transaction: it moves kitty `kittyId` from the owner recorded
      by the transaction whose hash is `input` to address `out`. */
  datatype Tx = Tx(kittyId: KittyId, input: Hash, out: Address, sig: seq<bv8>)

  /** The methods of the Transaction type that the engine calls, taken as
      uninterpreted functions: `Hash()`, `Verify(unspent, creatorPK)` and
      `IsKittyGen(creatorPK)`. */
  datatype TxRules = TxRules(
    hash: Tx -> Hash,
    verify: (Tx, Option<Tx>, PubKey) -> Outcome,
    isGen: (Tx, PubKey) -> bool)
  {
    /** A transaction that verifies without an unspent predecessor is a
        generation transaction. The checker relies on this: on a transfer it
        reads the predecessor's output without a nil check. */
    ghost predicate NilVerifyImpliesGen(pk: PubKey)
    {
      forall tx :: verify(tx, None, pk).Pass? ==> isGen(tx, pk)
    }
  }

  /** A kitty's ownership record: the hash of its unspent transaction and its
      current owner. */
  datatype KittyState = KittyState(unspent: Hash, owner: Address)

  /** The ownership projection: each kitty's record, and each address's set
      of kitties. */
  datatype Projection = Projection(
    kitties: map<KittyId, KittyState>,
    holdings: map<Address, set<KittyId>>)
  {
    /** The kitties held by `a`; an address never seen holds none. */
    function Held(a: Address): set<KittyId>
    {
      if a in holdings then holdings[a] else {}
    }

    /** The two maps agree: every kitty is listed under its owner and under
        nobody else. */
    ghost predicate Consistent()
    {
      && (forall k :: k in kitties ==> k in Held(kitties[k].owner))
      && (forall a, k :: a in holdings && k in holdings[a] ==> k in kitties && kitties[k].owner == a)
    }
  }

  const EmptyProjection := Projection(map[], map[])

  /** `AddKitty(hash, kittyID, out)`: record a newly generated kitty, owned by
      `out`, with `h` as its unspent transaction. Fails on a kitty that is
      already recorded. */
  function ApplyCreation(p: Projection, h: Hash, k: KittyId, out: Address): (r: Result<Projection>)
    ensures r.Err? <==> k in p.kitties
    ensures r.Err? ==> r.error == DuplicateKitty
    ensures r.Ok? ==> r.value.kitties == p.kitties[k := KittyState(h, out)]
    ensures r.Ok? ==> forall a :: a != out ==> r.value.Held(a) == p.Held(a)
    ensures r.Ok? ==> r.value.Held(out) == p.Held(out) + {k}
    ensures r.Ok? && p.Consistent() ==> r.value.Consistent()
  {
    if k in p.kitties then Err(DuplicateKitty)
    else
      Ok(Projection(p.kitties[k := KittyState(h, out)], p.holdings[out := p.Held(out) + {k}]))
  }

  /** `MoveKitty(hash, kittyID, from, to)`: hand kitty `k` from `from` to
      `to`, with `h` as its new unspent transaction. Fails on an unknown
      kitty and on a recorded owner other than `from`. */
  function ApplyTransfer(p: Projection, h: Hash, k: KittyId, from: Address, to: Address): (r: Result<Projection>)
    ensures r.Ok? <==> k in p.kitties && p.kitties[k].owner == from
    ensures k !in p.kitties ==> r == Err(UnknownKitty)
    ensures k in p.kitties && p.kitties[k].owner != from ==> r == Err(OwnerMismatch)
    ensures r.Ok? ==> r.value.kitties == p.kitties[k := KittyState(h, to)]
    ensures r.Ok? ==> forall a :: a != from && a != to ==> r.value.Held(a) == p.Held(a)
    ensures r.Ok? ==> k in r.value.Held(to)
    ensures r.Ok? && from != to ==> r.value.Held(from) == p.Held(from) - {k}
    ensures r.Ok? && p.Consistent() ==> r.value.Consistent()
  {
    if k !in p.kitties then Err(UnknownKitty)
    else if p.kitties[k].owner != from then Err(OwnerMismatch)
    else
      var left := p.holdings[from := p.Held(from) - {k}];
      var moved := Projection(p.kitties[k := KittyState(h, to)], left[to := (if to in left then left[to] else {}) + {k}]);
      assert p.Consistent() ==> moved.Consistent() by {
        if p.Consistent() {
          forall a, j | a in moved.holdings && j in moved.holdings[a]
            ensures j in moved.kitties && moved.kitties[j].owner == a
          {
            if j != k {
              assert a in p.holdings && j in p.holdings[a];
            }
          }
        }
      }
      Ok(moved)
  }

  /** The ownership projection store. */
  class StateDB {
    var kitties: map<KittyId, KittyState>
    var holdings: map<Address, set<KittyId>>

    function View(): Projection
      reads this
    {
      Projection(kitties, holdings)
    }

    ghost predicate Valid()
      reads this
    {
      View().Consistent()
    }

    constructor ()
      ensures Valid() && View() == EmptyProjection
    {
      kitties := map[];
      holdings := map[];
    }

    /** `GetKittyUnspentTx(kittyID)`: the hash of the kitty's unspent
        transaction, if the kitty is recorded. */
    function GetKittyUnspentTx(k: KittyId): (r: Option<Hash>)
      reads this
      ensures r.Some? <==> k in kitties
      ensures r.Some? ==> r.value == kitties[k].unspent
    {
      if k in kitties then Some(kitties[k].unspent) else None
    }

    /** `GetKittyState(kittyID)`: the kitty's record, if any. */
    function GetKittyState(k: KittyId): (r: Option<KittyState>)
      reads this
      ensures r.Some? <==> k in kitties
      ensures r.Some? ==> r.value == kitties[k]
    {
      if k in kitties then Some(kitties[k]) else None
    }

    /** `GetAddressState(address)`: the kitties the address holds. */
    function GetAddressState(a: Address): (r: set<KittyId>)
      requires Valid()
      reads this
      ensures forall k :: k in r <==> k in kitties && kitties[k].owner == a
    {
      View().Held(a)
    }

    /** `AddKitty(hash, kittyID, out)`. */
    method AddKitty(h: Hash, k: KittyId, out: Address) returns (e: Outcome)
      requires Valid()
      modifies this
      ensures Valid()
      ensures e == OutcomeOf(ApplyCreation(old(View()), h, k, out))
      ensures View() == (if e.Pass? then ApplyCreation(old(View()), h, k, out).value else old(View()))
    {
      var r := ApplyCreation(View(), h, k, out);
      if r.Err? {
        return Fail(r.error);
      }
      kitties, holdings := r.value.kitties, r.value.holdings;
      e := Pass;
    }

    /** `MoveKitty(hash, kittyID, from, to)`. */
    method MoveKitty(h: Hash, k: KittyId, from: Address, to: Address) returns (e: Outcome)
      requires Valid()
      modifies this
      ensures Valid()
      ensures e == OutcomeOf(ApplyTransfer(old(View()), h, k, from, to))
      ensures View() == (if e.Pass? then ApplyTransfer(old(View()), h, k, from, to).value else old(View()))
    {
      var r := ApplyTransfer(View(), h, k, from, to);
      if r.Err? {
        return Fail(r.error);
      }
      kitties, holdings := r.value.kitties, r.value.holdings;
      e := Pass;
    }
  }
}
