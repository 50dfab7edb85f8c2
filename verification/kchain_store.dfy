/** The collaborators of the kchain ledger engine: its transaction type,
    the transaction rules it calls, and its two stores, a head-linked chain
    log (Common.ChainDB) and an ownership projection. Only the contracts that
    src/kchain/blockchain.go relies on are stated. */
module KChainStore {
  import opened Common

  /** A kchain transaction: number `seqNo` in the log, linked to its
      predecessor by `prevHash`, moving kitty `kittyId` from `from` to `to`. */
  datatype Tx = Tx(seqNo: u64, prevHash: Hash, kittyId: KittyId, from: Address, to: Address, sig: seq<bv8>)

  /** The methods of the Transaction type that the engine calls, taken as
      uninterpreted functions: `Hash()`, `Verify(prev)` (hash, sequence and
      signature against the predecessor, or against none) and
      `IsKittyGen(creatorPK)`. */
  datatype TxRules = TxRules(
    hash: Tx -> Hash,
    verify: (Tx, Option<Tx>) -> Outcome,
    isGen: (Tx, PubKey) -> bool)

  /** The ownership projection: each kitty's owner, and each address's set
      of kitties. */
  datatype Projection = Projection(
    owners: map<KittyId, Address>,
    holdings: map<Address, set<KittyId>>)
  {
    /** The kitties held by `a`; an address never seen holds none. */
    function Held(a: Address): set<KittyId>
    {
      if a in holdings then holdings[a] else {}
    }

    /** The two maps agree: every kitty is listed under its owner and under
        nobody else. */
    ghost predicate Consistent()
    {
      && (forall k :: k in owners ==> k in Held(owners[k]))
      && (forall a, k :: a in holdings && k in holdings[a] ==> k in owners && owners[k] == a)
    }
  }

  const EmptyProjection := Projection(map[], map[])

  /** `AddKitty(kittyID, address)`: record a newly generated kitty owned by
      `to`. Fails on a kitty that is already recorded. */
  function ApplyCreation(p: Projection, k: KittyId, to: Address): (r: Result<Projection>)
    ensures r.Err? <==> k in p.owners
    ensures r.Err? ==> r.error == DuplicateKitty
    ensures r.Ok? ==> r.value.owners == p.owners[k := to]
    ensures r.Ok? ==> forall a :: a != to ==> r.value.Held(a) == p.Held(a)
    ensures r.Ok? ==> r.value.Held(to) == p.Held(to) + {k}
    ensures r.Ok? && p.Consistent() ==> r.value.Consistent()
  {
    if k in p.owners then Err(DuplicateKitty)
    else Ok(Projection(p.owners[k := to], p.holdings[to := p.Held(to) + {k}]))
  }

  /** `MoveKitty(kittyID, from, to)`: hand kitty `k` from `from` to `to`.
      Fails on an unknown kitty and on a recorded owner other than `from`. */
  function ApplyTransfer(p: Projection, k: KittyId, from: Address, to: Address): (r: Result<Projection>)
    ensures r.Ok? <==> k in p.owners && p.owners[k] == from
    ensures k !in p.owners ==> r == Err(UnknownKitty)
    ensures k in p.owners && p.owners[k] != from ==> r == Err(OwnerMismatch)
    ensures r.Ok? ==> r.value.owners == p.owners[k := to]
    ensures r.Ok? ==> forall a :: a != from && a != to ==> r.value.Held(a) == p.Held(a)
    ensures r.Ok? ==> k in r.value.Held(to)
    ensures r.Ok? && from != to ==> r.value.Held(from) == p.Held(from) - {k}
    ensures r.Ok? && p.Consistent() ==> r.value.Consistent()
  {
    if k !in p.owners then Err(UnknownKitty)
    else if p.owners[k] != from then Err(OwnerMismatch)
    else
      var left := p.holdings[from := p.Held(from) - {k}];
      var moved := Projection(p.owners[k := to], left[to := (if to in left then left[to] else {}) + {k}]);
      assert p.Consistent() ==> moved.Consistent() by {
        if p.Consistent() {
          forall a, j | a in moved.holdings && j in moved.holdings[a]
            ensures j in moved.owners && moved.owners[j] == a
          {
            if j != k {
              assert a in p.holdings && j in p.holdings[a];
            }
          }
        }
      }
      Ok(moved)
  }

  /** The ownership projection store. */
  class StateDB {
    var owners: map<KittyId, Address>
    var holdings: map<Address, set<KittyId>>

    function View(): Projection
      reads this
    {
      Projection(owners, holdings)
    }

    ghost predicate Valid()
      reads this
    {
      View().Consistent()
    }

    constructor ()
      ensures Valid() && View() == EmptyProjection
    {
      owners := map[];
      holdings := map[];
    }

    /** `GetAddressOfKitty(kittyID)`: the kitty's owner, or an error for an
        unknown kitty. */
    function GetAddressOfKitty(k: KittyId): (r: Result<Address>)
      reads this
      ensures r.Ok? <==> k in owners
      ensures r.Ok? ==> r.value == owners[k]
      ensures r.Err? ==> r.error == UnknownKitty
    {
      if k in owners then Ok(owners[k]) else Err(UnknownKitty)
    }

    /** `GetKittiesOfAddress(address)`. */
    function GetKittiesOfAddress(a: Address): (r: set<KittyId>)
      requires Valid()
      reads this
      ensures forall k :: k in r <==> k in owners && owners[k] == a
    {
      View().Held(a)
    }

    /** `AddKitty(kittyID, address)`. */
    method AddKitty(k: KittyId, to: Address) returns (e: Outcome)
      requires Valid()
      modifies this
      ensures Valid()
      ensures e == OutcomeOf(ApplyCreation(old(View()), k, to))
      ensures View() == (if e.Pass? then ApplyCreation(old(View()), k, to).value else old(View()))
    {
      var r := ApplyCreation(View(), k, to);
      if r.Err? {
        return Fail(r.error);
      }
      owners, holdings := r.value.owners, r.value.holdings;
      e := Pass;
    }

    /** `MoveKitty(kittyID, from, to)`. */
    method MoveKitty(k: KittyId, from: Address, to: Address) returns (e: Outcome)
      requires Valid()
      modifies this
      ensures Valid()
      ensures e == OutcomeOf(ApplyTransfer(old(View()), k, from, to))
      ensures View() == (if e.Pass? then ApplyTransfer(old(View()), k, from, to).value else old(View()))
    {
      var r := ApplyTransfer(View(), k, from, to);
      if r.Err? {
        return Fail(r.error);
      }
      owners, holdings := r.value.owners, r.value.holdings;
      e := Pass;
    }
  }
}
