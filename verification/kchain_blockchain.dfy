/** The kchain ledger engine (src/kchain/blockchain.go): a candidate
    transaction is verified against the head of the chain, applied to the
    ownership projection, and only then appended; an append that fails
    after the projection changed is fatal. Startup replays the log from
    sequence 1. */
module KChain {
  import opened Common
  import opened KChainStore

  // ---------------------------------------------------------------------
  // Injection and replay as functions of the log and the projection

  /** The predecessor a candidate is verified against: the head of the log
      when there is one, none otherwise. */
  function Predecessor(log: seq<Tx>): (r: Option<Tx>)
    ensures r.Some? <==> |log| > 0
    ensures r.Some? ==> r.value == log[|log| - 1]
  {
    if |log| == 0 then None else Some(log[|log| - 1])
  }

  /** The projection update for one verified transaction: a generation adds
      the kitty for its receiver, anything else moves it from `from` to
      `to`. */
  function ApplyTx(rules: TxRules, pk: PubKey, p: Projection, tx: Tx): (r: Result<Projection>)
    ensures r.Ok? ==> r.value.owners == p.owners[tx.kittyId := tx.to]
    ensures rules.isGen(tx, pk) ==> (r.Ok? <==> tx.kittyId !in p.owners)
    ensures !rules.isGen(tx, pk) ==> (r.Ok? <==> tx.kittyId in p.owners && p.owners[tx.kittyId] == tx.from)
    ensures r.Err? ==> r.error == (if rules.isGen(tx, pk) then DuplicateKitty
                                   else if tx.kittyId !in p.owners then UnknownKitty
                                   else OwnerMismatch)
    ensures r.Ok? && p.Consistent() ==> r.value.Consistent()
  {
    if rules.isGen(tx, pk) then ApplyCreation(p, tx.kittyId, tx.to)
    else ApplyTransfer(p, tx.kittyId, tx.from, tx.to)
  }

  /** What `InjectTx` does to the projection when the chain holds `log`:
      verify against the head, then apply. */
  function InjectStep(rules: TxRules, pk: PubKey, log: seq<Tx>, p: Projection, tx: Tx): (r: Result<Projection>)
    ensures rules.verify(tx, Predecessor(log)).Fail? ==> r == Err(rules.verify(tx, Predecessor(log)).error)
    ensures r.Ok? <==> rules.verify(tx, Predecessor(log)).Pass? && ApplyTx(rules, pk, p, tx).Ok?
    ensures r.Ok? ==> r.value == ApplyTx(rules, pk, p, tx).value
    ensures rules.verify(tx, Predecessor(log)).Pass? && r.Err? ==> r.error == ApplyTx(rules, pk, p, tx).error
  {
    match rules.verify(tx, Predecessor(log))
    case Fail(e) => Err(e)
    case Pass => ApplyTx(rules, pk, p, tx)
  }

  /** Where a replay stopped: the projection reached and the error, if any. */
  datatype ReplayResult = ReplayResult(state: Projection, outcome: Outcome)

  /** `InitState()` from sequence `i` on, as written: every transaction is
      verified against NO predecessor, because `prev` is never assigned in
      the loop; the first error ends the replay. */
  function Replay(rules: TxRules, pk: PubKey, log: seq<Tx>, p: Projection, i: nat): (r: ReplayResult)
    ensures p.Consistent() ==> r.state.Consistent()
    ensures forall k :: k in p.owners ==> k in r.state.owners
    ensures i >= |log| ==> r == ReplayResult(p, Pass)
    decreases |log| - i
  {
    if i >= |log| then ReplayResult(p, Pass)
    else
      match rules.verify(log[i], None)
      case Fail(e) => ReplayResult(p, Fail(e))
      case Pass =>
        match ApplyTx(rules, pk, p, log[i])
        case Err(e) => ReplayResult(p, Fail(e))
        case Ok(q) => Replay(rules, pk, log, q, i + 1)
  }

  /** The replay as intended: each transaction is verified against the one
      before it in the log, the predecessor it was injected against. */
  function ReplayLinked(rules: TxRules, pk: PubKey, log: seq<Tx>, p: Projection, i: nat): (r: ReplayResult)
    requires i <= |log|
    ensures p.Consistent() ==> r.state.Consistent()
    ensures forall k :: k in p.owners ==> k in r.state.owners
    decreases |log| - i
  {
    if i == |log| then ReplayResult(p, Pass)
    else
      match InjectStep(rules, pk, log[..i], p, log[i])
      case Err(e) => ReplayResult(p, Fail(e))
      case Ok(q) => ReplayLinked(rules, pk, log, q, i + 1)
  }

  /** Sequential injection of `txs` into a chain that holds `log`, each one
      appended after its projection update; the first rejection is
      returned. */
  function Injected(rules: TxRules, pk: PubKey, log: seq<Tx>, p: Projection, txs: seq<Tx>): (r: Result<Projection>)
    decreases |txs|
  {
    if txs == [] then Ok(p)
    else
      match InjectStep(rules, pk, log, p, txs[0])
      case Err(e) => Err(e)
      case Ok(q) => Injected(rules, pk, log + [txs[0]], q, txs[1..])
  }

  /** Injection keeps the projection consistent and never loses a kitty. */
  lemma {:induction false} InjectedPreserves(rules: TxRules, pk: PubKey, log: seq<Tx>, p: Projection, txs: seq<Tx>)
    requires Injected(rules, pk, log, p, txs).Ok?
    ensures p.Consistent() ==> Injected(rules, pk, log, p, txs).value.Consistent()
    ensures forall k :: k in p.owners ==> k in Injected(rules, pk, log, p, txs).value.owners
    decreases |txs|
  {
    if txs != [] {
      var q := InjectStep(rules, pk, log, p, txs[0]).value;
      InjectedPreserves(rules, pk, log + [txs[0]], q, txs[1..]);
    }
  }

  lemma {:induction false} LinkedReplayMatchesInjectionFrom(rules: TxRules, pk: PubKey, pre: seq<Tx>, txs: seq<Tx>, p: Projection, q: Projection)
    requires Injected(rules, pk, pre, p, txs) == Ok(q)
    ensures ReplayLinked(rules, pk, pre + txs, p, |pre|) == ReplayResult(q, Pass)
    decreases |txs|
  {
    var log := pre + txs;
    if txs != [] {
      assert log[..|pre|] == pre && log[|pre|] == txs[0];
      var p' := InjectStep(rules, pk, pre, p, txs[0]).value;
      assert (pre + [txs[0]]) + txs[1..] == log;
      LinkedReplayMatchesInjectionFrom(rules, pk, pre + [txs[0]], txs[1..], p', q);
    }
  }

  /** The intended replay reproduces the projection that injection built:
      if the transactions after the sequence-0 entry `genesis` were all
      accepted by injection, starting from projection `p`, replaying the log
      they form from sequence 1 yields exactly the same projection. */
  lemma LinkedReplayMatchesInjection(rules: TxRules, pk: PubKey, genesis: Tx, txs: seq<Tx>, p: Projection, q: Projection)
    requires Injected(rules, pk, [genesis], p, txs) == Ok(q)
    ensures ReplayLinked(rules, pk, [genesis] + txs, p, 1) == ReplayResult(q, Pass)
  {
    LinkedReplayMatchesInjectionFrom(rules, pk, [genesis], txs, p, q);
  }

  /** The replay as written and the intended one agree on a log whose
      transactions each get the same verdict from `Verify` against no
      predecessor as against their predecessor in the log. */
  lemma {:induction false} ReplayAgreesWithLinked(rules: TxRules, pk: PubKey, log: seq<Tx>, p: Projection, i: nat)
    requires i <= |log|
    requires forall j :: i <= j < |log| ==> rules.verify(log[j], None) == rules.verify(log[j], Predecessor(log[..j]))
    ensures Replay(rules, pk, log, p, i) == ReplayLinked(rules, pk, log, p, i)
    decreases |log| - i
  {
    if i < |log| {
      assert rules.verify(log[i], None) == rules.verify(log[i], Predecessor(log[..i]));
      match ApplyTx(rules, pk, p, log[i])
      case Err(_) =>
      case Ok(q) => ReplayAgreesWithLinked(rules, pk, log, q, i + 1);
    }
  }

  /** Hence the replay as written reproduces the projection injection built
      whenever no replayed transaction's verdict depends on its predecessor
      being supplied. */
  lemma ReplayMatchesInjectionWhenNilAgrees(rules: TxRules, pk: PubKey, genesis: Tx, txs: seq<Tx>, p: Projection, q: Projection)
    requires Injected(rules, pk, [genesis], p, txs) == Ok(q)
    requires var log := [genesis] + txs;
             forall j :: 1 <= j < |log| ==> rules.verify(log[j], None) == rules.verify(log[j], Predecessor(log[..j]))
    ensures Replay(rules, pk, [genesis] + txs, p, 1) == ReplayResult(q, Pass)
  {
    ReplayAgreesWithLinked(rules, pk, [genesis] + txs, p, 1);
    LinkedReplayMatchesInjection(rules, pk, genesis, txs, p, q);
  }

  /** Transaction rules that check what the comment in `InitState` says
      `Verify` checks: a transaction without predecessor must be number 0,
      any other must follow its predecessor's number and name its hash. */
  function SequenceLinkedRules(): TxRules
  {
    TxRules(
      (tx: Tx) => [],
      (tx: Tx, prev: Option<Tx>) =>
        match prev
        case None => if tx.seqNo == 0 then Pass else Fail(Rejected(1))
        case Some(pt) => if tx.seqNo == pt.seqNo + 1 && tx.prevHash == [] then Pass else Fail(Rejected(1)),
      (tx: Tx, pk: PubKey) => true)
  }

  /** Under such rules a log that injection accepted is refused by the
      replay as written: the transaction at sequence 1 is verified against
      no predecessor. The intended replay accepts it. */
  lemma NilPredecessorRejectsReplay()
    ensures var rules := SequenceLinkedRules();
            var genesis := Tx(0, [], 0, [], [], []);
            var tx := Tx(1, [], 7, [], [1], []);
            && Injected(rules, [], [genesis], EmptyProjection, [tx]).Ok?
            && Replay(rules, [], [genesis, tx], EmptyProjection, 1).outcome == Fail(Rejected(1))
            && ReplayLinked(rules, [], [genesis, tx], EmptyProjection, 1).outcome == Pass
  {
    var rules := SequenceLinkedRules();
    var genesis := Tx(0, [], 0, [], [], []);
    var tx := Tx(1, [], 7, [], [1], []);
    assert [genesis, tx][..1] == [genesis];
    assert [genesis] + [tx] == [genesis, tx];
  }

  // ---------------------------------------------------------------------
  // The engine

  /** `AddressInfo`: an address and the kitties it holds. */
  datatype AddressInfo = AddressInfo(address: Address, kitties: set<KittyId>)

  class BlockChain {
    const rules: TxRules
    const creatorPK: PubKey
    const chain: ChainDB<Tx>
    const state: StateDB

    ghost predicate Valid()
      reads chain, state
    {
      chain.Valid() && state.Valid() && chain.hashOf == rules.hash
    }

    constructor (rules: TxRules, creatorPK: PubKey, chain: ChainDB<Tx>, state: StateDB)
      requires chain.Valid() && state.Valid() && chain.hashOf == rules.hash
      ensures Valid()
      ensures this.rules == rules && this.creatorPK == creatorPK && this.chain == chain && this.state == state
    {
      this.rules := rules;
      this.creatorPK := creatorPK;
      this.chain := chain;
      this.state := state;
    }

    /** `InitState()`: replay sequences 1 .. Len()-1, verifying each against
        the never-assigned `prev` and applying it, stopping at the first
        error. */
    method InitState() returns (e: Outcome)
      requires Valid()
      modifies state
      ensures Valid()
      ensures var r := Replay(rules, creatorPK, chain.txs, old(state.View()), 1);
              e == r.outcome && state.View() == r.state
    {
      var prev: Option<Tx> := None;
      var i := 1;
      while i < chain.Len()
        invariant Valid() && prev == None
        invariant i >= 1
        invariant Replay(rules, creatorPK, chain.txs, state.View(), i)
               == Replay(rules, creatorPK, chain.txs, old(state.View()), 1)
        decreases |chain.txs| - i
      {
        var tx := chain.GetTxOfSeq(i).value;
        var verified := rules.verify(tx, prev);
        if verified.Fail? {
          return verified;
        }
        if rules.isGen(tx, creatorPK) {
          e := state.AddKitty(tx.kittyId, tx.to);
        } else {
          e := state.MoveKitty(tx.kittyId, tx.from, tx.to);
        }
        if e.Fail? {
          return;
        }
        i := i + 1;
      }
      e := Pass;
    }

    /** `InjectTx(tx)`: verify against the head, update the projection, then
        append. A rejection changes nothing; an append refused after the
        projection changed is a panic, reported as `Fatal`. */
    method InjectTx(tx: Tx) returns (e: Outcome)
      requires Valid()
      modifies chain, state
      ensures Valid()
      ensures var r := InjectStep(rules, creatorPK, old(chain.txs), old(state.View()), tx);
              && (r.Err? ==> e == Fail(r.error) && chain.txs == old(chain.txs) && state.View() == old(state.View()))
              && (r.Ok? ==> state.View() == r.value)
              && (r.Ok? && chain.admits(old(chain.txs), tx) ==> e == Pass && chain.txs == old(chain.txs) + [tx])
              && (r.Ok? && !chain.admits(old(chain.txs), tx) ==> e.Fail? && e.error.Fatal? && chain.txs == old(chain.txs))
    {
      ghost var applied := ApplyTx(rules, creatorPK, state.View(), tx);
      var prev: Option<Tx> := None;
      var temp := chain.Head();
      if temp.Ok? {
        prev := Some(temp.value);
      }
      assert prev == Predecessor(chain.txs);
      var verified := rules.verify(tx, prev);
      if verified.Fail? {
        return verified;
      }
      if rules.isGen(tx, creatorPK) {
        e := state.AddKitty(tx.kittyId, tx.to);
      } else {
        e := state.MoveKitty(tx.kittyId, tx.from, tx.to);
      }
      assert e == OutcomeOf(applied);
      assert state.View() == if e.Pass? then applied.value else old(state.View());
      if e.Fail? {
        return;
      }
      var appended := chain.AddTx(tx);
      if appended.Fail? {
        return Fail(Fatal(appended.error));
      }
      e := Pass;
    }

    /** `GetHeadTx()`. */
    function GetHeadTx(): (r: Result<Tx>)
      reads chain
      ensures r.Ok? <==> |chain.txs| > 0
      ensures r.Ok? ==> r.value == chain.txs[|chain.txs| - 1]
    {
      chain.Head()
    }

    /** `GetTxOfHash(txHash)`. */
    function GetTxOfHash(h: Hash): (r: Result<Tx>)
      requires Valid()
      reads chain, state
      ensures r.Ok? <==> exists i :: 0 <= i < |chain.txs| && rules.hash(chain.txs[i]) == h
      ensures r.Ok? ==> r.value in chain.txs && rules.hash(r.value) == h
    {
      chain.GetTxOfHash(h)
    }

    /** `GetTxOfSeq(seq)`. */
    function GetTxOfSeq(s: u64): (r: Result<Tx>)
      reads chain
      ensures r.Ok? <==> s < |chain.txs|
      ensures r.Ok? ==> r.value == chain.txs[s]
    {
      chain.GetTxOfSeq(s)
    }

    /** `GetKittyAddress(kittyID)`: the kitty's owner, or an error for an
        unknown kitty. */
    function GetKittyAddress(k: KittyId): (r: Result<Address>)
      reads state
      ensures r.Ok? <==> k in state.owners
      ensures r.Ok? ==> r.value == state.owners[k]
    {
      state.GetAddressOfKitty(k)
    }

    /** `GetAddressInfo(address)`: the queried address and its kitties. */
    function GetAddressInfo(a: Address): (r: AddressInfo)
      requires Valid()
      reads chain, state
      ensures r.address == a
      ensures forall k :: k in r.kitties <==> k in state.owners && state.owners[k] == a
    {
      AddressInfo(a, state.GetKittiesOfAddress(a))
    }
  }

  /** `NewBlockChain(config, chainDB, stateDB)`: replay the log into the
      projection; a failing replay returns no engine. */
  method NewBlockChain(creatorPK: PubKey, rules: TxRules, chainDB: ChainDB<Tx>, stateDB: StateDB)
    returns (bc: BlockChain?, e: Outcome)
    requires chainDB.Valid() && stateDB.Valid() && chainDB.hashOf == rules.hash
    modifies stateDB
    ensures var r := Replay(rules, creatorPK, chainDB.txs, old(stateDB.View()), 1);
            e == r.outcome && stateDB.View() == r.state
    ensures bc == null <==> e.Fail?
    ensures bc != null ==> fresh(bc) && bc.Valid() && bc.chain == chainDB && bc.state == stateDB
    ensures bc != null ==> bc.rules == rules && bc.creatorPK == creatorPK
  {
    bc := new BlockChain(rules, creatorPK, chainDB, stateDB);
    e := bc.InitState();
    if e.Fail? {
      bc := null;
    }
  }
}
