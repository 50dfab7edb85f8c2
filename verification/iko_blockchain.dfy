/** The iko ledger engine (src/iko/blockchain.go): every kitty has one
    unspent transaction; a candidate transaction is checked against it,
    applied to the ownership projection, and only then appended to the log.
    Startup replays the log from sequence 1 through the same checker. */
module Iko {
  import opened Common
  import opened IkoStore

  // ---------------------------------------------------------------------
  // The checker (MakeTxChecker) and the replay it drives, as functions of
  // the log and the projection

  /** The unspent predecessor of kitty `k`: none when the projection does
      not know the kitty, the transaction the log holds under the recorded
      unspent hash otherwise, and a lookup error when the log has no such
      transaction. */
  function Unspent(rules: TxRules, log: seq<Tx>, p: Projection, k: KittyId): (r: Result<Option<Tx>>)
    ensures k !in p.kitties ==> r == Ok(None)
    ensures k in p.kitties ==> (r.Err? <==> p.kitties[k].unspent !in IndexOf(rules.hash, log))
    ensures r.Err? ==> r.error == TxNotFound
    ensures k in p.kitties && r.Ok? ==> r.value.Some?
    ensures r.Ok? && r.value.Some? ==> r.value.value in log && rules.hash(r.value.value) == p.kitties[k].unspent
  {
    if k !in p.kitties then Ok(None)
    else
      var idx := IndexOf(rules.hash, log);
      var h := p.kitties[k].unspent;
      if h in idx then Ok(Some(log[idx[h]])) else Err(TxNotFound)
  }

  /** What the checker returned by MakeTxChecker does to the projection `p`
      when the log is `log`: look up the unspent predecessor, verify the
      candidate against it, then record a generation or a transfer. */
  function CheckTx(rules: TxRules, pk: PubKey, log: seq<Tx>, p: Projection, tx: Tx): (r: Result<Projection>)
    requires rules.NilVerifyImpliesGen(pk)
    ensures Unspent(rules, log, p, tx.kittyId).Err? ==> r == Err(TxNotFound)
    ensures Unspent(rules, log, p, tx.kittyId).Ok? ==>
              var u := Unspent(rules, log, p, tx.kittyId).value;
              && (rules.verify(tx, u, pk).Fail? ==> r == Err(rules.verify(tx, u, pk).error))
              && (r.Ok? && rules.isGen(tx, pk) ==> tx.kittyId !in p.kitties)
              && (r.Ok? && !rules.isGen(tx, pk) ==>
                    u.Some? && tx.kittyId in p.kitties && p.kitties[tx.kittyId].owner == u.value.out)
    ensures var u := Unspent(rules, log, p, tx.kittyId);
            u.Ok? && rules.verify(tx, u.value, pk) == Pass ==>
              && (rules.isGen(tx, pk) ==>
                    (r.Ok? <==> tx.kittyId !in p.kitties) && (r.Err? ==> r.error == DuplicateKitty))
              && (!rules.isGen(tx, pk) ==>
                    && u.value.Some?
                    && (r.Ok? <==> p.kitties[tx.kittyId].owner == u.value.value.out)
                    && (r.Err? ==> r.error == OwnerMismatch))
    ensures r.Ok? ==> rules.verify(tx, Unspent(rules, log, p, tx.kittyId).value, pk) == Pass
    ensures r.Ok? ==> r.value.kitties == p.kitties[tx.kittyId := KittyState(rules.hash(tx), tx.out)]
    ensures r.Ok? && p.Consistent() ==> r.value.Consistent()
  {
    match Unspent(rules, log, p, tx.kittyId)
    case Err(e) => Err(e)
    case Ok(unspent) =>
      match rules.verify(tx, unspent, pk)
      case Fail(e) => Err(e)
      case Pass =>
        if rules.isGen(tx, pk) then
          ApplyCreation(p, rules.hash(tx), tx.kittyId, tx.out)
        else
          ApplyTransfer(p, rules.hash(tx), tx.kittyId, unspent.value.out, tx.out)
  }

  /** Where a replay stopped: the projection reached and the error, if any. */
  datatype ReplayResult = ReplayResult(state: Projection, outcome: Outcome)

  /** InitState from sequence `i` on: each transaction of the log goes
      through the checker in order, and the first error ends the replay
      with the projection as the earlier transactions left it. */
  function Replay(rules: TxRules, pk: PubKey, log: seq<Tx>, p: Projection, i: nat): (r: ReplayResult)
    requires rules.NilVerifyImpliesGen(pk)
    ensures p.Consistent() ==> r.state.Consistent()
    ensures forall k :: k in p.kitties ==> k in r.state.kitties
    ensures i >= |log| ==> r == ReplayResult(p, Pass)
    decreases |log| - i
  {
    if i >= |log| then ReplayResult(p, Pass)
    else
      match CheckTx(rules, pk, log, p, log[i])
      case Err(e) => ReplayResult(p, Fail(e))
      case Ok(q) => Replay(rules, pk, log, q, i + 1)
  }

  /** Sequential injection of `txs` into a chain that holds `log`, each
      candidate checked against the chain as it stands; the first rejection
      is returned. */
  function Injected(rules: TxRules, pk: PubKey, log: seq<Tx>, p: Projection, txs: seq<Tx>): (r: Result<Projection>)
    requires rules.NilVerifyImpliesGen(pk)
    decreases |txs|
  {
    if txs == [] then Ok(p)
    else
      match CheckTx(rules, pk, log, p, txs[0])
      case Err(e) => Err(e)
      case Ok(q) => Injected(rules, pk, log + [txs[0]], q, txs[1..])
  }

  /** Injection keeps the projection consistent and never loses a kitty. */
  lemma {:induction false} InjectedPreserves(rules: TxRules, pk: PubKey, log: seq<Tx>, p: Projection, txs: seq<Tx>)
    requires rules.NilVerifyImpliesGen(pk)
    requires Injected(rules, pk, log, p, txs).Ok?
    ensures p.Consistent() ==> Injected(rules, pk, log, p, txs).value.Consistent()
    ensures forall k :: k in p.kitties ==> k in Injected(rules, pk, log, p, txs).value.kitties
    decreases |txs|
  {
    if txs != [] {
      var q := CheckTx(rules, pk, log, p, txs[0]).value;
      InjectedPreserves(rules, pk, log + [txs[0]], q, txs[1..]);
    }
  }

  /** Every unspent hash the projection records belongs to a transaction of
      `log`. */
  ghost predicate Anchored(rules: TxRules, p: Projection, log: seq<Tx>)
  {
    forall k :: k in p.kitties ==> p.kitties[k].unspent in IndexOf(rules.hash, log)
  }

  /** Appending to the log does not change an anchored predecessor lookup. */
  lemma UnspentStable(rules: TxRules, pre: seq<Tx>, log: seq<Tx>, p: Projection, k: KittyId)
    requires pre <= log && HashesDistinct(rules.hash, log) && Anchored(rules, p, pre)
    ensures Unspent(rules, log, p, k) == Unspent(rules, pre, p, k)
  {
    if k in p.kitties {
      var h := p.kitties[k].unspent;
      IndexOfPrefix(rules.hash, pre, log, h);
      assert log[IndexOf(rules.hash, pre)[h]] == pre[IndexOf(rules.hash, pre)[h]];
    }
  }

  /** The checker gives the same verdict against a longer log, as long as
      the projection is anchored in the shorter one. */
  lemma CheckTxStable(rules: TxRules, pk: PubKey, pre: seq<Tx>, log: seq<Tx>, p: Projection, tx: Tx)
    requires rules.NilVerifyImpliesGen(pk)
    requires pre <= log && HashesDistinct(rules.hash, log) && Anchored(rules, p, pre)
    ensures CheckTx(rules, pk, log, p, tx) == CheckTx(rules, pk, pre, p, tx)
  {
    UnspentStable(rules, pre, log, p, tx.kittyId);
  }

  /** After the checker accepts `tx` and the chain appends it, the next
      candidate for the same kitty is verified against `tx` itself: the
      predecessor it replaced can no longer be spent. */
  lemma {:induction false} AcceptedTxBecomesUnspent(rules: TxRules, pk: PubKey, log: seq<Tx>, p: Projection, tx: Tx)
    requires rules.NilVerifyImpliesGen(pk)
    requires CheckTx(rules, pk, log, p, tx).Ok?
    ensures Unspent(rules, log + [tx], CheckTx(rules, pk, log, p, tx).value, tx.kittyId) == Ok(Some(tx))
  {
    var q := CheckTx(rules, pk, log, p, tx).value;
    var log' := log + [tx];
    var idx := IndexOf(rules.hash, log');
    assert log'[|log|] == tx;
    var j := idx[rules.hash(tx)];
    assert j == |log| by {
      assert |log| <= j;
    }
  }

  /** One accepted injection keeps the projection anchored in the log it
      extends. */
  lemma AnchoredStep(rules: TxRules, pk: PubKey, pre: seq<Tx>, p: Projection, tx: Tx)
    requires rules.NilVerifyImpliesGen(pk)
    requires Anchored(rules, p, pre) && CheckTx(rules, pk, pre, p, tx).Ok?
    ensures Anchored(rules, CheckTx(rules, pk, pre, p, tx).value, pre + [tx])
  {
    var q := CheckTx(rules, pk, pre, p, tx).value;
    var pre' := pre + [tx];
    forall k | k in q.kitties
      ensures q.kitties[k].unspent in IndexOf(rules.hash, pre')
    {
      if k == tx.kittyId {
        assert pre'[|pre|] == tx;
      } else {
        var h := p.kitties[k].unspent;
        var i := IndexOf(rules.hash, pre)[h];
        assert pre'[i] == pre[i];
      }
    }
  }

  /** An accepted injection run starts with an accepted first step. */
  lemma InjectedFirst(rules: TxRules, pk: PubKey, pre: seq<Tx>, p: Projection, txs: seq<Tx>, q: Projection)
    requires rules.NilVerifyImpliesGen(pk)
    requires txs != [] && Injected(rules, pk, pre, p, txs) == Ok(q)
    ensures CheckTx(rules, pk, pre, p, txs[0]).Ok?
    ensures Injected(rules, pk, pre + [txs[0]], CheckTx(rules, pk, pre, p, txs[0]).value, txs[1..]) == Ok(q)
  {
  }

  /** A replay step that the checker accepts moves on to the next sequence. */
  lemma ReplayStep(rules: TxRules, pk: PubKey, log: seq<Tx>, p: Projection, i: nat)
    requires rules.NilVerifyImpliesGen(pk)
    requires i < |log| && CheckTx(rules, pk, log, p, log[i]).Ok?
    ensures Replay(rules, pk, log, p, i) == Replay(rules, pk, log, CheckTx(rules, pk, log, p, log[i]).value, i + 1)
  {
  }

  lemma {:induction false} ReplayMatchesInjectionFrom(rules: TxRules, pk: PubKey, pre: seq<Tx>, txs: seq<Tx>, p: Projection, q: Projection)
    requires rules.NilVerifyImpliesGen(pk)
    requires HashesDistinct(rules.hash, pre + txs) && Anchored(rules, p, pre)
    requires Injected(rules, pk, pre, p, txs) == Ok(q)
    ensures Replay(rules, pk, pre + txs, p, |pre|) == ReplayResult(q, Pass)
    decreases |txs|
  {
    var log := pre + txs;
    if txs != [] {
      var tx := txs[0];
      var pre' := pre + [tx];
      assert log[|pre|] == tx && pre <= log && pre' + txs[1..] == log;
      InjectedFirst(rules, pk, pre, p, txs, q);
      CheckTxStable(rules, pk, pre, log, p, tx);
      var p' := CheckTx(rules, pk, pre, p, tx).value;
      ReplayStep(rules, pk, log, p, |pre|);
      AnchoredStep(rules, pk, pre, p, tx);
      ReplayMatchesInjectionFrom(rules, pk, pre', txs[1..], p', q);
    }
  }

  /** Startup replay reproduces the projection that injection built: if the
      transactions after the sequence-0 entry `genesis` were injected one by
      one into a fresh projection and all accepted, replaying the log they
      form yields exactly that projection. */
  lemma ReplayMatchesInjection(rules: TxRules, pk: PubKey, genesis: Tx, txs: seq<Tx>, q: Projection)
    requires rules.NilVerifyImpliesGen(pk)
    requires HashesDistinct(rules.hash, [genesis] + txs)
    requires Injected(rules, pk, [genesis], EmptyProjection, txs) == Ok(q)
    ensures Replay(rules, pk, [genesis] + txs, EmptyProjection, 1) == ReplayResult(q, Pass)
  {
    ReplayMatchesInjectionFrom(rules, pk, [genesis], txs, EmptyProjection, q);
  }

  // ---------------------------------------------------------------------
  // Pagination

  /** `totalPageCount(len, pageSize)`: the ceiling of `len / pageSize`, so
      `n` pages of that size hold the `len` transactions with less than one
      page to spare, and there are no pages exactly when there are no
      transactions. Go panics on a zero page size, so the caller must rule
      it out. */
  function TotalPageCount(len: nat, pageSize: nat): (n: nat)
    requires pageSize > 0
    ensures len <= n * pageSize < len + pageSize
    ensures n == 0 <==> len == 0
  {
    var q, m := len / pageSize, len % pageSize;
    assert len == q * pageSize + m;
    if m == 0 then q
    else
      assert (q + 1) * pageSize == q * pageSize + pageSize;
      q + 1
  }

  /** The page count is the least number of pages of that size that hold
      `len` transactions: any `pages` that hold them are at least as many. */
  lemma TotalPageCountIsLeast(len: nat, pageSize: nat, pages: nat)
    requires pageSize > 0 && len <= pages * pageSize
    ensures TotalPageCount(len, pageSize) <= pages
  {
    var n := TotalPageCount(len, pageSize);
    if n > pages {
      MulStep(pages, n, pageSize);
      assert false;
    }
  }

  /** A strictly larger factor adds at least one more `c`. */
  lemma MulStep(a: nat, b: nat, c: nat)
    requires a < b
    ensures a * c + c <= b * c
  {
    assert b * c == a * c + c + (b - a - 1) * c;
  }

  datatype PaginatedTransactions = PaginatedTransactions(totalPageCount: nat, transactions: seq<Tx>)

  /** Go's `(PaginatedTransactions, error)` pair. */
  datatype PageResult = PageResult(page: PaginatedTransactions, outcome: Outcome)

  const NoPage := PaginatedTransactions(0, [])

  // ---------------------------------------------------------------------
  // The engine

  /** `TxAction`, the post-commit side effect. */
  type TxAction = Tx -> Outcome

  /** The no-op action `Prepare` installs. */
  function NoAction(tx: Tx): (e: Outcome)
  {
    Pass
  }

  class BlockChainConfig {
    var creatorPK: PubKey
    var txAction: Option<TxAction>

    constructor (creatorPK: PubKey, txAction: Option<TxAction>)
      ensures this.creatorPK == creatorPK && this.txAction == txAction
    {
      this.creatorPK := creatorPK;
      this.txAction := txAction;
    }

    /** `Prepare()`: install the no-op action when none is set, then report
        whether the creator's public key is valid (`pkCheck` stands for
        `PubKey.Verify`). */
    method Prepare(pkCheck: PubKey -> Outcome) returns (e: Outcome)
      modifies this
      ensures creatorPK == old(creatorPK)
      ensures txAction == (if old(txAction).None? then Some(NoAction) else old(txAction))
      ensures e == pkCheck(creatorPK)
    {
      if txAction.None? {
        txAction := Some(NoAction);
      }
      e := pkCheck(creatorPK);
    }
  }

  class BlockChain {
    const rules: TxRules
    const creatorPK: PubKey
    const chain: ChainDB<Tx>
    const state: StateDB

    ghost predicate Valid()
      reads chain, state
    {
      && chain.Valid()
      && state.Valid()
      && chain.hashOf == rules.hash
      && rules.NilVerifyImpliesGen(creatorPK)
    }

    constructor (rules: TxRules, creatorPK: PubKey, chain: ChainDB<Tx>, state: StateDB)
      requires chain.Valid() && state.Valid() && chain.hashOf == rules.hash
      requires rules.NilVerifyImpliesGen(creatorPK)
      ensures Valid()
      ensures this.rules == rules && this.creatorPK == creatorPK && this.chain == chain && this.state == state
    {
      this.rules := rules;
      this.creatorPK := creatorPK;
      this.chain := chain;
      this.state := state;
    }

    /** The checker closure of `MakeTxChecker(bc)`, run against the chain as
        it stands. A rejected transaction leaves the projection unchanged. */
    method Check(tx: Tx) returns (e: Outcome)
      requires Valid()
      modifies state
      ensures Valid()
      ensures e == OutcomeOf(CheckTx(rules, creatorPK, chain.txs, old(state.View()), tx))
      ensures state.View() == if e.Pass? then CheckTx(rules, creatorPK, chain.txs, old(state.View()), tx).value
                              else old(state.View())
    {
      var unspent: Option<Tx> := None;
      var tempHash := state.GetKittyUnspentTx(tx.kittyId);
      if tempHash.Some? {
        var temp := chain.GetTxOfHash(tempHash.value);
        if temp.Err? {
          return Fail(temp.error);
        }
        unspent := Some(temp.value);
      }
      var verified := rules.verify(tx, unspent, creatorPK);
      if verified.Fail? {
        return verified;
      }
      if rules.isGen(tx, creatorPK) {
        e := state.AddKitty(rules.hash(tx), tx.kittyId, tx.out);
      } else {
        e := state.MoveKitty(rules.hash(tx), tx.kittyId, unspent.value.out, tx.out);
      }
    }

    /** `InitState()`: replay sequences 1 .. Len()-1 through the checker,
        stopping at the first error. */
    method InitState() returns (e: Outcome)
      requires Valid()
      modifies state
      ensures Valid()
      ensures var r := Replay(rules, creatorPK, chain.txs, old(state.View()), 1);
              e == r.outcome && state.View() == r.state
    {
      var i := 1;
      while i < chain.Len()
        invariant Valid()
        invariant i >= 1
        invariant Replay(rules, creatorPK, chain.txs, state.View(), i)
               == Replay(rules, creatorPK, chain.txs, old(state.View()), 1)
        decreases |chain.txs| - i
      {
        var tx := chain.GetTxOfSeq(i).value;
        e := Check(tx);
        if e.Fail? {
          return;
        }
        i := i + 1;
      }
      e := Pass;
    }

    /** `InjectTx(tx)`: `chain.AddTx(tx, checker)` runs the checker on the
        candidate and appends it only when the checker passes. */
    method InjectTx(tx: Tx) returns (e: Outcome)
      requires Valid()
      modifies chain, state
      ensures Valid()
      ensures var r := CheckTx(rules, creatorPK, old(chain.txs), old(state.View()), tx);
              && e == OutcomeOf(r)
              && chain.txs == (if r.Ok? then old(chain.txs) + [tx] else old(chain.txs))
              && state.View() == (if r.Ok? then r.value else old(state.View()))
    {
      e := Check(tx);
      if e.Pass? {
        chain.Append(tx);
      }
    }

    /** `GetHeadTx()`. */
    function GetHeadTx(): (r: Result<Tx>)
      reads chain
      ensures r.Ok? <==> |chain.txs| > 0
      ensures r.Ok? ==> r.value == chain.txs[|chain.txs| - 1]
    {
      chain.Head()
    }

    /** `GetTxOfHash(txHash)`. */
    function GetTxOfHash(h: Hash): (r: Result<Tx>)
      requires Valid()
      reads chain, state
      ensures r.Ok? <==> exists i :: 0 <= i < |chain.txs| && rules.hash(chain.txs[i]) == h
      ensures r.Ok? ==> r.value in chain.txs && rules.hash(r.value) == h
    {
      chain.GetTxOfHash(h)
    }

    /** `GetTxOfSeq(seq)`. */
    function GetTxOfSeq(s: u64): (r: Result<Tx>)
      reads chain
      ensures r.Ok? <==> s < |chain.txs|
      ensures r.Ok? ==> r.value == chain.txs[s]
    {
      chain.GetTxOfSeq(s)
    }

    /** `GetKittyState(kittyID)`. */
    function GetKittyState(k: KittyId): (r: Option<KittyState>)
      reads state
      ensures r.Some? <==> k in state.kitties
      ensures r.Some? ==> r.value == state.kitties[k]
    {
      state.GetKittyState(k)
    }

    /** `GetAddressState(address)`: the kitties the address holds. */
    function GetAddressState(a: Address): (r: set<KittyId>)
      requires Valid()
      reads chain, state
      ensures forall k :: k in r <==> k in state.kitties && state.kitties[k].owner == a
    {
      state.GetAddressState(a)
    }

    /** `GetTransactionPage(currentPage, perPage)` as written: the start
        sequence `perPage*currentPage` is a uint64 product and wraps, and the
        page count divides by `perPage` even when it is zero (a panic). */
    function GetTransactionPage(currentPage: u64, perPage: u64): (r: PageResult)
      reads chain
      ensures var start := (perPage * currentPage) % TWO_64;
              && (start > |chain.txs| ==> r == PageResult(NoPage, Fail(RangeError)))
              && (start <= |chain.txs| && perPage == 0 ==> r.outcome == Fail(Fatal(DivideByZero)))
              && (r.outcome.Pass? <==> start <= |chain.txs| && perPage > 0)
              && (r.outcome.Pass? ==>
                    && r.page.transactions == chain.txs[start..Min(start + perPage, |chain.txs|)]
                    && |chain.txs| <= r.page.totalPageCount * perPage < |chain.txs| + perPage)
    {
      var start := (perPage * currentPage) % TWO_64;
      match chain.GetTxsOfSeqRange(start, perPage)
      case Err(e) => PageResult(NoPage, Fail(e))
      case Ok(transactions) =>
        if perPage == 0 then PageResult(NoPage, Fail(Fatal(DivideByZero)))
        else
          PageResult(PaginatedTransactions(TotalPageCount(chain.Len(), perPage), transactions), Pass)
    }

    /** The page request as intended: a zero page size is rejected before
        any division, and page `currentPage` starts at the exact product
        `perPage*currentPage`, so every transaction it returns lies on that
        page. */
    function GetTransactionPageChecked(currentPage: u64, perPage: u64): (r: PageResult)
      reads chain
      ensures perPage == 0 <==> r.outcome == Fail(InvalidPageSize)
      ensures !r.outcome.Fail? || !r.outcome.error.Fatal?
      ensures r.outcome.Pass? ==>
                && perPage > 0
                && |r.page.transactions| <= perPage
                && (forall i :: 0 <= i < |r.page.transactions| ==>
                      var s := perPage * currentPage + i;
                      s < |chain.txs| && r.page.transactions[i] == chain.txs[s]
                      && perPage * currentPage <= s < perPage * (currentPage + 1))
                && |chain.txs| <= r.page.totalPageCount * perPage < |chain.txs| + perPage
    ensures perPage > 0 ==> (r.outcome.Pass? <==> perPage * currentPage <= |chain.txs|)
    ensures perPage > 0 && r.outcome.Fail? ==> r.outcome.error == RangeError
    ensures r.outcome.Pass? ==> |r.page.transactions| == Min(perPage, |chain.txs| - perPage * currentPage)
    {
      if perPage == 0 then PageResult(NoPage, Fail(InvalidPageSize))
      else
        var start := perPage * currentPage;
        match chain.GetTxsOfSeqRange(start, perPage)
        case Err(e) => PageResult(NoPage, Fail(e))
        case Ok(transactions) =>
          PageResult(PaginatedTransactions(TotalPageCount(chain.Len(), perPage), transactions), Pass)
    }
  }

  /** A zero page size makes the page request panic, where the intended
      request rejects it. */
  lemma ZeroPageSizePanics(bc: BlockChain, currentPage: u64)
    ensures bc.GetTransactionPage(currentPage, 0).outcome == Fail(Fatal(DivideByZero))
    ensures bc.GetTransactionPageChecked(currentPage, 0).outcome == Fail(InvalidPageSize)
  {
  }

  /** Page 2^63 of size 2 starts, after the uint64 product wraps, at
      sequence 0: the request returns the first page instead of failing
      past the end of any chain shorter than 2^64. */
  lemma PageStartWraps(bc: BlockChain)
    requires |bc.chain.txs| < TWO_64
    ensures var r := bc.GetTransactionPage(0x8000_0000_0000_0000, 2);
            r.outcome == Pass && r.page.transactions == bc.chain.txs[..Min(2, |bc.chain.txs|)]
    ensures bc.GetTransactionPageChecked(0x8000_0000_0000_0000, 2).outcome == Fail(RangeError)
  {
  }

  /** `NewBlockChain(config, chainDB, stateDB)`: prepare the configuration,
      then replay the log into the projection; either failure returns no
      engine. */
  method NewBlockChain(config: BlockChainConfig, pkCheck: PubKey -> Outcome, rules: TxRules, chainDB: ChainDB<Tx>, stateDB: StateDB)
    returns (bc: BlockChain?, e: Outcome)
    requires chainDB.Valid() && stateDB.Valid() && chainDB.hashOf == rules.hash
    requires rules.NilVerifyImpliesGen(config.creatorPK)
    modifies config, stateDB
    ensures bc == null <==> e.Fail?
    ensures pkCheck(old(config.creatorPK)).Fail? ==>
              e == pkCheck(old(config.creatorPK)) && stateDB.View() == old(stateDB.View())
    ensures pkCheck(old(config.creatorPK)).Pass? ==>
              var r := Replay(rules, old(config.creatorPK), chainDB.txs, old(stateDB.View()), 1);
              e == r.outcome && stateDB.View() == r.state
    ensures config.creatorPK == old(config.creatorPK)
    ensures config.txAction == (if old(config.txAction).None? then Some(NoAction) else old(config.txAction))
    ensures bc != null ==> fresh(bc) && bc.Valid() && bc.chain == chainDB && bc.state == stateDB
    ensures bc != null ==> bc.rules == rules && bc.creatorPK == old(config.creatorPK)
  {
    e := config.Prepare(pkCheck);
    if e.Fail? {
      return null, e;
    }
    bc := new BlockChain(rules, config.creatorPK, chainDB, stateDB);
    e := bc.InitState();
    if e.Fail? {
      bc := null;
    }
  }
}
