/** Shared vocabulary of the two kitty ledger engines: identifiers, the
    64-bit unsigned integers of the Go code, and the error-carrying results
    that stand for Go's `(value, error)` returns. */
module Common {

  const TWO_64: int := 0x1_0000_0000_0000_0000

  /** Go's `uint64`. */
  type u64 = x: int | 0 <= x < TWO_64

  /** A 256-bit content digest (cipher.SHA256); its bytes are never inspected. */
  type Hash = seq<bv8>

  /** A cipher.Address; only compared for equality. */
  type Address = seq<bv8>

  /** A cipher.PubKey; only passed to the signature rules. */
  type PubKey = seq<bv8>

  /** A kitty's identifier (KittyID, or a bare uint64 in kchain). */
  type KittyId = u64

  /** The Go errors that the engines create or pass along. Errors produced
      inside code that is not part of this model (transaction verification,
      public key checks, the stores' own admission tests) are carried as
      `Rejected(code)` with an uninterpreted code. `Fatal(cause)` stands for
      a Go `panic`: no value is returned and the process ends. */
  datatype Error =
    | Rejected(code: nat)
    | DuplicateKitty
    | UnknownKitty
    | OwnerMismatch
    | TxNotFound
    | RangeError
    | InvalidPageSize
    | DivideByZero
    | Fatal(cause: Error)

  datatype Option<T> = None | Some(value: T)

  /** A Go `error` result: `nil` is `Pass`. */
  datatype Outcome = Pass | Fail(error: Error)

  /** A Go `(T, error)` result. */
  datatype Result<T> = Ok(value: T) | Err(error: Error)

  /** The outcome a result reports, dropping its value. */
  function OutcomeOf<T>(r: Result<T>): (o: Outcome)
    ensures o.Pass? <==> r.Ok?
    ensures r.Err? ==> o.error == r.error
  {
    match r
    case Ok(_) => Pass
    case Err(e) => Fail(e)
  }

  /** The hash index of a log: each hash maps to the sequence number of the
      LAST transaction that has it (a later write replaces an earlier one). */
  function IndexOf<T>(hash: T -> Hash, log: seq<T>): (idx: map<Hash, nat>)
    ensures forall h :: h in idx ==> idx[h] < |log| && hash(log[idx[h]]) == h
    ensures forall i :: 0 <= i < |log| ==> hash(log[i]) in idx && i <= idx[hash(log[i])]
    decreases |log|
  {
    if log == [] then map[]
    else
      var n := |log| - 1;
      IndexOf(hash, log[..n])[hash(log[n]) := n]
  }

  /** No two transactions of the log share a hash. */
  ghost predicate HashesDistinct<T>(hash: T -> Hash, log: seq<T>)
  {
    forall i, j :: 0 <= i < j < |log| ==> hash(log[i]) != hash(log[j])
  }

  /** With distinct hashes the index finds each transaction at its own
      position, and a longer log does not move an entry of a prefix. */
  lemma IndexOfPrefix<T>(hash: T -> Hash, pre: seq<T>, log: seq<T>, h: Hash)
    requires pre <= log && HashesDistinct(hash, log)
    requires h in IndexOf(hash, pre)
    ensures h in IndexOf(hash, log)
    ensures IndexOf(hash, log)[h] == IndexOf(hash, pre)[h]
  {
    var i := IndexOf(hash, pre)[h];
    assert log[i] == pre[i];
    var j := IndexOf(hash, log)[h];
    assert i <= j;
  }

  /** The chain log of either engine: transactions by sequence number, an
      index by hash, and the store's own admission test for `AddTx` (its
      implementation is not part of this model). */
  class ChainDB<T(==)> {
    const hashOf: T -> Hash
    const admits: (seq<T>, T) -> bool
    var txs: seq<T>
    var byHash: map<Hash, nat>

    ghost predicate Valid()
      reads this
    {
      byHash == IndexOf(hashOf, txs)
    }

    constructor (hashOf: T -> Hash, admits: (seq<T>, T) -> bool, txs: seq<T>)
      ensures Valid() && this.hashOf == hashOf && this.admits == admits && this.txs == txs
    {
      this.hashOf := hashOf;
      this.admits := admits;
      this.txs := txs;
      this.byHash := IndexOf(hashOf, txs);
    }

    /** `Len()`. */
    function Len(): (n: nat)
      reads this
      ensures n == |txs|
    {
      |txs|
    }

    /** `GetTxOfSeq(seq)`: the transaction at that sequence number. */
    function GetTxOfSeq(s: nat): (r: Result<T>)
      reads this
      ensures r.Ok? <==> s < |txs|
      ensures r.Ok? ==> r.value == txs[s]
      ensures r.Err? ==> r.error == TxNotFound
    {
      if s < |txs| then Ok(txs[s]) else Err(TxNotFound)
    }

    /** `GetTxOfHash(hash)`: the transaction the index holds for that hash. */
    function GetTxOfHash(h: Hash): (r: Result<T>)
      requires Valid()
      reads this
      ensures r.Ok? <==> exists i :: 0 <= i < |txs| && hashOf(txs[i]) == h
      ensures r.Ok? ==> r.value in txs && hashOf(r.value) == h
      ensures r.Err? ==> r.error == TxNotFound
    {
      if h in byHash then Ok(txs[byHash[h]]) else Err(TxNotFound)
    }

    /** `Head()`: the most recently appended transaction. */
    function Head(): (r: Result<T>)
      reads this
      ensures r.Ok? <==> |txs| > 0
      ensures r.Ok? ==> r.value == txs[|txs| - 1]
    {
      if |txs| == 0 then Err(TxNotFound) else Ok(txs[|txs| - 1])
    }

    /** `GetTxsOfSeqRange(start, count)`: up to `count` transactions from
        sequence `start` on, fewer where the log ends; a start beyond the
        end is a range error. */
    function GetTxsOfSeqRange(start: nat, count: nat): (r: Result<seq<T>>)
      reads this
      ensures r.Err? <==> start > |txs|
      ensures r.Err? ==> r.error == RangeError
      ensures r.Ok? ==> |r.value| == Min(count, |txs| - start)
      ensures r.Ok? ==> forall i :: 0 <= i < |r.value| ==> r.value[i] == txs[start + i]
    {
      if start > |txs| then Err(RangeError)
      else Ok(txs[start..Min(start + count, |txs|)])
    }

    /** The physical append: the log grows by one and the index follows. */
    method Append(tx: T)
      requires Valid()
      modifies this
      ensures Valid()
      ensures txs == old(txs) + [tx]
    {
      byHash := byHash[hashOf(tx) := |txs|];
      txs := txs + [tx];
      assert txs[..|txs| - 1] == old(txs);
    }

    /** `AddTx(tx)`: append when the store admits the transaction. */
    method AddTx(tx: T) returns (e: Outcome)
      requires Valid()
      modifies this
      ensures Valid()
      ensures e.Pass? <==> admits(old(txs), tx)
      ensures txs == if e.Pass? then old(txs) + [tx] else old(txs)
    {
      if !admits(txs, tx) {
        return Fail(Rejected(0));
      }
      Append(tx);
      e := Pass;
    }
  }

  function Min(a: int, b: int): (m: int)
    ensures m <= a && m <= b && (m == a || m == b)
  {
    if a <= b then a else b
  }
}
