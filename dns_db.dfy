/**
 * The DNS name index (`dns_db`): a chain database that keeps, beside the
 * ledger, a map from a domain name to a reference made of the id of the
 * last transaction that claimed it and that transaction's position in its
 * block.
 *
 * The index is updated each time a block is stored; it offers point
 * operations (set, get, has), a full ordered scan with a predicate, the
 * lookup of the output a stored reference points to and the age of a
 * claiming transaction.
 */
module DnsDb {
  import opened DnsTypes
  import opened KeyOrder

  /** The `level_map` from name to output reference. */
  type Index = map<string, OutputRef>

  /**
   * What the parent chain database answers: the head block number, the
   * location of each known transaction (`fetch_trx_num`) and each known
   * output (`fetch_output`). Its storage is not modelled.
   */
  datatype ChainView = ChainView(
    headBlockNum: Uint32,
    trxNums: map<TrxId, TrxNum>,
    outputs: map<OutputRef, TrxOutput>)

  /** The exceptions the index operations throw. */
  datatype DbError =
    | DnsKeyNotFound(key: string)       // get_dns_ref on a missing key
    | UnknownOutput(ref: OutputRef)     // fetch_output on an unknown reference
    | UnknownTransaction(id: TrxId)     // fetch_trx_num on an unknown transaction
    | NullFilter                        // filter given a null predicate
    | ChainStoreFailed(reason: string)  // thrown by the parent chain's store

  /** The database as a filter predicate sees it. */
  datatype DbSnapshot = DbSnapshot(index: Index, chain: ChainView)

  /** A filter predicate over (name, reference, database). */
  type FilterFn = (string, OutputRef, DbSnapshot) -> bool

  /** `fetch_output`: the output a reference points to. */
  function FetchOutput(chain: ChainView, ref: OutputRef): (r: Result<TrxOutput, DbError>)
    ensures r.Success? <==> ref in chain.outputs
    ensures r.Success? ==> r.value == chain.outputs[ref]
    ensures r.Failure? ==> r.error == UnknownOutput(ref)
  {
    if ref in chain.outputs then Success(chain.outputs[ref]) else Failure(UnknownOutput(ref))
  }

  /** `fetch_trx_num`: where a transaction sits on the ledger. */
  function FetchTrxNum(chain: ChainView, id: TrxId): (r: Result<TrxNum, DbError>)
    ensures r.Success? <==> id in chain.trxNums
    ensures r.Success? ==> r.value == chain.trxNums[id]
    ensures r.Failure? ==> r.error == UnknownTransaction(id)
  {
    if id in chain.trxNums then Success(chain.trxNums[id]) else Failure(UnknownTransaction(id))
  }

  /** `a - b` on `uint32_t`: wraps below zero. */
  function Uint32Sub(a: Uint32, b: Uint32): (r: Uint32)
    ensures b <= a ==> r == a - b
    ensures b > a ==> r == a - b + 0x1_0000_0000
    ensures (r + b) % 0x1_0000_0000 == a
  {
    (a - b) % 0x1_0000_0000
  }

  // ---------------------------------------------------------------------
  // Block application, as a function of the index before the block.
  // ---------------------------------------------------------------------

  /**
   * The index after the outputs `outs` of one transaction are walked, each
   * DNS output overwriting its key with `ref`.
   */
  function ApplyOutputs(m: Index, outs: seq<TrxOutput>, ref: OutputRef): Index
    decreases |outs|
  {
    if outs == [] then m
    else
      var before := ApplyOutputs(m, outs[..|outs| - 1], ref);
      match ToDnsOutput(outs[|outs| - 1])
      case None => before
      case Some(d) => before[d.key := ref]
  }

  /**
   * The index after the transactions `trxs` (the first transactions of a
   * block) are walked: the DNS outputs of the transaction at position `i`
   * of the block are stored with the reference (its id, `i`).
   */
  function ApplyTrxs(m: Index, trxs: seq<SignedTransaction>): Index
    decreases |trxs|
  {
    if trxs == [] then m
    else
      var last := trxs[|trxs| - 1];
      ApplyOutputs(ApplyTrxs(m, trxs[..|trxs| - 1]), last.outputs, OutputRef(last.id, |trxs| - 1))
  }

  /** The index after one block is stored. */
  function ApplyBlock(m: Index, blk: TrxBlock): Index {
    ApplyTrxs(m, blk.trxs)
  }

  /** The index after a sequence of blocks is stored, in order. */
  function ApplyBlocks(m: Index, blocks: seq<TrxBlock>): Index
    decreases |blocks|
  {
    if blocks == [] then m
    else ApplyBlock(ApplyBlocks(m, blocks[..|blocks| - 1]), blocks[|blocks| - 1])
  }

  // ---------------------------------------------------------------------
  // Who claims a name, stated without reference to the update order.
  // ---------------------------------------------------------------------

  /** Some DNS output among `outs` claims `key`. */
  predicate HasClaim(outs: seq<TrxOutput>, key: string) {
    exists j :: 0 <= j < |outs| && outs[j].ClaimsKey(key)
  }

  /** Some transaction of `trxs` has a DNS output that claims `key`. */
  predicate ClaimedIn(trxs: seq<SignedTransaction>, key: string) {
    exists i :: 0 <= i < |trxs| && HasClaim(trxs[i].outputs, key)
  }

  /** The transaction at position `i` is the last in `trxs` that claims `key`. */
  predicate LastClaimer(trxs: seq<SignedTransaction>, i: int, key: string) {
    && 0 <= i < |trxs|
    && HasClaim(trxs[i].outputs, key)
    && forall j :: i < j < |trxs| ==> !HasClaim(trxs[j].outputs, key)
  }

  /** Block `b` is the last of `blocks` with a transaction that claims `key`. */
  predicate LastClaimingBlock(blocks: seq<TrxBlock>, b: int, key: string) {
    && 0 <= b < |blocks|
    && ClaimedIn(blocks[b].trxs, key)
    && forall c :: b < c < |blocks| ==> !ClaimedIn(blocks[c].trxs, key)
  }

  lemma HasClaimSnoc(outs: seq<TrxOutput>, key: string)
    requires outs != []
    ensures HasClaim(outs, key) <==>
              HasClaim(outs[..|outs| - 1], key) || outs[|outs| - 1].ClaimsKey(key)
  {
  }

  /**
   * Walking the outputs of one transaction stores `ref` under exactly the
   * keys its DNS outputs claim, however many of them claim the same key,
   * and leaves every other entry as it was.
   */
  lemma {:induction false} ApplyOutputsSpec(m: Index, outs: seq<TrxOutput>, ref: OutputRef, key: string)
    ensures key in ApplyOutputs(m, outs, ref) <==> key in m || HasClaim(outs, key)
    ensures HasClaim(outs, key) ==> ApplyOutputs(m, outs, ref)[key] == ref
    ensures !HasClaim(outs, key) && key in m ==> ApplyOutputs(m, outs, ref)[key] == m[key]
    decreases |outs|
  {
    if outs != [] {
      ApplyOutputsSpec(m, outs[..|outs| - 1], ref, key);
      HasClaimSnoc(outs, key);
    }
  }

  lemma ClaimedInSnoc(trxs: seq<SignedTransaction>, key: string)
    requires trxs != []
    ensures ClaimedIn(trxs, key) <==>
              ClaimedIn(trxs[..|trxs| - 1], key) || HasClaim(trxs[|trxs| - 1].outputs, key)
  {
  }

  /** After the transactions, a key has an entry iff it had one or some DNS output claims it. */
  lemma {:induction false} ApplyTrxsKeys(m: Index, trxs: seq<SignedTransaction>, key: string)
    ensures key in ApplyTrxs(m, trxs) <==> key in m || ClaimedIn(trxs, key)
    decreases |trxs|
  {
    if trxs != [] {
      var last := trxs[|trxs| - 1];
      ApplyTrxsKeys(m, trxs[..|trxs| - 1], key);
      ApplyOutputsSpec(ApplyTrxs(m, trxs[..|trxs| - 1]), last.outputs, OutputRef(last.id, |trxs| - 1), key);
      ClaimedInSnoc(trxs, key);
    }
  }

  /**
   * A claimed key maps to the reference of the LAST transaction claiming
   * it: (that transaction's id, its position in the block). Earlier claims
   * are overwritten.
   */
  lemma {:induction false} ApplyTrxsClaimed(m: Index, trxs: seq<SignedTransaction>, i: int, key: string)
    requires LastClaimer(trxs, i, key)
    ensures key in ApplyTrxs(m, trxs)
    ensures ApplyTrxs(m, trxs)[key] == OutputRef(trxs[i].id, i)
    decreases |trxs|
  {
    var n := |trxs|;
    var last := trxs[n - 1];
    var p := trxs[..n - 1];
    ApplyOutputsSpec(ApplyTrxs(m, p), last.outputs, OutputRef(last.id, n - 1), key);
    if i < n - 1 {
      assert LastClaimer(p, i, key) by {
        forall j | i < j < |p| ensures !HasClaim(p[j].outputs, key) {
          assert p[j] == trxs[j];
        }
      }
      ApplyTrxsClaimed(m, p, i, key);
    }
  }

  /** A key no DNS output claims keeps its entry, or its absence. */
  lemma {:induction false} ApplyTrxsUnclaimed(m: Index, trxs: seq<SignedTransaction>, key: string)
    requires !ClaimedIn(trxs, key)
    ensures key in ApplyTrxs(m, trxs) <==> key in m
    ensures key in m ==> ApplyTrxs(m, trxs)[key] == m[key]
    decreases |trxs|
  {
    if trxs != [] {
      var last := trxs[|trxs| - 1];
      ClaimedInSnoc(trxs, key);
      ApplyTrxsUnclaimed(m, trxs[..|trxs| - 1], key);
      ApplyOutputsSpec(ApplyTrxs(m, trxs[..|trxs| - 1]), last.outputs, OutputRef(last.id, |trxs| - 1), key);
    }
  }

  /**
   * Over a whole history of blocks: a claimed key maps to the reference of
   * its last claim in block, then transaction, then output order.
   */
  lemma {:induction false} ApplyBlocksClaimed(m: Index, blocks: seq<TrxBlock>, b: int, i: int, key: string)
    requires LastClaimingBlock(blocks, b, key)
    requires LastClaimer(blocks[b].trxs, i, key)
    ensures key in ApplyBlocks(m, blocks)
    ensures ApplyBlocks(m, blocks)[key] == OutputRef(blocks[b].trxs[i].id, i)
    decreases |blocks|
  {
    var n := |blocks|;
    var p := blocks[..n - 1];
    if b == n - 1 {
      ApplyTrxsClaimed(ApplyBlocks(m, p), blocks[b].trxs, i, key);
    } else {
      assert LastClaimingBlock(p, b, key) by {
        forall c | b < c < |p| ensures !ClaimedIn(p[c].trxs, key) {
          assert p[c] == blocks[c];
        }
      }
      ApplyBlocksClaimed(m, p, b, i, key);
      ApplyTrxsUnclaimed(ApplyBlocks(m, p), blocks[n - 1].trxs, key);
    }
  }

  /** A key no block claims keeps its entry, or its absence, over a whole history. */
  lemma {:induction false} ApplyBlocksUnclaimed(m: Index, blocks: seq<TrxBlock>, key: string)
    requires forall b :: 0 <= b < |blocks| ==> !ClaimedIn(blocks[b].trxs, key)
    ensures key in ApplyBlocks(m, blocks) <==> key in m
    ensures key in m ==> ApplyBlocks(m, blocks)[key] == m[key]
    decreases |blocks|
  {
    if blocks != [] {
      var p := blocks[..|blocks| - 1];
      assert forall b :: 0 <= b < |p| ==> p[b] == blocks[b];
      ApplyBlocksUnclaimed(m, p, key);
      ApplyTrxsUnclaimed(ApplyBlocks(m, p), blocks[|blocks| - 1].trxs, key);
    }
  }

  /**
   * The stored output index is the transaction's position in the block,
   * not the position of the DNS output inside the transaction: a DNS
   * output at output position 1 of the block's first transaction is
   * recorded with output index 0.
   */
  lemma StoredIndexIsTransactionPosition(id: TrxId, other: TrxOutput, claim: ClaimDnsOutput)
    requires !other.IsDnsOutput()
    ensures var dns := TrxOutput(Asset(0, 0), DnsClaim(claim));
            var blk := TrxBlock(1, [SignedTransaction(id, [other, dns])]);
            ApplyBlock(map[], blk) == map[claim.key := OutputRef(id, 0)]
  {
    var dns := TrxOutput(Asset(0, 0), DnsClaim(claim));
    var outs := [other, dns];
    var ref := OutputRef(id, 0);
    var trxs := [SignedTransaction(id, outs)];
    assert trxs[..0] == [];
    assert outs[..1] == [other] && outs[..1][..0] == [];
    assert ApplyOutputs(map[], outs[..1], ref) == map[];
    assert ApplyTrxs(map[], trxs) == ApplyOutputs(map[], outs, ref);
  }

  // ---------------------------------------------------------------------
  // The database object.
  // ---------------------------------------------------------------------

  /** `dns_db`: the parent chain database together with the name index. */
  class Db {
    /** `_dns2ref`. */
    var dns2ref: Index
    /** The parent `chain_database`, as far as the index consults it. */
    var chain: ChainView

    /** The database as `open` leaves it: over `chain`, with the persisted `index`. */
    constructor (chain: ChainView, index: Index)
      ensures this.chain == chain && dns2ref == index
    {
      this.chain := chain;
      dns2ref := index;
    }

    function Snapshot(): (s: DbSnapshot)
      reads this
      ensures s.index == dns2ref && s.chain == chain
    {
      DbSnapshot(dns2ref, chain)
    }

    /**
     * `store`: the parent chain stores the block first (`chainStore`); if
     * that throws, the exception propagates and the index is untouched.
     * Otherwise every DNS output of every transaction, in order, overwrites
     * its key.
     */
    method Store(blk: TrxBlock, deterministicTrxs: seq<SignedTransaction>,
                 chainStore: (ChainView, TrxBlock, seq<SignedTransaction>) -> Result<ChainView, string>)
      returns (r: Result<(), DbError>)
      modifies this
      ensures var stored := chainStore(old(chain), blk, deterministicTrxs);
              stored.Failure? ==>
                r == Failure(ChainStoreFailed(stored.error)) && chain == old(chain) && dns2ref == old(dns2ref)
      ensures var stored := chainStore(old(chain), blk, deterministicTrxs);
              stored.Success? ==>
                r == Success(()) && chain == stored.value && dns2ref == ApplyBlock(old(dns2ref), blk)
      ensures r.Success? ==> forall i, key :: LastClaimer(blk.trxs, i, key) ==>
                key in dns2ref && dns2ref[key] == OutputRef(blk.trxs[i].id, i)
      ensures r.Success? ==> forall key :: !ClaimedIn(blk.trxs, key) ==>
                (key in dns2ref <==> key in old(dns2ref)) &&
                (key in dns2ref ==> dns2ref[key] == old(dns2ref)[key])
    {
      var stored := chainStore(chain, blk, deterministicTrxs);
      if stored.Failure? {
        return Failure(ChainStoreFailed(stored.error));
      }
      chain := stored.value;
      for i := 0 to |blk.trxs|
        invariant chain == stored.value
        invariant dns2ref == ApplyTrxs(old(dns2ref), blk.trxs[..i])
      {
        var tx := blk.trxs[i];
        ghost var before := dns2ref;
        for j := 0 to |tx.outputs|
          invariant chain == stored.value
          invariant dns2ref == ApplyOutputs(before, tx.outputs[..j], OutputRef(tx.id, i))
        {
          var output := tx.outputs[j];
          assert tx.outputs[..j + 1][..j] == tx.outputs[..j];
          if !output.IsDnsOutput() {
            continue;
          }
          var dns := ToDnsOutput(output);
          SetDnsRef(dns.value.key, OutputRef(tx.id, i));
        }
        assert tx.outputs[..|tx.outputs|] == tx.outputs;
        assert blk.trxs[..i + 1][..i] == blk.trxs[..i];
      }
      assert blk.trxs[..|blk.trxs|] == blk.trxs;
      forall i, key | LastClaimer(blk.trxs, i, key)
        ensures key in dns2ref && dns2ref[key] == OutputRef(blk.trxs[i].id, i)
      {
        ApplyTrxsClaimed(old(dns2ref), blk.trxs, i, key);
      }
      forall key | !ClaimedIn(blk.trxs, key)
        ensures (key in dns2ref <==> key in old(dns2ref)) &&
                (key in dns2ref ==> dns2ref[key] == old(dns2ref)[key])
      {
        ApplyTrxsUnclaimed(old(dns2ref), blk.trxs, key);
      }
      r := Success(());
    }

    /** `set_dns_ref`: store `ref` under `key`, overwriting any entry. */
    method SetDnsRef(key: string, ref: OutputRef)
      modifies this
      ensures dns2ref == old(dns2ref)[key := ref]
      ensures chain == old(chain)
    {
      dns2ref := dns2ref[key := ref];
    }

    /** `get_dns_ref`: the stored reference; throws for a key with no entry. */
    function GetDnsRef(key: string): (r: Result<OutputRef, DbError>)
      reads this
      ensures r.Success? <==> key in dns2ref
      ensures r.Success? ==> r.value == dns2ref[key]
      ensures r.Failure? ==> r.error == DnsKeyNotFound(key)
    {
      if key in dns2ref then Success(dns2ref[key]) else Failure(DnsKeyNotFound(key))
    }

    /** `has_dns_ref`: never throws; true exactly when `get_dns_ref` would succeed. */
    function HasDnsRef(key: string): (b: bool)
      reads this
      ensures b <==> GetDnsRef(key).Success?
    {
      key in dns2ref
    }

    /**
     * `filter`: every entry the predicate accepts, found by a scan that
     * captures the last key first, then walks the keys in ascending order
     * and stops right after that last key. `visited` is the order of the
     * walk. A null predicate throws even on an empty index.
     */
    method Filter(f: Option<FilterFn>) returns (r: Result<Index, DbError>, ghost visited: seq<string>)
      ensures f.None? ==> r == Failure(NullFilter) && visited == []
      ensures f.Some? && dns2ref == map[] ==> r == Success(map[])
      ensures f.Some? ==> r.Success?
      ensures f.Some? ==> forall key :: key in r.value <==>
                key in dns2ref && f.value(key, dns2ref[key], Snapshot())
      ensures f.Some? ==> forall key :: key in r.value ==> r.value[key] == dns2ref[key]
      ensures forall a, b :: 0 <= a < b < |visited| ==> Less(visited[a], visited[b])
      ensures f.Some? ==> forall key :: key in visited <==> key in dns2ref
      ensures visited != [] ==> IsGreatest(visited[|visited| - 1], dns2ref.Keys)
    {
      visited := [];
      if f.None? {
        return Failure(NullFilter), visited;
      }
      var pred := f.value;
      var m := dns2ref;
      var db := Snapshot();
      var selected: Index := map[];
      if m == map[] {
        return Success(selected), visited;
      }
      var iter := Least(m.Keys);
      var last := Greatest(m.Keys);
      forall key | key in m ensures !Less(key, iter) {
        if key != iter {
          LessAsymmetric(iter, key);
        } else {
          LessIrreflexive(key);
        }
      }
      while true
        invariant iter in m
        invariant forall key :: key in selected <==> key in m && Less(key, iter) && pred(key, m[key], db)
        invariant forall key :: key in selected ==> selected[key] == m[key]
        invariant forall a, b :: 0 <= a < b < |visited| ==> Less(visited[a], visited[b])
        invariant forall key :: key in visited <==> key in m && Less(key, iter)
        invariant forall a :: 0 <= a < |visited| ==> Less(visited[a], iter)
        decreases NotBelow(m.Keys, iter)
      {
        if pred(iter, m[iter], db) {
          selected := selected[iter := m[iter]];
        }
        visited := visited + [iter];
        if iter == last {
          break;
        }
        assert last in Above(m.Keys, iter);
        var next := Next(m.Keys, iter);
        AdvanceKeepsOrder(m.Keys, iter, next);
        iter := next;
      }
      forall key | key in m ensures key in visited {
        if key != last {
          assert Less(key, last);
        }
      }
      return Success(selected), visited;
    }

    /** `get_key_output`: the output the index points to for `key`. */
    function GetKeyOutput(key: string): (r: Result<TrxOutput, DbError>)
      reads this
      ensures key !in dns2ref ==> r == Failure(DnsKeyNotFound(key))
      ensures key in dns2ref && dns2ref[key] !in chain.outputs ==> r == Failure(UnknownOutput(dns2ref[key]))
      ensures r.Success? <==> key in dns2ref && dns2ref[key] in chain.outputs
      ensures r.Success? ==> r.value == chain.outputs[dns2ref[key]]
    {
      match GetDnsRef(key)
      case Failure(e) => Failure(e)
      case Success(ref) => FetchOutput(chain, ref)
    }

    /**
     * `get_tx_age`: head block number minus the block number of the
     * referenced transaction, as `uint32_t` (wrapping below zero).
     */
    function GetTxAge(ref: OutputRef): (r: Result<Uint32, DbError>)
      reads this
      ensures r.Success? <==> ref.trxHash in chain.trxNums
      ensures r.Failure? ==> r.error == UnknownTransaction(ref.trxHash)
      ensures r.Success? ==> var blockNum := chain.trxNums[ref.trxHash].blockNum;
                (blockNum <= chain.headBlockNum ==> r.value == chain.headBlockNum - blockNum) &&
                (r.value + blockNum) % 0x1_0000_0000 == chain.headBlockNum
    {
      match FetchTrxNum(chain, ref.trxHash)
      case Failure(e) => Failure(e)
      case Success(num) => Success(Uint32Sub(chain.headBlockNum, num.blockNum))
    }
  }

  /**
   * One step of the scan: moving from `iter` to the next key `next` adds
   * exactly `iter` to the keys below the cursor and shrinks the keys at or
   * above it.
   */
  lemma AdvanceKeepsOrder(keys: set<string>, iter: string, next: string)
    requires iter in keys && next in keys && Less(iter, next)
    requires forall x :: x in keys && Less(iter, x) && x != next ==> Less(next, x)
    ensures forall key :: key in keys ==> (Less(key, next) <==> Less(key, iter) || key == iter)
    ensures NotBelow(keys, next) < NotBelow(keys, iter)
  {
    var atOrAboveNext := NotBelow(keys, next);
    var atOrAboveIter := NotBelow(keys, iter);
    forall key | key in keys
      ensures Less(key, next) <==> Less(key, iter) || key == iter
    {
      if Less(key, iter) {
        LessTransitive(key, iter, next);
      } else if key != iter && Less(key, next) {
        LessTotal(key, iter);
        if key != next {
          LessAsymmetric(key, next);
        } else {
          LessIrreflexive(key);
        }
      }
    }
    LessIrreflexive(iter);
    assert iter in atOrAboveIter && iter !in atOrAboveNext;
    assert atOrAboveNext <= atOrAboveIter;
  }

  /** `set_dns_ref` then `get_dns_ref` returns exactly what was stored; other keys are unaffected. */
  method SetThenGet(db: Db, key: string, ref: OutputRef, other: string)
    modifies db
    ensures db.GetDnsRef(key) == Success(ref) && db.HasDnsRef(key)
    ensures other != key ==> db.GetDnsRef(other) == old(db.GetDnsRef(other))
  {
    db.SetDnsRef(key, ref);
  }

  /** A claim recorded at block 10 is 5 blocks old at head 15. */
  lemma TxAgeExample(db: Db, id: TrxId)
    requires db.chain.headBlockNum == 15
    requires id in db.chain.trxNums && db.chain.trxNums[id].blockNum == 10
    ensures db.GetTxAge(OutputRef(id, 0)) == Success(5)
  {
  }

  /** A transaction recorded above the head block wraps around: block 15 at head 10 is 2^32 - 5 old. */
  lemma TxAgeWrapExample(db: Db, id: TrxId)
    requires db.chain.headBlockNum == 10
    requires id in db.chain.trxNums && db.chain.trxNums[id].blockNum == 15
    ensures db.GetTxAge(OutputRef(id, 0)) == Success(0xFFFF_FFFB)
  {
  }
}
