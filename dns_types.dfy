/**
 * The ledger entities the DNS name index is built over: output references,
 * transaction outputs (DNS claims among them), transactions and blocks,
 * plus the Option and Result wrappers used for the source's exceptions.
 */
module DnsTypes {

  datatype Option<+T> = None | Some(value: T)

  /** A value, or the error an operation of the source would throw. */
  datatype Result<+T, +E> = Success(value: T) | Failure(error: E)

  /** The source's `uint32_t`. */
  type Uint32 = x: nat | x < 0x1_0000_0000

  /** A transaction id: the hash `tx.id()` computes; its hashing is not modelled. */
  type TrxId = nat

  /** (transaction id, output index): a pointer to one output on the ledger. */
  datatype OutputRef = OutputRef(trxHash: TrxId, outputIndex: nat)

  /** An amount of some asset. */
  datatype Asset = Asset(amount: int, assetId: nat)

  /** An owner address (the hash of a public key). */
  datatype Address = Address(hash: nat)

  /** The claim data of a DNS output: the name it claims and its record. */
  datatype ClaimDnsOutput = ClaimDnsOutput(key: string, value: seq<char>, owner: Address)

  /** How an output may be claimed: by a DNS claim, or any other claim kind. */
  datatype OutputClaim =
    | DnsClaim(dns: ClaimDnsOutput)
    | OtherClaim(claimKind: nat)

  datatype TrxOutput = TrxOutput(amount: Asset, claim: OutputClaim)
  {
    /** `is_dns_output`: the output is claimed by a DNS claim. */
    predicate IsDnsOutput() {
      claim.DnsClaim?
    }

    /** The output is a DNS output whose claim names `key`. */
    predicate ClaimsKey(key: string) {
      claim.DnsClaim? && claim.dns.key == key
    }
  }

  /**
   * `to_dns_output`: the DNS claim data of an output. On an output that is
   * not a DNS output there is none (the conversion fails).
   */
  function ToDnsOutput(o: TrxOutput): (r: Option<ClaimDnsOutput>)
    ensures r.Some? <==> o.IsDnsOutput()
    ensures r.Some? ==> o.ClaimsKey(r.value.key)
  {
    match o.claim
    case DnsClaim(d) => Some(d)
    case OtherClaim(_) => None
  }

  datatype SignedTransaction = SignedTransaction(id: TrxId, outputs: seq<TrxOutput>)

  datatype TrxBlock = TrxBlock(blockNum: Uint32, trxs: seq<SignedTransaction>)

  /** The block number and in-block position `fetch_trx_num` reports for a transaction. */
  datatype TrxNum = TrxNum(blockNum: Uint32, trxIdx: nat)
}
