# DNS name index and DNS RPC method table

This is a Dafny model of the domain-name layer of a BitShares-style ledger.

- `dns_db` is a chain database that also keeps a name index. The index is a
  `level_map` from a domain name to a reference made of the id of the last
  transaction that claimed the name and that transaction's position in its
  block. The index is
  updated each time a block is stored. It offers `set_dns_ref`,
  `get_dns_ref`, `has_dns_ref`, an ordered full scan (`filter`), the lookup of
  a name's claiming output (`get_key_output`) and the age of a claiming
  transaction (`get_tx_age`).
- `dns_rpc_server` registers six RPC method descriptors in its constructor.
  Each descriptor has a name, a handler, a description, a return-type tag,
  declared parameters and a prerequisite mask. The handlers call the DNS
  wallet and the client's broadcaster.

Files:

- `dns_types.dfy` (module `DnsTypes`): output references, DNS and other
  transaction outputs, transactions, blocks, and `Option`/`Result`.
- `key_order.dfy` (module `KeyOrder`): the ascending `std::string` order used
  to walk the index, and the iterator steps the scan uses (`begin()`,
  `last()`, `iter++`).
- `dns_db.dfy` (module `DnsDb`): block application as functions
  (`ApplyOutputs`, `ApplyTrxs`, `ApplyBlock`, `ApplyBlocks`), its properties
  as lemmas, and the class `Db` with the index `dns2ref` and the parent chain
  `chain` as fields.
- `dns_rpc_server.dfy` (module `DnsRpc`): the method table, the class
  `RpcServer` whose constructor registers it, and the handlers.

Modelling choices:

- The parent chain database is a value, `ChainView`. It records the head
  block number, each transaction's location (`fetch_trx_num`) and each
  output (`fetch_output`). The parent's own `store` is a function parameter
  of `Db.Store`. It may fail, and it runs before the index is updated, as in
  the source, so its exception leaves the index untouched.
- `Db.Store` follows the code at libraries/dns/dns_db.cpp line 40. The output
  index it stores is `i`, the transaction's position in the block. It is not
  the position of the DNS output inside the transaction. So every DNS output
  of one transaction is stored with the same reference.
  `StoredIndexIsTransactionPosition` shows this on a concrete block.
- Handlers have no side effects. Each returns the collaborator calls it makes
  (`Effect`s, in order) and its answer, or the exception it lets through.
  The wallet is a value holding one function per wallet operation. The
  database the handlers pass to the wallet is a `DbSnapshot`. `ListActiveAuctions`, which loops over the auctions as the source does, is a method; the other handlers are functions.
- `update_domain_record` is modelled as written: it asks the wallet for a
  *bid*, with its second argument read as an asset. Its declared schema names
  that parameter `path` of type `string`. Because variant conversions are
  not modelled, that mismatch is described here and not proved.
- Prerequisite masks are sets of flags. The numeric flag values are defined
  in the base RPC server, which is not part of this model.

## Model

| member | source | states |
|---|---|---|
| `DnsDb.Db.constructor` | libraries/dns/dns_db.cpp:5-18 | an opened database sits over the given chain, holding the given persisted index |
| `DnsDb.Db.Store` | libraries/dns/dns_db.cpp:26-43 | the parent chain stores the block first. If that store throws, the exception propagates and the index stays as it was. Otherwise the new index is `ApplyBlock` of the old one. Each key's last claiming transaction `i` gives it the reference (id of `trxs[i]`, `i`). Keys no DNS output claims keep their entry, or stay absent |
| `DnsDb.ApplyOutputsSpec` | libraries/dns/dns_db.cpp:35-41 | walking one transaction's outputs stores its reference under exactly the keys its DNS outputs claim. Non-DNS outputs are skipped and all other entries are unchanged |
| `DnsDb.ApplyTrxsKeys` | libraries/dns/dns_db.cpp:31-42 | after a block, a key has an entry iff it had one before or some DNS output of the block claims it |
| `DnsDb.ApplyTrxsClaimed` | libraries/dns/dns_db.cpp:31-42 | a claimed key maps to (id, position) of the last transaction in the block that claims it. Earlier claims are overwritten |
| `DnsDb.ApplyTrxsUnclaimed` | libraries/dns/dns_db.cpp:35-38 | a key no DNS output of the block claims keeps its old entry, or stays absent |
| `DnsDb.ApplyBlocksClaimed` | libraries/dns/dns_db.cpp:26-43 | over a sequence of stored blocks, a key maps to the reference of its last claim in block, then transaction, then output order |
| `DnsDb.ApplyBlocksUnclaimed` | libraries/dns/dns_db.cpp:26-43 | over a sequence of stored blocks, a key that no block claims is never touched |
| `DnsDb.StoredIndexIsTransactionPosition` | libraries/dns/dns_db.cpp:40 | a DNS output at output position 1 of the first transaction is stored with output index 0, the transaction's position |
| `DnsTypes.ToDnsOutput` | libraries/dns/dns_db.cpp:37-40 | the DNS claim data exists exactly for DNS outputs and names the key the output claims |
| `DnsDb.Db.SetDnsRef` | libraries/dns/dns_db.cpp:45-48 | the entry for the key becomes the given reference. Nothing else changes |
| `DnsDb.Db.GetDnsRef` | libraries/dns/dns_db.cpp:50-53 | returns the stored reference. It fails with `DnsKeyNotFound(key)` exactly when the key has no entry |
| `DnsDb.Db.HasDnsRef` | libraries/dns/dns_db.cpp:55-58 | never fails. It is true exactly when `get_dns_ref` would succeed |
| `DnsDb.SetThenGet` | libraries/dns/dns_db.cpp:45-58 | round trip: after `set_dns_ref(k, r)`, `get_dns_ref(k)` returns exactly `r` and `has_dns_ref(k)` holds. Other keys answer as before |
| `DnsDb.Db.Filter` | libraries/dns/dns_db.cpp:60-82 | a null predicate fails, even on an empty index. An empty index gives an empty map. Otherwise the result is exactly the entries, with their stored values, that the predicate accepts. Keys are visited in strictly ascending order, every key once, and the last key visited is the maximum key |
| `DnsDb.AdvanceKeepsOrder` | libraries/dns/dns_db.cpp:77-78 | one `iter++` step adds exactly the current key to the visited part and strictly shrinks what is left. This is why the scan terminates |
| `KeyOrder.Least` | libraries/dns/dns_db.cpp:66 | `begin()` is the smallest key of a non-empty index |
| `KeyOrder.Greatest` | libraries/dns/dns_db.cpp:69-70 | `last()` is the largest key of a non-empty index |
| `KeyOrder.Next` | libraries/dns/dns_db.cpp:78 | `iter++` moves to the smallest key above the current one |
| `DnsDb.FetchOutput` | libraries/dns/dns_db.cpp:86 | the chain's output for a known reference. An unknown reference fails |
| `DnsDb.Db.GetKeyOutput` | libraries/dns/dns_db.cpp:84-87 | a missing key fails with the `get_dns_ref` error. A stored reference the chain does not know fails with `UnknownOutput` of that reference. Otherwise the result is the chain output the stored reference points to |
| `DnsDb.FetchTrxNum` | libraries/dns/dns_db.cpp:92 | a known transaction's location. An unknown id fails |
| `DnsDb.Uint32Sub` | libraries/dns/dns_db.cpp:94 | `uint32_t` subtraction: exact when no underflow, otherwise plus 2^32. Adding `b` back gives `a` modulo 2^32 |
| `DnsDb.Db.GetTxAge` | libraries/dns/dns_db.cpp:89-95 | fails exactly for an unknown transaction. Otherwise the result is head minus block number, exact when block <= head, and congruent modulo 2^32 in all cases |
| `DnsDb.TxAgeExample` | libraries/dns/dns_db.cpp:89-95 | a claim at block 10 with head 15 has age 5 |
| `DnsDb.TxAgeWrapExample` | libraries/dns/dns_db.cpp:94 | a transaction at block 15 with head 10 wraps to 2^32 - 5 |
| `DnsRpc.RpcServer.constructor` | libraries/dns/dns_rpc_server.cpp:101-160 | the constructor's registrations leave exactly the six-entry DNS method table, in source order |
| `DnsRpc.RpcServer.RegisterMethod` | libraries/dns/dns_rpc_server.cpp:116 | the table records the descriptor after the earlier ones |
| `DnsRpc.NewServerTable` | libraries/dns/dns_rpc_server.cpp:101-160 | a newly constructed server's table is `DnsMethodTable()` |
| `DnsRpc.MethodNames` | libraries/dns/dns_rpc_server.cpp:109-158 | the names of the table's descriptors, one per descriptor, in order |
| `DnsRpc.TableHasSixDistinctMethods` | libraries/dns/dns_rpc_server.cpp:109-158 | six methods with pairwise distinct names: exactly the four mutating and the two query methods |
| `DnsRpc.TableBindsHandlersByName` | libraries/dns/dns_rpc_server.cpp:106-107 | each descriptor binds the handler of its own name |
| `DnsRpc.MutatingMethodsRequireUnlockedWallet` | libraries/dns/dns_rpc_server.cpp:109-143 | each of the four mutating methods requires authenticated, wallet_open and wallet_unlocked. Each returns `bool` and takes exactly two required parameters, the first `domain_name` |
| `DnsRpc.QueryMethodsRequireOnlyAuthentication` | libraries/dns/dns_rpc_server.cpp:145-158 | `list_active_auctions` and `lookup_domain_record` require only authenticated. The first takes no parameter, the second exactly one required `domain_name` |
| `DnsRpc.BroadcastBuilt` | libraries/dns/dns_rpc_server.cpp:40-43 | when the wallet built a transaction, exactly that one is broadcast once, after the wallet call, and the answer is `true`. A wallet exception propagates and nothing is broadcast |
| `DnsRpc.BidOnDomain` | libraries/dns/dns_rpc_server.cpp:33-44 | one wallet `bid` for the name and amount over an empty pool, then its transaction is broadcast, and the answer is `true` |
| `DnsRpc.AuctionDomain` | libraries/dns/dns_rpc_server.cpp:45-55 | one wallet `ask` for the name and price, then its transaction is broadcast, and the answer is `true` |
| `DnsRpc.TransferDomain` | libraries/dns/dns_rpc_server.cpp:56-66 | one wallet `transfer` of the name to the address, then its transaction is broadcast, and the answer is `true` |
| `DnsRpc.UpdateDomainRecord` | libraries/dns/dns_rpc_server.cpp:67-78 | as written: one wallet `bid` (not a record update), then its transaction is broadcast, and the answer is `true` |
| `DnsRpc.UpdateDomainRecordIsBid` | libraries/dns/dns_rpc_server.cpp:73-74 | `update_domain_record` behaves exactly as `bid_on_domain` |
| `DnsRpc.MutatingHandlersCallWalletOnce` | libraries/dns/dns_rpc_server.cpp:33-78 | each mutating handler first makes its own wallet call (`bid`, `ask`, `transfer`, or `bid` for `update_domain_record`), then at most one broadcast. That broadcast carries the transaction the call built. It succeeds, answering `true`, exactly when it broadcast, and otherwise lets the wallet's exception through |
| `DnsRpc.LookupDomainRecord` | libraries/dns/dns_rpc_server.cpp:91-97 | one wallet `lookup`, whose record or exception is returned unchanged, and nothing is broadcast |
| `DnsRpc.ListActiveAuctions` | libraries/dns/dns_rpc_server.cpp:79-90 | one pair per active-auction output, in the same order. Pair `j` is (`auctions[j].amount`, its DNS claim). The first non-DNS output fails the call. A wallet exception propagates. Nothing is broadcast |

## Left out

- `dns_db::open` / `close` and `level_map` persistence (directories, LevelDB handles): storage I/O. The constructor stands for the state after `open`.
- The order of `level_map` keys: the model walks keys in `std::string` order (character by character, a prefix first). The comparator `level_map` really uses is not part of this model. Keys are Dafny strings of Unicode scalar values, not the byte strings of `std::string`. For valid UTF-8 keys the ascending walk is the same, because UTF-8 byte order equals code-point order. Keys that are not valid UTF-8 cannot be represented.
- The parent `chain_database::store`, `fetch_output`, `fetch_trx_num` and `head_block_num` belong to the parent `chain_database` and are not modelled. `store` is a function parameter returning a `Result` (its exception is the failure case). The lookups are those of `ChainView`. The `block_evaluation_state` argument of `store` is passed only to the parent, so it is not modelled.
- Db.Store: the parent store is modelled as all-or-nothing. It either returns the new chain or fails and leaves the chain as it was, so writes a real parent makes before it throws are not captured.
- Db.Filter: the predicate is a pure function of (name, reference, database snapshot). A C++ predicate that changes the index during the scan is not modelled.
- `to_dns_output` is defined outside `dns_db.cpp`. The model treats converting a non-DNS output as an exception.
- Wallet `bid`/`ask`/`transfer`/`lookup`/`get_active_auctions` and `broadcast_transaction`: external collaborators. They are function fields of `DnsWallet` and entries of `Effect`. A failing broadcast is not modelled.
- `std::dynamic_pointer_cast` handle lookup, `std::cout` logging and `fc::variant` conversions (`as_string`, `as<asset>`, the result variant): runtime plumbing. Handlers take typed arguments.
- The base RPC server's `register_method` and dispatcher: not part of this model. Precondition-check order, duplicate-name rejection and parameter validation are not modelled. `RegisterMethod` only records the descriptor.
- `boost::bind` mechanics: a handler is a `Handler` tag.
- Undo of index entries on reorganization: the code never removes entries.
- programs/light_wallet/QtWrappers.hpp: Qt GUI property wrappers. Their only arithmetic is floating point.
- `output_reference` is declared in the blockchain library, outside this model. `OutputRef.outputIndex` is modelled as unbounded, so any wrap of a narrower index field in a block with very many transactions is not captured.
- Transaction ids are given with each transaction. The hashing `tx.id()` performs is not modelled.
