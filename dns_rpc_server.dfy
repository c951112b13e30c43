/**
 * The DNS RPC server (`dns_rpc_server`): the table of six method
 * descriptors its constructor registers, and the handlers those
 * descriptors bind. A handler is a short sequence of calls: the wallet
 * builds a transaction, the client broadcasts it, the handler answers
 * `true`; the two query handlers only ask the wallet.
 */
module DnsRpc {
  import opened DnsTypes
  import opened DnsDb

  /** The flags of the prerequisite bitmask; a mask is the set of its flags. */
  datatype Prerequisite = JsonAuthenticated | WalletOpen | WalletUnlocked

  /** One declared parameter: name, type tag, whether it is required. */
  datatype ParameterData = ParameterData(name: string, paramType: string, required: bool)

  /** The member function a descriptor binds (`JSON_METHOD_IMPL`). */
  datatype Handler =
    | BidOnDomainHandler
    | AuctionDomainHandler
    | TransferDomainHandler
    | UpdateDomainRecordHandler
    | ListActiveAuctionsHandler
    | LookupDomainRecordHandler

  /** `method_data`: one entry of the method table. */
  datatype MethodData = MethodData(
    name: string,
    handler: Handler,
    description: string,
    returnType: string,
    parameters: seq<ParameterData>,
    prerequisites: set<Prerequisite>)

  /** The name of the member function a handler tag stands for. */
  function HandlerName(h: Handler): string {
    match h
    case BidOnDomainHandler => "bid_on_domain"
    case AuctionDomainHandler => "auction_domain"
    case TransferDomainHandler => "transfer_domain"
    case UpdateDomainRecordHandler => "update_domain_record"
    case ListActiveAuctionsHandler => "list_active_auctions"
    case LookupDomainRecordHandler => "lookup_domain_record"
  }

  /** `json_authenticated | wallet_open | wallet_unlocked`. */
  const WalletUnlockedMask: set<Prerequisite> := {JsonAuthenticated, WalletOpen, WalletUnlocked}

  /** The first declared parameter of every method that takes one. */
  const DomainNameParameter := ParameterData("domain_name", "string", true)

  const BidOnDomainMetadata := MethodData(
    "bid_on_domain", BidOnDomainHandler,
    "Place a bid for an unclaimed name at a particular price.",
    "bool",
    [DomainNameParameter, ParameterData("amount", "asset", true)],
    WalletUnlockedMask)

  const AuctionDomainMetadata := MethodData(
    "auction_domain", AuctionDomainHandler,
    "Make your name available for bidding at a minimum price.",
    "bool",
    [DomainNameParameter, ParameterData("price", "asset", true)],
    WalletUnlockedMask)

  const TransferDomainMetadata := MethodData(
    "transfer_domain", TransferDomainHandler,
    "Send a name to an address.",
    "bool",
    [DomainNameParameter, ParameterData("to_address", "address", true)],
    WalletUnlockedMask)

  const UpdateDomainRecordMetadata := MethodData(
    "update_domain_record", UpdateDomainRecordHandler,
    "Set the value of a name you own to the contents of a given file..",
    "bool",
    [DomainNameParameter, ParameterData("path", "string", true)],
    WalletUnlockedMask)

  const ListActiveAuctionsMetadata := MethodData(
    "list_active_auctions", ListActiveAuctionsHandler,
    "List names that are available for bidding.",
    "vector<pair<asset,claim_dns_output>>",
    [],
    {JsonAuthenticated})

  const LookupDomainRecordMetadata := MethodData(
    "lookup_domain_record", LookupDomainRecordHandler,
    "Get the raw record for a name.",
    "string",
    [DomainNameParameter],
    {JsonAuthenticated})

  /** The four methods that build and broadcast a transaction. */
  const MutatingMethods: set<string> :=
    {"bid_on_domain", "auction_domain", "transfer_domain", "update_domain_record"}

  /** The two methods that only query the wallet. */
  const QueryMethods: set<string> := {"list_active_auctions", "lookup_domain_record"}

  /** The table the constructor builds. */
  function DnsMethodTable(): seq<MethodData> {
    [BidOnDomainMetadata, AuctionDomainMetadata, TransferDomainMetadata,
     UpdateDomainRecordMetadata, ListActiveAuctionsMetadata, LookupDomainRecordMetadata]
  }

  /** The method table as a `dns_rpc_server` records it after construction. */
  class RpcServer {
    /** The registered descriptors, in registration order. */
    var methods: seq<MethodData>

    /** The constructor registers the six DNS methods, in source order. */
    constructor ()
      ensures methods == DnsMethodTable()
    {
      methods := [];
      new;
      RegisterMethod(BidOnDomainMetadata);
      RegisterMethod(AuctionDomainMetadata);
      RegisterMethod(TransferDomainMetadata);
      RegisterMethod(UpdateDomainRecordMetadata);
      RegisterMethod(ListActiveAuctionsMetadata);
      RegisterMethod(LookupDomainRecordMetadata);
    }

    /** `register_method`, as far as the table records it: the descriptor is added. */
    method RegisterMethod(m: MethodData)
      modifies this
      ensures methods == old(methods) + [m]
    {
      methods := methods + [m];
    }
  }

  /** A fresh server's table is the DNS method table. */
  method NewServerTable() returns (table: seq<MethodData>)
    ensures table == DnsMethodTable()
  {
    var server := new RpcServer();
    table := server.methods;
  }

  /** The names of the table's methods, in registration order. */
  function MethodNames(table: seq<MethodData>): (names: seq<string>)
    ensures |names| == |table|
    ensures forall i :: 0 <= i < |table| ==> names[i] == table[i].name
  {
    if table == [] then [] else MethodNames(table[..|table| - 1]) + [table[|table| - 1].name]
  }

  /** The table holds six methods with pairwise distinct names: the four mutating and the two query methods. */
  lemma TableHasSixDistinctMethods()
    ensures |DnsMethodTable()| == 6
    ensures forall a, b :: 0 <= a < b < 6 ==> DnsMethodTable()[a].name != DnsMethodTable()[b].name
    ensures forall d :: d in DnsMethodTable() ==> d.name in MutatingMethods + QueryMethods
    ensures forall n :: n in MutatingMethods + QueryMethods ==> n in MethodNames(DnsMethodTable())
  {
    var names := MethodNames(DnsMethodTable());
    assert names == ["bid_on_domain", "auction_domain", "transfer_domain",
                     "update_domain_record", "list_active_auctions", "lookup_domain_record"];
    // the names already differ in their first two characters
    assert forall a :: 0 <= a < 6 ==> |names[a]| >= 2;
    assert [names[0][0], names[1][0], names[2][0], names[3][0], names[4][0], names[5][0]]
        == ['b', 'a', 't', 'u', 'l', 'l'];
    assert names[4][1] == 'i' && names[5][1] == 'o';
  }

  /** Each descriptor binds the handler of its own name. */
  lemma TableBindsHandlersByName()
    ensures forall d :: d in DnsMethodTable() ==> HandlerName(d.handler) == d.name
  {
  }

  /**
   * Each mutating method requires an authenticated caller, an open wallet
   * and an unlocked wallet, and declares exactly two required parameters,
   * the first being the domain name.
   */
  lemma MutatingMethodsRequireUnlockedWallet()
    ensures forall d :: d in DnsMethodTable() && d.name in MutatingMethods ==>
              && d.prerequisites == {JsonAuthenticated, WalletOpen, WalletUnlocked}
              && |d.parameters| == 2
              && d.parameters[0] == DomainNameParameter
              && d.parameters[1].required
              && d.returnType == "bool"
  {
  }

  /**
   * The two query methods require an authenticated caller only, not an
   * open or unlocked wallet; `list_active_auctions` takes no parameter and
   * `lookup_domain_record` exactly one, the required domain name.
   */
  lemma QueryMethodsRequireOnlyAuthentication()
    ensures forall d :: d in DnsMethodTable() && d.name in QueryMethods ==>
              && d.prerequisites == {JsonAuthenticated}
              && WalletOpen !in d.prerequisites && WalletUnlocked !in d.prerequisites
    ensures forall d :: d in DnsMethodTable() && d.name == "list_active_auctions" ==> d.parameters == []
    ensures forall d :: d in DnsMethodTable() && d.name == "lookup_domain_record" ==>
              d.parameters == [DomainNameParameter]
  {
  }

  // ---------------------------------------------------------------------
  // Handlers over abstract collaborators.
  // ---------------------------------------------------------------------

  /** An exception a handler lets through. */
  datatype RpcError =
    | WalletFailed(reason: string)     // thrown by the wallet
    | NotADnsOutput(position: nat)     // `to_dns_output` on an output that is not a DNS claim

  /** A call a handler makes into a collaborator, in the order made. */
  datatype Effect =
    | WalletBid(name: string, amount: Asset)
    | WalletAsk(name: string, price: Asset)
    | WalletTransfer(name: string, toOwner: Address)
    | WalletLookup(name: string)
    | WalletActiveAuctions
    | Broadcast(tx: SignedTransaction)

  /** What one handler invocation does: its calls, then its answer or exception. */
  datatype HandlerRun<T> = HandlerRun(effects: seq<Effect>, outcome: Result<T, RpcError>)

  /**
   * The DNS wallet, as the handlers call it: each operation receives the
   * name, its argument, the (empty) pending pool and the database.
   */
  datatype DnsWallet = DnsWallet(
    bid: (string, Asset, seq<SignedTransaction>, DbSnapshot) -> Result<SignedTransaction, string>,
    ask: (string, Asset, seq<SignedTransaction>, DbSnapshot) -> Result<SignedTransaction, string>,
    transfer: (string, Address, seq<SignedTransaction>, DbSnapshot) -> Result<SignedTransaction, string>,
    lookup: (string, seq<SignedTransaction>, DbSnapshot) -> Result<seq<char>, string>,
    activeAuctions: Result<seq<TrxOutput>, string>)

  /** A (price, claim) pair of `list_active_auctions`. */
  type AuctionEntry = (Asset, ClaimDnsOutput)

  /**
   * The shape of a mutating handler, stated over its trace: the wallet call
   * `call` comes first, at most one broadcast follows, and the handler
   * answers `true` exactly when it broadcast; what it broadcasts is the
   * transaction the wallet built, and a wallet exception is let through.
   */
  predicate OneCallThenBroadcast(run: HandlerRun<bool>, call: Effect,
                                 built: Result<SignedTransaction, string>)
  {
    && 1 <= |run.effects| <= 2
    && run.effects[0] == call
    && (run.outcome.Success? <==> |run.effects| == 2)
    && (run.outcome.Success? <==> built.Success?)
    && (run.outcome.Success? ==> run.outcome.value && run.effects[1] == Broadcast(built.value))
    && (run.outcome.Failure? ==> run.outcome.error == WalletFailed(built.error))
  }

  /**
   * Broadcast what the wallet call `call` built: on success exactly that
   * transaction is broadcast, once, after the call, and the answer is
   * `true`; a wallet exception is let through with nothing broadcast.
   */
  function BroadcastBuilt(call: Effect, built: Result<SignedTransaction, string>): (run: HandlerRun<bool>)
    ensures built.Success? ==> run.effects == [call, Broadcast(built.value)] && run.outcome == Success(true)
    ensures built.Failure? ==> run.effects == [call] && run.outcome == Failure(WalletFailed(built.error))
  {
    match built
    case Success(tx) => HandlerRun([call, Broadcast(tx)], Success(true))
    case Failure(e) => HandlerRun([call], Failure(WalletFailed(e)))
  }

  /** `bid_on_domain`: the wallet bids `bid` for `name`, the bid is broadcast. */
  function BidOnDomain(w: DnsWallet, db: DbSnapshot, name: string, bid: Asset): (run: HandlerRun<bool>)
    ensures |run.effects| > 0 && run.effects[0] == WalletBid(name, bid)
    ensures run.outcome.Success? <==> w.bid(name, bid, [], db).Success?
    ensures run.outcome.Success? ==>
              run.outcome.value && run.effects == [WalletBid(name, bid), Broadcast(w.bid(name, bid, [], db).value)]
    ensures run.outcome.Failure? ==>
              run.effects == [WalletBid(name, bid)] && run.outcome.error == WalletFailed(w.bid(name, bid, [], db).error)
  {
    BroadcastBuilt(WalletBid(name, bid), w.bid(name, bid, [], db))
  }

  /** `auction_domain`: the wallet offers `name` at `price`, the offer is broadcast. */
  function AuctionDomain(w: DnsWallet, db: DbSnapshot, name: string, price: Asset): (run: HandlerRun<bool>)
    ensures |run.effects| > 0 && run.effects[0] == WalletAsk(name, price)
    ensures run.outcome.Success? <==> w.ask(name, price, [], db).Success?
    ensures run.outcome.Success? ==>
              run.outcome.value && run.effects == [WalletAsk(name, price), Broadcast(w.ask(name, price, [], db).value)]
    ensures run.outcome.Failure? ==>
              run.effects == [WalletAsk(name, price)] && run.outcome.error == WalletFailed(w.ask(name, price, [], db).error)
  {
    BroadcastBuilt(WalletAsk(name, price), w.ask(name, price, [], db))
  }

  /** `transfer_domain`: the wallet transfers `name` to `toOwner`, the transfer is broadcast. */
  function TransferDomain(w: DnsWallet, db: DbSnapshot, name: string, toOwner: Address): (run: HandlerRun<bool>)
    ensures |run.effects| > 0 && run.effects[0] == WalletTransfer(name, toOwner)
    ensures run.outcome.Success? <==> w.transfer(name, toOwner, [], db).Success?
    ensures run.outcome.Success? ==>
              && run.outcome.value
              && run.effects == [WalletTransfer(name, toOwner), Broadcast(w.transfer(name, toOwner, [], db).value)]
    ensures run.outcome.Failure? ==>
              && run.effects == [WalletTransfer(name, toOwner)]
              && run.outcome.error == WalletFailed(w.transfer(name, toOwner, [], db).error)
  {
    BroadcastBuilt(WalletTransfer(name, toOwner), w.transfer(name, toOwner, [], db))
  }

  /**
   * `update_domain_record`: as written it asks the wallet for a BID with
   * its second argument read as an asset, exactly as `bid_on_domain` does.
   */
  function UpdateDomainRecord(w: DnsWallet, db: DbSnapshot, name: string, bid: Asset): (run: HandlerRun<bool>)
    ensures |run.effects| > 0 && run.effects[0] == WalletBid(name, bid)
    ensures run.outcome.Success? <==> w.bid(name, bid, [], db).Success?
    ensures run.outcome.Success? ==>
              run.outcome.value && run.effects == [WalletBid(name, bid), Broadcast(w.bid(name, bid, [], db).value)]
    ensures run.outcome.Failure? ==>
              run.effects == [WalletBid(name, bid)] && run.outcome.error == WalletFailed(w.bid(name, bid, [], db).error)
  {
    BroadcastBuilt(WalletBid(name, bid), w.bid(name, bid, [], db))
  }

  /** `update_domain_record` behaves exactly as `bid_on_domain`. */
  lemma UpdateDomainRecordIsBid(w: DnsWallet, db: DbSnapshot, name: string, bid: Asset)
    ensures UpdateDomainRecord(w, db, name, bid) == BidOnDomain(w, db, name, bid)
  {
  }

  /**
   * Each mutating handler makes its own wallet call first, then broadcasts
   * at most once, and that broadcast carries the transaction its call built.
   */
  lemma MutatingHandlersCallWalletOnce(w: DnsWallet, db: DbSnapshot, name: string, amount: Asset, to: Address)
    ensures OneCallThenBroadcast(BidOnDomain(w, db, name, amount), WalletBid(name, amount), w.bid(name, amount, [], db))
    ensures OneCallThenBroadcast(AuctionDomain(w, db, name, amount), WalletAsk(name, amount), w.ask(name, amount, [], db))
    ensures OneCallThenBroadcast(TransferDomain(w, db, name, to), WalletTransfer(name, to), w.transfer(name, to, [], db))
    ensures OneCallThenBroadcast(UpdateDomainRecord(w, db, name, amount), WalletBid(name, amount), w.bid(name, amount, [], db))
  {
  }

  /** `lookup_domain_record`: the wallet's record for `name`; nothing is broadcast. */
  function LookupDomainRecord(w: DnsWallet, db: DbSnapshot, name: string): (run: HandlerRun<seq<char>>)
    ensures run.effects == [WalletLookup(name)]
    ensures run.outcome.Success? <==> w.lookup(name, [], db).Success?
    ensures run.outcome.Success? ==> run.outcome.value == w.lookup(name, [], db).value
    ensures run.outcome.Failure? ==> run.outcome.error == WalletFailed(w.lookup(name, [], db).error)
  {
    match w.lookup(name, [], db)
    case Success(record) => HandlerRun([WalletLookup(name)], Success(record))
    case Failure(e) => HandlerRun([WalletLookup(name)], Failure(WalletFailed(e)))
  }

  /**
   * `list_active_auctions`: one (amount, claim) pair per active-auction
   * output of the wallet, in the wallet's order; nothing is broadcast. The
   * first output that is not a DNS claim makes `to_dns_output` throw.
   */
  method ListActiveAuctions(w: DnsWallet) returns (run: HandlerRun<seq<AuctionEntry>>)
    ensures run.effects == [WalletActiveAuctions]
    ensures w.activeAuctions.Failure? ==> run.outcome == Failure(WalletFailed(w.activeAuctions.error))
    ensures w.activeAuctions.Success? ==>
              var auctions := w.activeAuctions.value;
              && (run.outcome.Success? <==> forall j :: 0 <= j < |auctions| ==> auctions[j].IsDnsOutput())
              && (run.outcome.Success? ==>
                    && |run.outcome.value| == |auctions|
                    && forall j :: 0 <= j < |auctions| ==>
                         run.outcome.value[j] == (auctions[j].amount, auctions[j].claim.dns))
              && (run.outcome.Failure? ==>
                    && run.outcome.error.NotADnsOutput?
                    && run.outcome.error.position < |auctions|
                    && !auctions[run.outcome.error.position].IsDnsOutput()
                    && forall j :: 0 <= j < run.outcome.error.position ==> auctions[j].IsDnsOutput())
  {
    var effects := [WalletActiveAuctions];
    if w.activeAuctions.Failure? {
      return HandlerRun(effects, Failure(WalletFailed(w.activeAuctions.error)));
    }
    var activeAuctions := w.activeAuctions.value;
    var claimDomainOutputs: seq<AuctionEntry> := [];
    for j := 0 to |activeAuctions|
      invariant |claimDomainOutputs| == j
      invariant forall i :: 0 <= i < j ==> activeAuctions[i].IsDnsOutput()
      invariant forall i :: 0 <= i < j ==>
                  claimDomainOutputs[i] == (activeAuctions[i].amount, activeAuctions[i].claim.dns)
    {
      var output := activeAuctions[j];
      var dns := ToDnsOutput(output);
      if dns.None? {
        return HandlerRun(effects, Failure(NotADnsOutput(j)));
      }
      claimDomainOutputs := claimDomainOutputs + [(output.amount, dns.value)];
    }
    return HandlerRun(effects, Success(claimDomainOutputs));
  }
}
