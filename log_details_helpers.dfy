/**
 * The two lookups that enrich a log record (rpc/src/v1/helpers/log_details.rs):
 * the value of the transaction that emitted it and the timestamp of the block
 * that holds it.  The blockchain client is reduced to the two lookups they use,
 * each a finite map; a hash the client does not know yields no answer, never
 * an error.  Client and record are values, so neither lookup can change them.
 */
module LogDetailsHelpers {
  import opened Primitives
  import opened LogDetailsTypes

  /** What the client returns for a transaction; only its value is read here. */
  datatype LocalizedTransaction = LocalizedTransaction(value: U256)

  /** What the client returns for a block header; only its timestamp is read here. */
  datatype HeaderRecord = HeaderRecord(timestamp: u64)

  datatype TransactionId = TransactionHash(hash: H256)
  datatype BlockId = BlockHash(hash: H256)

  /** The blockchain client, as far as these lookups see it. */
  datatype Client = Client(transactions: map<H256, LocalizedTransaction>, headers: map<H256, HeaderRecord>) {

    /** `client.transaction(id)`. */
    function Transaction(id: TransactionId): Option<LocalizedTransaction> {
      if id.hash in transactions then Some(transactions[id.hash]) else None
    }

    /** `client.block_header(id)`. */
    function BlockHeader(id: BlockId): Option<HeaderRecord> {
      if id.hash in headers then Some(headers[id.hash]) else None
    }
  }

  /**
   * `value`: present exactly when the record names a transaction and the
   * client knows it, and then it is that transaction's value.
   */
  function Value(client: Client, log: LogDetails): (r: Option<U256>)
    ensures r.Some? <==> log.transactionHash.Some? && log.transactionHash.value.hash in client.transactions
    ensures r.Some? ==> r.value == client.transactions[log.transactionHash.value.hash].value
  {
    log.transactionHash
      .Map((h: RpcH256) => TransactionHash(h.hash))
      .AndThen((id: TransactionId) => client.Transaction(id))
      .Map((t: LocalizedTransaction) => t.value)
  }

  /**
   * `timestamp`: present exactly when the record names a block and the client
   * knows its header, and then it is that header's timestamp.
   */
  function Timestamp(client: Client, log: LogDetails): (r: Option<u64>)
    ensures r.Some? <==> log.blockHash.Some? && log.blockHash.value.hash in client.headers
    ensures r.Some? ==> r.value == client.headers[log.blockHash.value.hash].timestamp
  {
    log.blockHash
      .AndThen((h: RpcH256) => client.BlockHeader(BlockHash(h.hash)))
      .Map((header: HeaderRecord) => header.timestamp)
  }

  /** A pending log is never enriched, whatever the client holds. */
  lemma PendingLogIsNotEnriched(client: Client, e: LogEntry)
    ensures Value(client, FromPending(e)) == None
    ensures Timestamp(client, FromPending(e)) == None
  {
  }

  /**
   * A mined log is enriched from its own transaction and block: each field is
   * present exactly when the client knows the hash the entry carries.
   */
  lemma MinedLogEnrichment(client: Client, e: LocalizedLogEntry)
    ensures Value(client, FromLocalized(e)) ==
      if e.transactionHash in client.transactions then Some(client.transactions[e.transactionHash].value) else None
    ensures Timestamp(client, FromLocalized(e)) ==
      if e.blockHash in client.headers then Some(client.headers[e.blockHash].timestamp) else None
  {
  }
}
