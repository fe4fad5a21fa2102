/**
 * The RPC record that describes one event log (rpc/src/v1/types/log_details.rs)
 * and its two conversions: from a log placed in the chain ("mined") and from a
 * log of a pending transaction ("pending").  Both copy the log's address,
 * topics and data, and fill `timestamp` and `value` with fixed placeholders.
 */
module LogDetailsTypes {
  import opened Primitives

  /** An event log as a transaction emits it (ethcore's `LogEntry`). */
  datatype LogEntry = LogEntry(address: Address, topics: seq<H256>, data: Bytes)

  /** A log entry together with its place in the chain (ethcore's `LocalizedLogEntry`). */
  datatype LocalizedLogEntry = LocalizedLogEntry(
    entry: LogEntry,
    blockHash: H256,
    blockNumber: u64,
    transactionHash: H256,
    transactionIndex: usize,
    logIndex: usize,
    transactionLogIndex: usize)

  /** The RPC layer's own wrappers around addresses, hashes, byte strings and 256-bit integers. */
  datatype RpcH160 = RpcH160(address: Address)
  datatype RpcH256 = RpcH256(hash: H256)
  datatype RpcBytes = RpcBytes(bytes: Bytes)
  datatype RpcU256 = RpcU256(value: U256)

  datatype LogDetails = LogDetails(
    address: RpcH160,
    topics: seq<RpcH256>,
    data: RpcBytes,
    blockHash: Option<RpcH256>,
    blockNumber: Option<RpcU256>,
    transactionHash: Option<RpcH256>,
    transactionIndex: Option<RpcU256>,
    logIndex: Option<RpcU256>,
    transactionLogIndex: Option<RpcU256>,
    logType: string,
    timestamp: u64,
    value: RpcU256)

  const MINED: string := "mined"
  const PENDING: string := "pending"

  /** The fixed `timestamp` both conversions write; the real one comes from the block header. */
  const PLACEHOLDER_TIMESTAMP: u64 := 123

  /** The fixed `value` both conversions write; the real one comes from the transaction. */
  const PLACEHOLDER_VALUE: U256 := 0

  /** `topics.into_iter().map(Into::into).collect()`: each topic wrapped, order and length kept. */
  function WrapTopics(topics: seq<H256>): (r: seq<RpcH256>)
    ensures |r| == |topics|
    ensures forall i :: 0 <= i < |topics| ==> r[i].hash == topics[i]
  {
    if topics == [] then [] else [RpcH256(topics[0])] + WrapTopics(topics[1..])
  }

  /** The six fields that place a log in the chain are all present. */
  predicate HasChainPosition(d: LogDetails) {
    d.blockHash.Some? && d.blockNumber.Some? && d.transactionHash.Some? &&
    d.transactionIndex.Some? && d.logIndex.Some? && d.transactionLogIndex.Some?
  }

  /** None of the six fields that place a log in the chain is present. */
  predicate HasNoChainPosition(d: LogDetails) {
    d.blockHash.None? && d.blockNumber.None? && d.transactionHash.None? &&
    d.transactionIndex.None? && d.logIndex.None? && d.transactionLogIndex.None?
  }

  /** The log's own content (address, topics, data) is `e`'s, unchanged and in order. */
  predicate CarriesEntry(d: LogDetails, e: LogEntry) {
    d.address.address == e.address &&
    |d.topics| == |e.topics| &&
    (forall i :: 0 <= i < |e.topics| ==> d.topics[i].hash == e.topics[i]) &&
    d.data.bytes == e.data
  }

  /** `From<LocalizedLogEntry>`: a mined log, placed in the chain where `e` says. */
  function FromLocalized(e: LocalizedLogEntry): (d: LogDetails)
    ensures CarriesEntry(d, e.entry)
    ensures HasChainPosition(d)
    ensures d.blockHash.value.hash == e.blockHash
    ensures d.blockNumber.value.value == e.blockNumber
    ensures d.transactionHash.value.hash == e.transactionHash
    ensures d.transactionIndex.value.value == e.transactionIndex
    ensures d.logIndex.value.value == e.logIndex
    ensures d.transactionLogIndex.value.value == e.transactionLogIndex
    ensures d.logType == MINED
    ensures d.timestamp == PLACEHOLDER_TIMESTAMP && d.value.value == PLACEHOLDER_VALUE
  {
    LogDetails(
      RpcH160(e.entry.address),
      WrapTopics(e.entry.topics),
      RpcBytes(e.entry.data),
      Some(RpcH256(e.blockHash)),
      Some(RpcU256(e.blockNumber)),
      Some(RpcH256(e.transactionHash)),
      Some(RpcU256(e.transactionIndex)),
      Some(RpcU256(e.logIndex)),
      Some(RpcU256(e.transactionLogIndex)),
      MINED,
      PLACEHOLDER_TIMESTAMP,
      RpcU256(PLACEHOLDER_VALUE))
  }

  /** `From<LogEntry>`: a pending log, with no place in the chain yet. */
  function FromPending(e: LogEntry): (d: LogDetails)
    ensures CarriesEntry(d, e)
    ensures HasNoChainPosition(d)
    ensures d.logType == PENDING
    ensures d.timestamp == PLACEHOLDER_TIMESTAMP && d.value.value == PLACEHOLDER_VALUE
  {
    LogDetails(
      RpcH160(e.address),
      WrapTopics(e.topics),
      RpcBytes(e.data),
      None, None, None, None, None, None,
      PENDING,
      PLACEHOLDER_TIMESTAMP,
      RpcU256(PLACEHOLDER_VALUE))
  }

  /** The topics unwrapped again, order and length kept. */
  function UnwrapTopics(topics: seq<RpcH256>): (r: seq<H256>)
    ensures |r| == |topics|
    ensures forall i :: 0 <= i < |topics| ==> r[i] == topics[i].hash
  {
    if topics == [] then [] else [topics[0].hash] + UnwrapTopics(topics[1..])
  }

  /** The log entry a record describes. */
  function ToEntry(d: LogDetails): LogEntry {
    LogEntry(d.address.address, UnwrapTopics(d.topics), d.data.bytes)
  }

  /**
   * The chain entry a mined record describes: None when a position field is
   * missing or a number does not fit the entry's 64-bit field.
   */
  function ToLocalized(d: LogDetails): Option<LocalizedLogEntry> {
    if !HasChainPosition(d) then None
    else if d.blockNumber.value.value >= U64_LIMIT || d.transactionIndex.value.value >= U64_LIMIT
         || d.logIndex.value.value >= U64_LIMIT || d.transactionLogIndex.value.value >= U64_LIMIT then None
    else Some(LocalizedLogEntry(
      ToEntry(d),
      d.blockHash.value.hash,
      d.blockNumber.value.value,
      d.transactionHash.value.hash,
      d.transactionIndex.value.value,
      d.logIndex.value.value,
      d.transactionLogIndex.value.value))
  }

  /** Wrapping the topics loses nothing. */
  lemma TopicsRoundTrip(topics: seq<H256>)
    ensures UnwrapTopics(WrapTopics(topics)) == topics
  {
  }

  /** The conversion of a mined log loses nothing: the entry can be read back from the record. */
  lemma MinedRoundTrip(e: LocalizedLogEntry)
    ensures ToLocalized(FromLocalized(e)) == Some(e)
  {
    TopicsRoundTrip(e.entry.topics);
  }

  /** The conversion of a pending log loses nothing: the entry can be read back from the record. */
  lemma PendingRoundTrip(e: LogEntry)
    ensures ToEntry(FromPending(e)) == e
  {
  }

  /**
   * Whichever conversion built a record, its type is "mined" exactly when it
   * has a block hash, and a mined record never equals a pending one.
   */
  lemma LogTypeMatchesChainPosition(e: LocalizedLogEntry, p: LogEntry)
    ensures FromLocalized(e).logType == MINED <==> FromLocalized(e).blockHash.Some?
    ensures FromPending(p).logType == MINED <==> FromPending(p).blockHash.Some?
    ensures FromLocalized(e) != FromPending(p)
  {
  }
}
