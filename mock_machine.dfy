/**
 * A small reference machine over plain values, so that the contracts of
 * machine/src/lib.rs can be checked on something concrete.  Its header
 * carries a parent hash, author, number, score and seal; its live block
 * carries a header, uncles, transactions and a map of account balances.
 *
 * The hash algorithm is a parameter (`Hasher`): nothing is assumed of it, not
 * even collision resistance.  Like Ethereum's difficulty, the score is part
 * of the hashed content.  Balances are `U256`; a credit that would pass 2^256
 * fails with `BalanceOverflow` and leaves the block as it was.
 */
module MockMachine {
  import opened Primitives
  import opened MachineTypes

  datatype MockHeader = MockHeader(
    parentHash: H256,
    author: Address,
    number: u64,
    score: U256,
    seal: seq<Bytes>)

  /** What a header hash is taken over: every field but the seal, or every field. */
  datatype HashInput =
    | Unsealed(parentHash: H256, author: Address, number: u64, score: U256)
    | Sealed(parentHash: H256, author: Address, number: u64, score: U256, seal: seq<Bytes>)

  type Hasher = HashInput -> H256

  function BareHash(hasher: Hasher, h: MockHeader): H256 {
    hasher(Unsealed(h.parentHash, h.author, h.number, h.score))
  }

  function Hash(hasher: Hasher, h: MockHeader): H256 {
    hasher(Sealed(h.parentHash, h.author, h.number, h.score, h.seal))
  }

  function SetScore(h: MockHeader, score: U256): MockHeader {
    h.(score := score)
  }

  /** The mock's `Header` implementation. */
  function HeaderOf(hasher: Hasher): HeaderView<MockHeader> {
    HeaderView(
      (h: MockHeader) => BareHash(hasher, h),
      (h: MockHeader) => Hash(hasher, h),
      (h: MockHeader) => h.seal,
      (h: MockHeader) => h.author,
      (h: MockHeader) => h.number)
  }

  /** The mock's `ScoredHeader` implementation. */
  function ScoredHeaderOf(hasher: Hasher): ScoredHeaderView<MockHeader> {
    ScoredHeaderView(HeaderOf(hasher), (h: MockHeader) => h.score, (h: MockHeader, s: U256) => SetScore(h, s))
  }

  /**
   * `bare_hash` excludes the seal: two headers that differ only in their seal
   * have the same bare hash, whatever the hash algorithm.
   */
  lemma BareHashIgnoresSeal(hasher: Hasher, h: MockHeader, seal: seq<Bytes>)
    ensures HeaderOf(hasher).bareHash(h.(seal := seal)) == HeaderOf(hasher).bareHash(h)
    ensures HeaderOf(hasher).seal(h.(seal := seal)) == seal
  {
  }

  /** The mock header keeps the `set_score` promise. */
  lemma MockSetScoreReadsBack(hasher: Hasher)
    ensures SetScoreReadsBack(ScoredHeaderOf(hasher))
  {
  }

  /** An opaque transaction; its content is not interpreted here. */
  datatype MockTransaction = MockTransaction(payload: Bytes)

  datatype MockLiveBlock = MockLiveBlock(
    header: MockHeader,
    uncles: seq<MockHeader>,
    transactions: seq<MockTransaction>,
    balances: map<Address, U256>)

  /** The mock's `LiveBlock` implementation. */
  function LiveBlockOf(): LiveBlockView<MockLiveBlock, MockHeader> {
    LiveBlockView((b: MockLiveBlock) => b.header, (b: MockLiveBlock) => b.uncles)
  }

  /** The mock's `Transactions` implementation. */
  function TransactionsOf(): TransactionsView<MockLiveBlock, MockHeader, MockTransaction> {
    TransactionsView(LiveBlockOf(), (b: MockLiveBlock) => b.transactions)
  }

  /** A block type of a chain without uncles: a header and its transactions. */
  datatype PlainBlock = PlainBlock(header: MockHeader, transactions: seq<MockTransaction>)

  function PlainBlockOf(): LiveBlockView<PlainBlock, MockHeader> {
    LiveBlockView((b: PlainBlock) => b.header, (b: PlainBlock) => [])
  }

  /** A machine over the plain block type. */
  function PlainMachineOf(hasher: Hasher): Machine<MockHeader, PlainBlock, (), (), MockError> {
    Machine(HeaderOf(hasher), PlainBlockOf())
  }

  /**
   * The plain block type has no uncles, so on its machine the author of a
   * block's own header is the only author the block exposes.
   */
  lemma PlainBlockHasNoUncles(hasher: Hasher, b: PlainBlock)
    ensures HasNoUncles(PlainBlockOf())
    ensures BlockAuthors(PlainMachineOf(hasher), b) == [b.header.author]
  {
    UnclelessBlockHasOneAuthor(PlainMachineOf(hasher), b);
  }

  datatype MockError = BalanceOverflow

  /** The balance of an account in the block's state; an account never credited holds 0. */
  function Balance(live: MockLiveBlock, a: Address): Result<U256, MockError> {
    Ok(if a in live.balances then live.balances[a] else 0)
  }

  /** Credits `x` to `a` in this block only; fails, changing nothing, when the sum passes 2^256. */
  function AddBalance(live: MockLiveBlock, a: Address, x: U256): Mutation<MockLiveBlock, MockError> {
    var sum := Balance(live, a).value + x;
    if sum < U256_LIMIT then
      Mutation(live.(balances := live.balances[a := sum]), Ok(()))
    else
      Mutation(live, Err(BalanceOverflow))
  }

  /** The mock machine: no engine client and no auxiliary requests (unit types). */
  function MachineOf(hasher: Hasher): Machine<MockHeader, MockLiveBlock, (), (), MockError> {
    Machine(HeaderOf(hasher), LiveBlockOf())
  }

  /** The mock's `WithBalances` implementation; it keeps the default `note_rewards`. */
  function WithBalancesOf(hasher: Hasher): WithBalances<MockHeader, MockLiveBlock, (), (), MockError> {
    WithDefaultRewards(MachineOf(hasher), Balance, AddBalance)
  }

  /** The mock's `add_balance` keeps the promise of the trait. */
  lemma MockAddBalanceIncrements(hasher: Hasher)
    ensures AddBalanceIncrements(WithBalancesOf(hasher))
  {
  }

  /**
   * The overflow policy of the mock: a credit fails exactly when the sum
   * reaches 2^256, and a failed credit leaves the block unchanged.  Whether it
   * fails or not, the header, uncles and transactions are never touched.
   */
  lemma AddBalanceFailsOnlyOnOverflow(live: MockLiveBlock, a: Address, x: U256)
    ensures AddBalance(live, a, x).outcome.Err? <==> Balance(live, a).value + x >= U256_LIMIT
    ensures AddBalance(live, a, x).outcome.Err? ==> AddBalance(live, a, x).live == live
    ensures AddBalance(live, a, x).live.header == live.header
    ensures AddBalance(live, a, x).live.uncles == live.uncles
    ensures AddBalance(live, a, x).live.transactions == live.transactions
  {
  }
}
