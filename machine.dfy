/**
 * The capability hierarchy that lets one consensus engine run over several
 * chain representations (machine/src/lib.rs).
 *
 * Each Rust trait becomes a capability record: a datatype whose fields are the
 * operations the trait provides, over type parameters that stand for the
 * trait's associated types.  An operation that takes its receiver by `&mut`
 * returns the updated value together with its outcome (`Mutation`), so that a
 * failed call still leaves a well-defined block behind.
 */
module MachineTypes {
  import opened Primitives

  /** `Header`: identity hashes, seal, author and number of a header of type H. */
  datatype HeaderView<!H> = HeaderView(
    bareHash: H -> H256,
    hash: H -> H256,
    seal: H -> seq<Bytes>,
    author: H -> Address,
    number: H -> u64)

  /** `ScoredHeader`: a header whose score can be read and replaced. */
  datatype ScoredHeaderView<!H> = ScoredHeaderView(
    header: HeaderView<H>,
    score: H -> U256,
    setScore: (H, U256) -> H)

  /**
   * What `set_score` promises: the score reads back exactly as it was set,
   * and the seal, the author and the number of the header stay as they were.
   */
  ghost predicate SetScoreReadsBack<H(!new)>(v: ScoredHeaderView<H>) {
    forall h: H, s: U256 ::
      v.score(v.setScore(h, s)) == s &&
      v.header.seal(v.setScore(h, s)) == v.header.seal(h) &&
      v.header.author(v.setScore(h, s)) == v.header.author(h) &&
      v.header.number(v.setScore(h, s)) == v.header.number(h)
  }

  /** `LiveBlock`: the header of a block in transition and its uncle headers, all of type H. */
  datatype LiveBlockView<!L, H> = LiveBlockView(header: L -> H, uncles: L -> seq<H>)

  /** `Transactions`: a live block that also lists its transactions, in execution order. */
  datatype TransactionsView<!L, H, T> = TransactionsView(
    liveBlock: LiveBlockView<L, H>,
    transactions: L -> seq<T>)

  /**
   * `Machine`: binds the header type and the live-block type.  The bound
   * `LiveBlock<Header = Self::Header>` is the one type parameter H that both
   * records share; the engine-client, auxiliary-request and error types are
   * carried as parameters and have no operations at this level.
   */
  datatype Machine<!H, !L, Client, AuxRequest, Error> = Machine(
    header: HeaderView<H>,
    liveBlock: LiveBlockView<L, H>)

  /** The authors of the given headers, in order. */
  function AuthorsOf<H>(v: HeaderView<H>, hs: seq<H>): (authors: seq<Address>)
    ensures |authors| == |hs|
    ensures forall i :: 0 <= i < |hs| ==> authors[i] == v.author(hs[i])
  {
    if hs == [] then [] else [v.author(hs[0])] + AuthorsOf(v, hs[1..])
  }

  /**
   * The author of a live block's header followed by the authors of its uncles,
   * all read with the machine's own `Header` capability: the header and every
   * uncle a live block exposes are of the machine's header type.
   */
  function BlockAuthors<H, L, C, A, E>(m: Machine<H, L, C, A, E>, live: L): (authors: seq<Address>)
    ensures |authors| == 1 + |m.liveBlock.uncles(live)|
    ensures authors[0] == m.header.author(m.liveBlock.header(live))
    ensures forall i :: 0 < i < |authors| ==>
      authors[i] == m.header.author(m.liveBlock.uncles(live)[i - 1])
  {
    [m.header.author(m.liveBlock.header(live))] + AuthorsOf(m.header, m.liveBlock.uncles(live))
  }

  /** A live-block type of a chain without uncles: `uncles()` is empty for every block. */
  ghost predicate HasNoUncles<L(!new), H>(v: LiveBlockView<L, H>) {
    forall live: L :: v.uncles(live) == []
  }

  /**
   * On a machine whose live blocks have no uncles, the only header a live
   * block exposes is its own: the author of that header is the one author
   * to be found in the block.
   */
  lemma UnclelessBlockHasOneAuthor<H, L(!new), C, A, E>(m: Machine<H, L, C, A, E>, live: L)
    requires HasNoUncles(m.liveBlock)
    ensures BlockAuthors(m, live) == [m.header.author(m.liveBlock.header(live))]
  {
  }

  /** One `(Address, U256)` reward credit. */
  datatype Reward = Reward(address: Address, amount: U256)

  /** The block after a `&mut` operation, and what the operation returned. */
  datatype Mutation<L, Error> = Mutation(live: L, outcome: Result<(), Error>)

  /** `WithBalances`: balance reads and writes scoped to one live block, and reward notes. */
  datatype WithBalances<!H, !L, C, A, E> = WithBalances(
    machine: Machine<H, L, C, A, E>,
    balance: (L, Address) -> Result<U256, E>,
    addBalance: (L, Address, U256) -> Mutation<L, E>,
    noteRewards: (L, seq<Reward>, seq<Reward>) -> Mutation<L, E>)

  /** The trait's default `note_rewards`: it touches nothing and returns `Ok(())`. */
  function DefaultNoteRewards<L, E>(live: L, direct: seq<Reward>, indirect: seq<Reward>): Mutation<L, E> {
    Mutation(live, Ok(()))
  }

  /** A `WithBalances` implementation that keeps the default `note_rewards`. */
  function WithDefaultRewards<H, L, C, A, E>(
    machine: Machine<H, L, C, A, E>,
    balance: (L, Address) -> Result<U256, E>,
    addBalance: (L, Address, U256) -> Mutation<L, E>): WithBalances<H, L, C, A, E>
  {
    WithBalances(machine, balance, addBalance,
      (live: L, direct: seq<Reward>, indirect: seq<Reward>) => DefaultNoteRewards(live, direct, indirect))
  }

  /**
   * The default `note_rewards` succeeds for every pair of reward lists, empty
   * or not, and every balance of the block reads afterwards as before.
   */
  lemma DefaultNoteRewardsIsNoOp<H, L, C, A, E>(
    machine: Machine<H, L, C, A, E>,
    balance: (L, Address) -> Result<U256, E>,
    addBalance: (L, Address, U256) -> Mutation<L, E>,
    live: L, direct: seq<Reward>, indirect: seq<Reward>)
    ensures WithDefaultRewards(machine, balance, addBalance).noteRewards(live, direct, indirect).outcome == Ok(())
    ensures forall a: Address ::
      balance(WithDefaultRewards(machine, balance, addBalance).noteRewards(live, direct, indirect).live, a)
        == balance(live, a)
  {
  }

  /**
   * What `add_balance` promises when it succeeds: if the account's balance
   * could be read before and adding the amount stays below 2^256, it reads
   * afterwards as the old balance plus the amount; the balance of every other
   * account reads as before.  What happens on overflow is each
   * implementation's own policy, stated beside it.
   */
  ghost predicate AddBalanceIncrements<H, L(!new), C, A, E>(wb: WithBalances<H, L, C, A, E>) {
    (forall live: L, a: Address, x: U256 |
       wb.addBalance(live, a, x).outcome.Ok? && wb.balance(live, a).Ok? &&
       wb.balance(live, a).value + x < U256_LIMIT ::
       wb.balance(wb.addBalance(live, a, x).live, a).Ok? &&
       wb.balance(wb.addBalance(live, a, x).live, a).value == wb.balance(live, a).value + x) &&
    (forall live: L, a: Address, x: U256, b: Address |
       wb.addBalance(live, a, x).outcome.Ok? && b != a ::
       wb.balance(wb.addBalance(live, a, x).live, b) == wb.balance(live, b))
  }
}
