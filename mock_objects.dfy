/**
 * The reference machine with its mutable parts held in place: a scored header
 * whose score `set_score` overwrites, and a live block whose balances
 * `add_balance` updates.  Each object's `Value()` is its content as a
 * `MockMachine` value, and every method is specified by the value-level
 * function it implements.  The machine itself has no state: its operations
 * take the live block they work on, and change that block and nothing else.
 */
module MockObjects {
  import opened Primitives
  import opened MachineTypes
  import MockMachine

  /** A header that can be re-scored in place (`ScoredHeader`). */
  class ScoredHeader {
    const parentHash: H256
    const author: Address
    const number: u64
    const seal: seq<Bytes>
    var score: U256

    constructor (h: MockMachine.MockHeader)
      ensures Value() == h
    {
      parentHash, author, number, seal := h.parentHash, h.author, h.number, h.seal;
      score := h.score;
    }

    function Value(): MockMachine.MockHeader
      reads this
    {
      MockMachine.MockHeader(parentHash, author, number, score, seal)
    }

    /** `set_score`: the score reads back exactly as given; nothing else changes. */
    method SetScore(s: U256)
      modifies this
      ensures Value() == MockMachine.SetScore(old(Value()), s)
      ensures score == s
    {
      score := s;
    }
  }

  /**
   * A block in the process of its state transition, with its balances held in
   * place.  Its header and uncles are values owned by the block: nothing
   * outside the block can change them.
   */
  class LiveBlock {
    const header: MockMachine.MockHeader
    const uncles: seq<MockMachine.MockHeader>
    const transactions: seq<MockMachine.MockTransaction>
    var balances: map<Address, U256>

    constructor (header: MockMachine.MockHeader, uncles: seq<MockMachine.MockHeader>,
                 transactions: seq<MockMachine.MockTransaction>, balances: map<Address, U256>)
      ensures Value() == MockMachine.MockLiveBlock(header, uncles, transactions, balances)
    {
      this.header, this.uncles := header, uncles;
      this.transactions, this.balances := transactions, balances;
    }

    function Value(): MockMachine.MockLiveBlock
      reads this
    {
      MockMachine.MockLiveBlock(header, uncles, transactions, balances)
    }
  }

  /** `balance`: reads the account's balance in this block, without changing anything. */
  function Balance(live: LiveBlock, a: Address): (r: Result<U256, MockMachine.MockError>)
    reads live
    ensures r == MockMachine.Balance(live.Value(), a)
  {
    Ok(if a in live.balances then live.balances[a] else 0)
  }

  /** `add_balance`: credits `x` to `a` in this live block only. */
  method AddBalance(live: LiveBlock, a: Address, x: U256) returns (r: Result<(), MockMachine.MockError>)
    modifies live
    ensures live.Value() == MockMachine.AddBalance(old(live.Value()), a, x).live
    ensures r == MockMachine.AddBalance(old(live.Value()), a, x).outcome
  {
    var current := if a in live.balances then live.balances[a] else 0;
    if current + x < U256_LIMIT {
      live.balances := live.balances[a := current + x];
      r := Ok(());
    } else {
      r := Err(MockMachine.BalanceOverflow);
    }
  }

  /** The default `note_rewards`: succeeds and leaves the block exactly as it was. */
  method NoteRewards(live: LiveBlock, direct: seq<Reward>, indirect: seq<Reward>)
    returns (r: Result<(), MockMachine.MockError>)
    modifies live
    ensures Mutation(live.Value(), r) == DefaultNoteRewards(old(live.Value()), direct, indirect)
    ensures r == Ok(()) && live.balances == old(live.balances)
  {
    r := Ok(());
  }

  /**
   * A credit is confined to one account of one live block: on success the
   * account's balance rises by the amount, every other account of the block
   * keeps its balance, a failed credit leaves the block as it was, and every
   * other live block keeps its whole content.
   */
  method CreditOneBlock(target: LiveBlock, sibling: LiveBlock, a: Address, x: U256)
    returns (r: Result<(), MockMachine.MockError>)
    requires target != sibling
    modifies target
    ensures target.Value() == MockMachine.AddBalance(old(target.Value()), a, x).live
    ensures r == MockMachine.AddBalance(old(target.Value()), a, x).outcome
    ensures r.Ok? ==> Balance(target, a).value == old(Balance(target, a)).value + x
    ensures forall b :: b != a ==> Balance(target, b) == old(Balance(target, b))
    ensures r.Err? ==> target.Value() == old(target.Value())
    ensures sibling.Value() == old(sibling.Value())
  {
    r := AddBalance(target, a, x);
  }
}
