/** The ledger of basic_transactions_gp/blockchain.py: a chain of sealed blocks
    and a buffer of pending transactions, with SHA-256 block hashing and the
    six-zero proof-of-work check. SHA-256 and the sorted-key JSON encoding are
    not modelled byte for byte: they are the two function values of an Oracle,
    which, being Dafny functions, are deterministic by construction. */
module Ledger {
  import Decimal

  datatype Option<T> = None | Some(value: T)

  /** What a block records as its predecessor: the genesis block carries the
      sentinel (the integer 1 in the source), every other block a hex digest. */
  datatype PrevHash = Genesis | Digest(s: string)

  datatype Transaction = Transaction(sender: string, recipient: string, amount: int, index: int)

  datatype Block = Block(
    index: int,
    timestamp: real,
    transactions: seq<Transaction>,
    proof: int,
    previousHash: PrevHash)

  /** sha256 maps a string to its hexdigest(); serialize is
      json.dumps(block, sort_keys=True). */
  datatype Oracle = Oracle(sha256: string -> string, serialize: Block -> string)

  /** Proof-of-work difficulty: leading '0' hex characters required. */
  const Difficulty: nat := 6

  const HexChars: string := "0123456789abcdef"

  /** A lowercase hexadecimal SHA-256 digest: 64 characters from 0-9a-f. */
  predicate IsHexDigest(s: string) {
    |s| == 64 && forall i :: 0 <= i < |s| ==> s[i] in HexChars
  }

  /** What SHA-256's hexdigest() guarantees of every input. */
  ghost predicate SoundOracle(o: Oracle) {
    forall s :: IsHexDigest(o.sha256(s))
  }

  /** Blockchain.hash: the hexdigest of the block's sorted-key JSON text. */
  function Hash(o: Oracle, b: Block): (h: string)
    requires SoundOracle(o)
    ensures IsHexDigest(h)
  {
    o.sha256(o.serialize(b))
  }

  /** Python's s[:n]: the whole string when it is shorter than n. */
  function Prefix(s: string, n: nat): (p: string)
    ensures |p| == if |s| < n then |s| else n
    ensures p <= s
  {
    if |s| <= n then s else s[..n]
  }

  /** The proof string f'{block_string}{proof}'. */
  function Guess(blockString: string, proof: int): (g: string)
    ensures |g| > |blockString| && g[..|blockString|] == blockString
    ensures Decimal.IsDecimalInt(g[|blockString|..]) && Decimal.ParseInt(g[|blockString|..]) == proof
    ensures |g| > |blockString| + (if proof < 0 then 1 else 0)
    ensures proof < 0 <==> g[|blockString|] == '-'
    ensures g[|blockString| + (if proof < 0 then 1 else 0)] == '0' ==> g[|blockString|..] == "0"
  {
    Decimal.IntRoundTrip(proof);
    var g := blockString + Decimal.IntToString(proof);
    assert g[|blockString|..] == Decimal.IntToString(proof);
    g
  }

  /** Blockchain.valid_proof: the digest of the guess starts with six '0'. */
  function ValidProof(o: Oracle, blockString: string, proof: int): (ok: bool)
    ensures ok <==> |o.sha256(Guess(blockString, proof))| >= Difficulty &&
                    forall i :: 0 <= i < Difficulty ==> o.sha256(Guess(blockString, proof))[i] == '0'
  {
    Prefix(o.sha256(Guess(blockString, proof)), Difficulty) == seq(Difficulty, _ => '0')
  }

  /** For one block string, the proof string determines the proof. */
  lemma GuessInjective(blockString: string, p: int, q: int)
    ensures Guess(blockString, p) == Guess(blockString, q) ==> p == q
  {
  }

  /** Each block's index is its position plus one. */
  predicate Indexed(chain: seq<Block>) {
    forall i :: 0 <= i < |chain| ==> chain[i].index == i + 1
  }

  /** The predecessor entry a block appended to chain must carry to keep it linked. */
  function ExpectedPrev(o: Oracle, chain: seq<Block>): PrevHash
    requires SoundOracle(o)
  {
    if |chain| == 0 then Genesis else Digest(Hash(o, chain[|chain| - 1]))
  }

  /** The first block carries the sentinel, every later one the hash of its predecessor. */
  predicate Linked(o: Oracle, chain: seq<Block>)
    requires SoundOracle(o)
  {
    forall i :: 0 <= i < |chain| ==> chain[i].previousHash == ExpectedPrev(o, chain[..i])
  }

  lemma IndexedSnoc(chain: seq<Block>, b: Block)
    ensures Indexed(chain + [b]) <==> Indexed(chain) && b.index == |chain| + 1
  {
    if Indexed(chain + [b]) {
      assert forall i :: 0 <= i < |chain| ==> (chain + [b])[i] == chain[i];
      assert (chain + [b])[|chain|] == b;
    }
  }

  lemma LinkedSnoc(o: Oracle, chain: seq<Block>, b: Block)
    requires SoundOracle(o)
    ensures Linked(o, chain + [b]) <==> Linked(o, chain) && b.previousHash == ExpectedPrev(o, chain)
  {
    var c := chain + [b];
    assert forall i :: 0 <= i <= |chain| ==> c[..i] == chain[..i];
    assert c[|chain|] == b;
    assert forall i :: 0 <= i < |chain| ==> c[i] == chain[i];
  }

  /** Every prefix of an indexed, linked chain is indexed and linked. */
  lemma PrefixLinked(o: Oracle, chain: seq<Block>, k: nat)
    requires SoundOracle(o) && Indexed(chain) && Linked(o, chain) && k <= |chain|
    ensures Indexed(chain[..k]) && Linked(o, chain[..k])
  {
  }

  /** In a linked chain a non-genesis block carries the hash of its predecessor. */
  lemma LinkedAt(o: Oracle, chain: seq<Block>, i: nat)
    requires SoundOracle(o) && Linked(o, chain) && 0 < i < |chain|
    ensures chain[i].previousHash == Digest(Hash(o, chain[i - 1]))
  {
  }

  /** Tamper evidence: two linked, indexed chains that end in the same block
      have the same length and are the same chain, unless at some position
      they hold two different blocks with the same hash. Rewriting history
      behind a fixed last block therefore takes a hash collision. */
  lemma {:induction false} TamperEvidence(o: Oracle, c1: seq<Block>, c2: seq<Block>)
    requires SoundOracle(o)
    requires Indexed(c1) && Linked(o, c1) && |c1| > 0
    requires Indexed(c2) && Linked(o, c2) && |c2| > 0
    requires c1[|c1| - 1] == c2[|c2| - 1]
    ensures |c1| == |c2|
    ensures c1 == c2 || exists k :: 0 <= k < |c1| && c1[k] != c2[k] && Hash(o, c1[k]) == Hash(o, c2[k])
    decreases |c1|
  {
    var n := |c1|;
    assert c1[n - 1].index == n && c2[|c2| - 1].index == |c2|;
    if n == 1 {
      assert c1 == [c1[0]] && c2 == [c2[0]];
    } else {
      var p1, p2 := c1[..n - 1], c2[..n - 1];
      LinkedAt(o, c1, n - 1);
      LinkedAt(o, c2, n - 1);
      if c1[n - 2] != c2[n - 2] {
        var k := n - 2;
        assert c1[k] != c2[k] && Hash(o, c1[k]) == Hash(o, c2[k]);
      } else {
        PrefixLinked(o, c1, n - 1);
        PrefixLinked(o, c2, n - 1);
        TamperEvidence(o, p1, p2);
        if p1 == p2 {
          assert c1 == p1 + [c1[n - 1]] && c2 == p2 + [c2[n - 1]];
        } else {
          var k :| 0 <= k < |p1| && p1[k] != p2[k] && Hash(o, p1[k]) == Hash(o, p2[k]);
          assert c1[k] == p1[k] && c2[k] == p2[k];
        }
      }
    }
  }

  /** Python truthiness of the optional previous_hash argument: None and the
      empty string are falsy and make new_block compute the hash itself. */
  function Supplied(previousHash: Option<PrevHash>): (r: bool)
    ensures previousHash.None? ==> !r
    ensures previousHash == Some(Genesis) ==> r
    ensures previousHash.Some? && previousHash.value.Digest? ==> (r <==> previousHash.value.s != "")
  {
    previousHash.Some? && previousHash.value != Digest("")
  }

  class Blockchain {
    const oracle: Oracle
    var chain: seq<Block>
    var currentTransactions: seq<Transaction>

    /** Holds from construction on: indices match positions and the chain is never empty. */
    ghost predicate Valid()
      reads this
    {
      SoundOracle(oracle) && Indexed(chain) && |chain| > 0
    }

    /** Seals the genesis block: index 1, proof 100, the sentinel predecessor. */
    constructor (oracle: Oracle, timestamp: real)
      requires SoundOracle(oracle)
      ensures Valid() && this.oracle == oracle
      ensures chain == [Block(1, timestamp, [], 100, Genesis)]
      ensures currentTransactions == []
      ensures Linked(oracle, chain)
    {
      this.oracle := oracle;
      chain := [];
      currentTransactions := [];
      new;
      var genesis := NewBlock(100, timestamp, Some(Genesis));
      LinkedSnoc(oracle, [], genesis);
    }

    /** Blockchain.last_block. */
    function LastBlock(): (b: Block)
      reads this
      requires Valid()
      ensures b in chain && b.index == |chain|
      ensures forall i :: 0 <= i < |chain| ==> chain[i].index < b.index || chain[i] == b
    {
      chain[|chain| - 1]
    }

    /** Blockchain.new_block: moves the pending transactions into a new block
        appended to the chain and empties the buffer. */
    method NewBlock(proof: int, timestamp: real, previousHash: Option<PrevHash>) returns (block: Block)
      requires SoundOracle(oracle) && Indexed(chain)
      requires !Supplied(previousHash) ==> |chain| > 0
      modifies this
      ensures Valid()
      ensures chain == old(chain) + [block]
      ensures block.index == |old(chain)| + 1
      ensures block.timestamp == timestamp && block.proof == proof
      ensures block.transactions == old(currentTransactions)
      ensures block.previousHash ==
        if Supplied(previousHash) then previousHash.value else Digest(Hash(oracle, old(chain)[|old(chain)| - 1]))
      ensures currentTransactions == []
      ensures block == LastBlock()
      ensures Linked(oracle, chain) <==> Linked(oracle, old(chain)) && block.previousHash == ExpectedPrev(oracle, old(chain))
    {
      var prev := if Supplied(previousHash) then previousHash.value else Digest(Hash(oracle, chain[|chain| - 1]));
      block := Block(|chain| + 1, timestamp, currentTransactions, proof, prev);
      currentTransactions := [];
      IndexedSnoc(chain, block);
      LinkedSnoc(oracle, chain, block);
      chain := chain + [block];
    }

    /** Blockchain.new_transaction: stages one transaction tagged with the index
        of the last sealed block and returns it. */
    method NewTransaction(sender: string, recipient: string, amount: int) returns (t: Transaction)
      requires Valid()
      modifies this
      ensures Valid()
      ensures t == Transaction(sender, recipient, amount, |chain|)
      ensures currentTransactions == old(currentTransactions) + [t]
      ensures chain == old(chain)
    {
      t := Transaction(sender, recipient, amount, LastBlock().index);
      currentTransactions := currentTransactions + [t];
    }

    /** The decision of the /mine handler: check the submitted proof against
        the serialized last block and, when it holds, seal a block linked to
        that block's hash. */
    method Mine(proof: int, timestamp: real) returns (forged: Option<Block>)
      requires Valid()
      modifies this
      ensures Valid()
      ensures forged.Some? <==> ValidProof(oracle, oracle.serialize(old(LastBlock())), proof)
      ensures forged.Some? ==>
        && chain == old(chain) + [forged.value]
        && forged.value == Block(|old(chain)| + 1, timestamp, old(currentTransactions), proof,
                                 Digest(Hash(oracle, old(LastBlock()))))
        && currentTransactions == []
      ensures forged.None? ==> chain == old(chain) && currentTransactions == old(currentTransactions)
      ensures old(Linked(oracle, chain)) ==> Linked(oracle, chain)
    {
      var last := LastBlock();
      var lastString := oracle.serialize(last);
      if ValidProof(oracle, lastString, proof) {
        var previousHash := Hash(oracle, last);
        var block := NewBlock(proof, timestamp, Some(Digest(previousHash)));
        forged := Some(block);
      } else {
        forged := None;
      }
    }
  }

  /** A client of the ledger: one transaction staged on a fresh ledger, then two
      seals with the default predecessor. The staged transaction lands in the
      first sealed block, the second block is empty, and indices step by one. */
  method StageAndSealTwice(o: Oracle, sender: string, recipient: string, amount: int,
                           t0: real, t1: real, t2: real, proof1: int, proof2: int)
    returns (staged: Transaction, first: Block, second: Block)
    requires SoundOracle(o)
    ensures staged == Transaction(sender, recipient, amount, 1)
    ensures first.index == 2 && first.transactions == [staged]
    ensures second.index == 3 && second.transactions == []
    ensures first.previousHash == Digest(Hash(o, Block(1, t0, [], 100, Genesis)))
    ensures second.previousHash == Digest(Hash(o, first))
  {
    var ledger := new Blockchain(o, t0);
    staged := ledger.NewTransaction(sender, recipient, amount);
    first := ledger.NewBlock(proof1, t1, None);
    second := ledger.NewBlock(proof2, t2, None);
  }
}
