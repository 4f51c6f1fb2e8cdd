# Blockchain ledger, modelled in Dafny

This project models the ledger at the heart of `basic_transactions_gp/blockchain.py`.
The ledger is the `Blockchain` class with two pieces of state. `chain` is an append-only
list of sealed blocks. `current_transactions` is the buffer of staged transactions.
The model also covers the proof check that the `/mine` handler runs before it seals a block.

- `decimal.dfy` (module `Decimal`): Python's `str()` of an integer, which forms the proof
  string, together with a parser that reads it back and a round-trip proof.
- `ledger.dfy` (module `Ledger`):
  - the `Block`, `Transaction` and `PrevHash` values;
  - block hashing and the six-zero proof-of-work rule;
  - the chain predicates `Indexed` (index = position + 1) and `Linked` (each block holds
    its predecessor's hash) and the lemmas about them;
  - the class `Blockchain` with its constructor, `NewBlock`, `NewTransaction`, `LastBlock`
    and `Mine`.

SHA-256 and the sorted-key JSON encoding are the two function fields of an `Oracle`.
`sha256` maps a string to its hex digest, and `serialize` maps a block to its JSON text.
Dafny functions are deterministic, so `hash` is deterministic too.
`SoundOracle` states the one thing the model assumes about the digest: it is always 64
lowercase hexadecimal characters. `Hash(o, b)` is `sha256(serialize(b))`. This matches
`hash` (lines 65-69), and it hashes the same text that `/mine` builds (line 145).

The genesis block's `previous_hash=1` is the `Genesis` variant of `PrevHash`. Every other
predecessor is `Digest(s)`. `new_block`'s optional argument is an `Option<PrevHash>`.
Python's `previous_hash or self.hash(...)` falls back to the computed hash when the
argument is falsy. For the values this type can hold, that means `None` and the empty
string `Digest("")`, and the `Supplied` function reproduces that fallback.

## Notes on the source

- The docstring of `valid_proof` says "3 leading zeroes", but the code compares the first
  six characters with `"000000"`. The model follows the code. In the model the count is
  `Difficulty`, which is 6. Both the rule and its proof are written in terms of
  `Difficulty`, so changing the constant changes the rule.
- The comment on `new_transaction` (line 106) says it returns the index of the block that
  will hold the transaction. The code (lines 107-111) returns the whole record instead.
  The record is tagged with the index of the last sealed block, which is one less than the
  index of the block that will hold it. `StageAndSealTwice` shows a record tagged 1 landing
  in block 2.
- The comments in `mine()` (lines 125-130) ask for a reward transaction, with sender "0"
  and amount 1, to be created on a successful mine. The code never creates it, so `Mine`
  stages nothing.
- The `/transactions/new` handler checks the request fields but never calls
  `new_transaction`. Only the ledger method is modelled.
- A sealed block's `transactions` is the very list object `current_transactions` was
  bound to. That object is never mutated again, because the attribute is rebound to a
  fresh `[]`. In the model, values (`seq`) capture this directly.

## Model

| member | source | states |
|---|---|---|
| Decimal.NatToString | basic_transactions_gp/blockchain.py:96 | decimal digits of a natural: non-empty, digits only, no leading zero except for 0 itself |
| Decimal.IntToString | basic_transactions_gp/blockchain.py:96 | `str(proof)`: a leading '-' exactly for negative values, digits everywhere else, and no leading zero unless the string is "0" |
| Decimal.NatRoundTrip | basic_transactions_gp/blockchain.py:96 | reading the digits back gives the natural number again |
| Decimal.IntRoundTrip | basic_transactions_gp/blockchain.py:96 | reading `str(n)` back gives n again, for negative n too |
| Decimal.IntToStringInjective | basic_transactions_gp/blockchain.py:96 | distinct proofs render as distinct strings |
| Ledger.Hash | basic_transactions_gp/blockchain.py:46-77 | the block hash is a 64-character lowercase hex digest of the block's serialization |
| Ledger.Prefix | basic_transactions_gp/blockchain.py:98 | Python slicing `s[:n]`: the first min(n, len s) characters, a prefix of s |
| Ledger.Guess | basic_transactions_gp/blockchain.py:96 | the proof string `f'{block_string}{proof}'` starts with the block string, and the rest is a decimal integer that reads back as the proof, with '-' exactly for a negative proof and no leading zero unless it is "0", i.e. exactly `str(proof)` |
| Ledger.ValidProof | basic_transactions_gp/blockchain.py:85-98 | accepted exactly when the digest of block string + `str(proof)` is at least `Difficulty` (6) long and its first `Difficulty` characters are all '0' |
| Ledger.GuessInjective | basic_transactions_gp/blockchain.py:96 | for a fixed block string, the proof string determines the proof |
| Ledger.IndexedSnoc | basic_transactions_gp/blockchain.py:32-42 | appending keeps index = position + 1 exactly when the new block's index is the old length + 1 |
| Ledger.LinkedSnoc | basic_transactions_gp/blockchain.py:36-42 | appending keeps the chain linked exactly when the new block's predecessor is the hash of the old last block (the sentinel on an empty chain) |
| Ledger.TamperEvidence | basic_transactions_gp/blockchain.py:36-42 | two indexed, linked chains that end in the same block have the same length and are equal, unless at some position k they hold different blocks with the same hash |
| Ledger.Supplied | basic_transactions_gp/blockchain.py:36 | Python truthiness of `previous_hash`: `None` is falsy, the genesis sentinel 1 is truthy, and a digest string is truthy exactly when it is non-empty |
| Ledger.Blockchain.constructor | basic_transactions_gp/blockchain.py:14-21 | the chain is exactly the genesis block (index 1, proof 100, sentinel predecessor, no transactions), pending is empty, the chain is linked |
| Ledger.Blockchain.LastBlock | basic_transactions_gp/blockchain.py:79-81 | the last block is in the chain, its index is the chain length, and every other block has a smaller index |
| Ledger.Blockchain.NewBlock | basic_transactions_gp/blockchain.py:23-43 | the chain grows by exactly the returned block, which becomes the last block and has index old length + 1. It holds the old pending transactions verbatim and the supplied predecessor, or the hash of the old last block when none was supplied. Pending becomes empty. The chain stays linked exactly when the predecessor is the expected one |
| Ledger.Blockchain.NewTransaction | basic_transactions_gp/blockchain.py:100-111 | appends exactly the returned record (sender, recipient, amount, last block's index) to pending. The chain is unchanged |
| Ledger.Blockchain.Mine | basic_transactions_gp/blockchain.py:141-162 | a block is forged exactly when the proof is valid for the serialized last block. The forged block holds the old pending transactions and the hash of the old last block, and pending empties. An invalid proof changes nothing. A linked chain stays linked |
| Ledger.StageAndSealTwice | basic_transactions_gp/blockchain.py:14-111 | on a fresh ledger, a staged transaction (tagged 1) lands in block 2. A second seal with nothing staged gives an empty block 3 that is linked to block 2 |

## Left out

- SHA-256 and `json.dumps(sort_keys=True)` internals: they are the function fields of `Oracle`. Their exact bytes, and the key-order independence of the encoding, are not modelled.
- `time()`: the timestamp is a `real` parameter of the constructor, `NewBlock` and `Mine`.
- The Flask routes, `request.get_json()`, `jsonify`, status codes and `app.run`: transport plumbing. `Mine` returns `None` where the handler answers "Proof invalid". The handler's "Missing Values" check on `proof` and `id` is not modelled.
- The `/transactions/new` handler: it never stages a transaction and only echoes the last index.
- `node_identifier` / `uuid4`: randomness, unused by the ledger.
- `self.nodes`: declared and never used.
- Concurrency around the global `blockchain` instance: the model is sequential.
- The proof search: it is commented out in the source.
- Amounts and proofs are modelled as `int`. The source accepts any JSON value and applies no validation, and the model adds none.
- Ledger.Blockchain.NewBlock: an argument that Python treats as falsy is reproduced only for `None` and the empty string. `PrevHash` has no other falsy values.
