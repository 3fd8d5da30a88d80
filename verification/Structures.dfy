/** The values the node stores and exchanges: transactions, blocks and the
    independent outputs kept in the cache of unspent outputs
    (node/structures/transaction.go, block.go, transaction_input.go,
    transaction_output.go).  Byte slices are sequences; an empty sequence is
    the source's empty (or nil) slice.  Amounts are reals. */
module Structures {
  newtype byte = x: int | 0 <= x < 256
  type Bytes = seq<byte>
  type Hash = Bytes

  datatype Option<+T> = None | Some(value: T)

  /** How an operation ends; Crashed stands for an index out of range in the source. */
  datatype Verdict = Accepted | Rejected | Crashed

  /** Reward of a coinbase transaction and the smallest amount (lib/constants.go). */
  const PAYMENT_FOR_BLOCK_MADE: real := 10.0
  const SMALLEST_UNIT: real := 0.00000001

  datatype TXInput = TXInput(txid: Bytes, vout: int, signature: Bytes, pubKey: Bytes)

  datatype TXOutput = TXOutput(value: real, pubKeyHash: Bytes)

  datatype Transaction = Transaction(id: Bytes, vin: seq<TXInput>, vout: seq<TXOutput>, time: int) {
    predicate IsCoinbase() {
      |vin| == 1 && |vin[0].txid| == 0 && vin[0].vout == -1
    }

    /** The inputs that refer to outputs of other transactions: none for a coinbase. */
    function Spends(): seq<TXInput> {
      if IsCoinbase() then [] else vin
    }
  }

  datatype Block = Block(timestamp: int, transactions: seq<Transaction>, prevBlockHash: Hash,
                         hash: Hash, nonce: int, height: int)

  /** TXOutputIndependent: an output together with the place it comes from. */
  datatype Output = Output(value: real, destPubKeyHash: Bytes, sendPubKeyHash: Bytes,
                           txid: Bytes, oIndex: int, isBase: bool, blockHash: Hash)

  /** LoadFromSimple: the independent form of output number `ind` of a transaction. */
  function LoadFromSimple(sout: TXOutput, txid: Bytes, ind: int, sender: Bytes,
                          isCoinbase: bool, blockHash: Hash): Output
  {
    Output(sout.value, sout.pubKeyHash, sender, txid, ind, isCoinbase, blockHash)
  }

  /** Hashing of public keys is a parameter of the model. */
  type KeyHash = Bytes -> Bytes

  /** The cryptographic functions, as parameters: the hash of a public key; whether the
      signature of input `i` of a transaction verifies against the key hash of the output
      it spends; and the number that the proof of work compares with its target, from
      previous hash, transactions, timestamp and nonce. */
  datatype Crypto = Crypto(keyHash: KeyHash, sigOk: (Transaction, int, Bytes) -> bool,
                           powHash: (Hash, seq<Transaction>, int, int) -> nat)

  function Reverse<T>(s: seq<T>): (r: seq<T>)
    ensures |r| == |s|
    ensures forall i | 0 <= i < |s| :: r[i] == s[|s| - 1 - i]
  {
    seq(|s|, i requires 0 <= i < |s| => s[|s| - 1 - i])
  }

  /** ReverseBlocksSlice and ReverseBlocksShortSlice: the same in-place loop over
      full blocks and over short copies. */
  method ReverseInPlace<T>(ss: array<T>)
    modifies ss
    ensures ss[..] == Reverse(old(ss[..]))
  {
    var last := ss.Length - 1;
    if last < 1 {
      return;
    }
    for i := 0 to ss.Length / 2
      invariant forall k | 0 <= k < i :: ss[k] == old(ss[last - k]) && ss[last - k] == old(ss[k])
      invariant forall k | i <= k <= last - i :: ss[k] == old(ss[k])
    {
      ss[i], ss[last - i] := ss[last - i], ss[i];
    }
  }

  /** The slices of the source are sequences in the model; reversing one copies it
      to an array and reverses that in place. */
  method ReverseSlice<T>(blocks: seq<T>) returns (r: seq<T>)
    ensures r == Reverse(blocks)
  {
    var ss := new T[|blocks|](i requires 0 <= i < |blocks| => blocks[i]);
    assert ss[..] == blocks;
    ReverseInPlace(ss);
    r := ss[..];
  }
}
