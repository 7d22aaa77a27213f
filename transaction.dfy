/** The transaction model of the ledger: inputs that reference earlier outputs,
    outputs that lock a value to a key, the coinbase (minting) transaction,
    and the identifier written into a transaction as a digest of its contents.

    The digest (a binary encoding of the transaction followed by SHA-256) is a
    parameter `hash` of the operations that need it: the model assumes nothing
    of it except that it is a function of the transaction's current contents
    and that its result is 32 bytes long. */
module Blockchain {

  newtype byte = b: int | 0 <= b < 256

  /** The source's `int`, which is 32 or 64 bits wide depending on the
      platform; the 64-bit case is chosen. No operation of this module does
      arithmetic on it, so the width only bounds what a field holds. */
  newtype int64 = x: int | -0x8000_0000_0000_0000 <= x < 0x8000_0000_0000_0000

  /** A SHA-256 digest. */
  type Digest = s: seq<byte> | |s| == 32 witness seq(32, _ => 0 as byte)

  /** The tokens minted by one coinbase transaction. */
  const CoinbaseReward: int64 := 100

  /** `out` of the single input of a coinbase: it references no output. */
  const NoOutput: int64 := -1

  /** The prefix of the unlocking data a coinbase gets when none is given. */
  const DefaultDataPrefix: string := "Coins to "

  /** An output: `value` tokens locked to the key `pubKey`. */
  datatype TxOutput = TxOutput(value: int64, pubKey: string)
  {
    /** The output may be spent by whoever presents `data`. */
    predicate CanBeUnlocked(data: string)
    {
      pubKey == data
    }
  }

  /** An input: it spends output number `out` of the transaction whose
      identifier is `id`, presenting `sig` as its unlocking data. */
  datatype TxInput = TxInput(id: seq<byte>, out: int64, sig: string)
  {
    /** The input was signed with `data`. */
    predicate CanUnlock(data: string)
    {
      sig == data
    }
  }

  /** The contents of a transaction at one moment: what the digest is taken
      over. A nil identifier and an empty one are both the empty sequence. */
  datatype TxRecord = TxRecord(id: seq<byte>, inputs: seq<TxInput>, outputs: seq<TxOutput>)
  {
    /** A coinbase has exactly one input, and that input references no
        transaction and no output. */
    predicate IsCoinBase()
    {
      |inputs| == 1 && |inputs[0].id| == 0 && inputs[0].out == NoOutput
    }
  }

  /** A transaction object. Its fields are written in place: the identifier is
      filled in by SetID once the inputs and outputs are fixed. */
  class Transaction {
    var id: seq<byte>
    var inputs: seq<TxInput>
    var outputs: seq<TxOutput>

    /** The current contents of the object, as a value. */
    function Value(): TxRecord
      reads this
    {
      TxRecord(id, inputs, outputs)
    }

    /** A transaction built from its three fields. */
    constructor (id: seq<byte>, inputs: seq<TxInput>, outputs: seq<TxOutput>)
      ensures this.id == id && this.inputs == inputs && this.outputs == outputs
    {
      this.id := id;
      this.inputs := inputs;
      this.outputs := outputs;
    }

    /** Replaces the identifier with the digest of the transaction as it is
        before the call, identifier included. Nothing but `id` changes. */
    method SetID(hash: TxRecord -> Digest)
      modifies this`id
      ensures id == hash(old(Value()))
      ensures |id| == 32
      ensures inputs == old(inputs) && outputs == old(outputs)
    {
      var digest := hash(Value());
      id := digest;
    }
  }

  /** The unlocking data of a coinbase input: `data` itself, or a note naming
      the recipient when `data` is empty. It is never empty. */
  function CoinbaseSig(to: string, data: string): (sig: string)
    ensures sig != ""
    ensures data != "" ==> sig == data
    ensures data == "" ==> sig == DefaultDataPrefix + to
  {
    if data == "" then DefaultDataPrefix + to else data
  }

  /** The contents of the coinbase transaction paying `to`, before its
      identifier is set: one sentinel input, one output of the reward. */
  function CoinbaseRecord(to: string, data: string): (r: TxRecord)
    ensures r.id == []
    ensures |r.inputs| == 1 && |r.outputs| == 1
    ensures r.inputs[0].id == [] && r.inputs[0].out == -1
    ensures r.inputs[0].sig == CoinbaseSig(to, data)
    ensures r.outputs[0].value == 100 && r.outputs[0].pubKey == to
    ensures r.IsCoinBase()
  {
    TxRecord([], [TxInput([], NoOutput, CoinbaseSig(to, data))], [TxOutput(CoinbaseReward, to)])
  }

  /** Builds the minting transaction paying the reward to `to`, with its
      identifier set to the digest of its contents under a nil identifier. */
  method CoinbaseTx(to: string, data: string, hash: TxRecord -> Digest) returns (tx: Transaction)
    ensures fresh(tx)
    ensures tx.inputs == CoinbaseRecord(to, data).inputs
    ensures tx.outputs == CoinbaseRecord(to, data).outputs
    ensures tx.id == hash(CoinbaseRecord(to, data)) && |tx.id| == 32
    ensures tx.Value().IsCoinBase()
  {
    var sig := data;
    if sig == "" {
      sig := DefaultDataPrefix + to;
    }
    var txin := TxInput([], NoOutput, sig);
    var txout := TxOutput(CoinbaseReward, to);
    tx := new Transaction([], [txin], [txout]);
    tx.SetID(hash);
  }

  /** The recogniser accepts exactly the transactions whose input list is one
      sentinel input, whatever its unlocking data and whatever the outputs;
      in particular it rejects any other input count, any non-empty
      referenced identifier and any `out` other than -1. */
  lemma IsCoinBaseIff(r: TxRecord)
    ensures r.IsCoinBase() <==> exists sig :: r.inputs == [TxInput([], NoOutput, sig)]
    ensures |r.inputs| != 1 ==> !r.IsCoinBase()
    ensures |r.inputs| >= 1 && r.inputs[0].id != [] ==> !r.IsCoinBase()
    ensures |r.inputs| >= 1 && r.inputs[0].out != NoOutput ==> !r.IsCoinBase()
  {
  }

  /** The recogniser and the constructor agree: the input lists the
      constructor builds are exactly the sentinel inputs with non-empty
      unlocking data that the recogniser accepts. */
  lemma RecogniserMatchesConstructor(r: TxRecord)
    ensures (r.IsCoinBase() && r.inputs[0].sig != "")
        <==> exists to, data :: r.inputs == CoinbaseRecord(to, data).inputs
  {
    if r.IsCoinBase() && r.inputs[0].sig != "" {
      var sig := r.inputs[0].sig;
      assert r.inputs == CoinbaseRecord("", sig).inputs;
    }
  }

  /** A recognised coinbase need not come from the constructor: a sentinel
      input with empty unlocking data is accepted, yet never built. */
  lemma RecogniserWiderThanConstructor()
    ensures var r := TxRecord([], [TxInput([], NoOutput, "")], []);
      r.IsCoinBase() && forall to, data :: r.inputs != CoinbaseRecord(to, data).inputs
  {
  }

  /** With authorisation by plain string equality, some key both signs an input and
      unlocks an output exactly when the input's data equals the output's
      lock key. */
  lemma AuthorisationMatches(txin: TxInput, txout: TxOutput)
    ensures (exists key :: txin.CanUnlock(key) && txout.CanBeUnlocked(key)) <==> txin.sig == txout.pubKey
  {
    if txin.sig == txout.pubKey {
      assert txin.CanUnlock(txin.sig) && txout.CanBeUnlocked(txin.sig);
    }
  }

  /** The coinbase output can be spent by the recipient and by nobody else. */
  lemma CoinbaseOwnedByRecipient(to: string, data: string, key: string)
    ensures CoinbaseRecord(to, data).outputs[0].CanBeUnlocked(key) <==> key == to
  {
  }

  /** Two coinbases paying the same recipient with the same unlocking data
      get the same identifier, whatever the digest: in particular every
      coinbase minted with empty data for `to` shares one identifier with the
      one minted with data "Coins to " + `to`. */
  lemma CoinbaseIdentifierDetermined(to: string, data1: string, data2: string, hash: TxRecord -> Digest)
    requires CoinbaseSig(to, data1) == CoinbaseSig(to, data2)
    ensures hash(CoinbaseRecord(to, data1)) == hash(CoinbaseRecord(to, data2))
    ensures hash(CoinbaseRecord(to, "")) == hash(CoinbaseRecord(to, DefaultDataPrefix + to))
  {
  }
}
