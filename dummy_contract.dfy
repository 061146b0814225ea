/**
 * `DummyContract`: a test contract that accepts every transaction, its single- and multi-owner
 * states, its `Create` / `Move` commands and the two transaction builders `generateInitial` and
 * `move`.
 *
 * Keys, parties and hashes are opaque values and the transaction builder is a plain record of
 * notary, inputs, outputs and commands.
 */
module Contracts {
  import opened Outcomes

  /** Kotlin's `Int`. */
  newtype int32 = x: int | -0x8000_0000 <= x < 0x8000_0000

  /** An opaque public key, known only by its encoding. */
  datatype PublicKey = PublicKey(encoded: seq<bv8>)

  /** `SecureHash.sha256(s)`, kept symbolic: the hash of a string, identified by that string. */
  datatype SecureHash = Sha256Of(preimage: string)

  datatype Party = Party(name: string, owningKey: PublicKey)

  /** A party together with an opaque reference into its own systems. */
  datatype PartyAndReference = PartyAndReference(party: Party, reference: seq<bv8>)

  /** The contract, identified by the hash of its legal prose. */
  datatype DummyContract = DummyContract(legalContractReference: SecureHash := Sha256Of(""))

  /** `DUMMY_PROGRAM_ID`: the contract every dummy state names. */
  const DummyProgramId: DummyContract := DummyContract()

  /** A state with a single owner, who is its only participant. */
  datatype SingleOwnerState = SingleOwnerState(magicNumber: int32 := 0, owner: PublicKey)
  {
    function Contract(): DummyContract { DummyProgramId }

    function Participants(): (ps: seq<PublicKey>)
      ensures |ps| == 1 && ps[0] == owner
    {
      [owner]
    }

    /**
     * `withNewOwner`: a `Move` command and a copy of this state owned by `newOwner`; the magic
     * number is kept and this state itself is a value, so nothing is mutated.
     */
    function WithNewOwner(newOwner: PublicKey): (r: (Commands, SingleOwnerState))
      ensures r.0 == Move
      ensures r.1.owner == newOwner && r.1.Participants() == [newOwner]
      ensures r.1.magicNumber == magicNumber
      ensures r.1.Contract() == Contract()
    {
      (Move, this.(owner := newOwner))
    }
  }

  /** A state whose participants are its owners, in order. */
  datatype MultiOwnerState = MultiOwnerState(magicNumber: int32 := 0, owners: seq<PublicKey>)
  {
    function Contract(): DummyContract { DummyProgramId }

    function Participants(): (ps: seq<PublicKey>)
      ensures ps == owners
    {
      owners
    }
  }

  /** A `DummyContract.State`: either kind of dummy state. */
  datatype ContractState = SingleOwner(single: SingleOwnerState) | MultiOwner(multi: MultiOwnerState)
  {
    function MagicNumber(): int32
    {
      match this
      case SingleOwner(s) => s.magicNumber
      case MultiOwner(m) => m.magicNumber
    }

    function Contract(): DummyContract
    {
      match this
      case SingleOwner(s) => s.Contract()
      case MultiOwner(m) => m.Contract()
    }

    function Participants(): seq<PublicKey>
    {
      match this
      case SingleOwner(s) => s.Participants()
      case MultiOwner(m) => m.Participants()
    }
  }

  /** `DummyContract.Commands`: type-only command data. */
  datatype Commands = Create | Move

  /** A command together with the keys that must sign for it. */
  datatype Command = Command(value: Commands, signers: seq<PublicKey>)

  datatype StateRef = StateRef(txhash: SecureHash, index: nat)

  /** A state as recorded on the ledger, with the notary that guards it. */
  datatype TransactionState<+T> = TransactionState(data: T, notary: Party)

  datatype StateAndRef<+T> = StateAndRef(state: TransactionState<T>, ref: StateRef)

  /**
   * The transaction under construction: an input is recorded by its `StateRef`, an output state
   * is recorded under the builder's notary.
   */
  datatype TransactionBuilder = TransactionBuilder(
    notary: Party,
    inputs: seq<StateRef>,
    outputs: seq<TransactionState<ContractState>>,
    commands: seq<Command>)

  /** The view of a transaction a contract verifies. */
  datatype TransactionForContract = TransactionForContract(
    inputs: seq<ContractState>,
    outputs: seq<ContractState>,
    commands: seq<Command>)

  datatype Verdict = Accepted | Rejected(reason: string)

  /** `DummyContract.verify`: every transaction is accepted. */
  function Verify(contract: DummyContract, tx: TransactionForContract): (v: Verdict)
    ensures v == Accepted
  {
    Accepted
  }

  /** The owning keys of some parties, in order. */
  function OwningKeys(owners: seq<PartyAndReference>): (keys: seq<PublicKey>)
    ensures |keys| == |owners|
    ensures forall i :: 0 <= i < |owners| ==> keys[i] == owners[i].party.owningKey
  {
    seq(|owners|, i requires 0 <= i < |owners| => owners[i].party.owningKey)
  }

  /**
   * `generateInitial`: a transaction with no inputs, one output under `notary` and one `Create`
   * command. With no other owners the output is a single-owner state signed for by that owner;
   * otherwise it is a multi-owner state over all owners, in order, signed for by all of them.
   */
  function GenerateInitial(magicNumber: int32, notary: Party, owner: PartyAndReference,
                           otherOwners: seq<PartyAndReference>): (tx: TransactionBuilder)
    ensures tx.notary == notary && tx.inputs == []
    ensures |tx.outputs| == 1 && tx.outputs[0].notary == notary
    ensures tx.outputs[0].data.MagicNumber() == magicNumber
    ensures tx.outputs[0].data.Contract() == DummyProgramId
    ensures tx.commands == [Command(Create, OwningKeys([owner] + otherOwners))]
    ensures otherOwners == [] ==>
              tx.outputs[0].data == SingleOwner(SingleOwnerState(magicNumber, owner.party.owningKey))
    ensures otherOwners != [] ==>
              tx.outputs[0].data == MultiOwner(MultiOwnerState(magicNumber, OwningKeys([owner] + otherOwners)))
  {
    var owners := [owner] + otherOwners;
    if |owners| == 1 then
      assert OwningKeys(owners) == [owners[0].party.owningKey];
      var state := SingleOwnerState(magicNumber, owners[0].party.owningKey);
      TransactionBuilder(notary, [], [TransactionState(SingleOwner(state), notary)],
                         [Command(Create, [owners[0].party.owningKey])])
    else
      var state := MultiOwnerState(magicNumber, OwningKeys(owners));
      TransactionBuilder(notary, [], [TransactionState(MultiOwner(state), notary)],
                         [Command(Create, OwningKeys(owners))])
  }

  /** The created state's participants are exactly the keys that must sign its `Create` command. */
  lemma GenerateInitialSignersAreParticipants(magicNumber: int32, notary: Party, owner: PartyAndReference,
                                              otherOwners: seq<PartyAndReference>)
    ensures var tx := GenerateInitial(magicNumber, notary, owner, otherOwners);
      tx.commands[0].signers == tx.outputs[0].data.Participants()
  {
    if otherOwners == [] {
      assert OwningKeys([owner] + otherOwners) == [owner.party.owningKey];
    }
  }

  /** Why `move` fails: `require(priors.isNotEmpty())`. */
  datatype MoveError = IllegalArgument

  /** The refs of some prior states, in order. */
  function Refs<T>(priors: seq<StateAndRef<T>>): (refs: seq<StateRef>)
    ensures |refs| == |priors|
    ensures forall i :: 0 <= i < |priors| ==> refs[i] == priors[i].ref
  {
    seq(|priors|, i requires 0 <= i < |priors| => priors[i].ref)
  }

  /**
   * `move(priors, newOwner)`: consumes every prior, in order, and produces the first prior's
   * state re-owned by `newOwner`, under the first prior's notary, with a `Move` command that the
   * first prior's owner signs. An empty list is rejected.
   */
  function MoveAll(priors: seq<StateAndRef<SingleOwnerState>>, newOwner: PublicKey): (r: Result<TransactionBuilder, MoveError>)
    ensures r.Err? <==> priors == []
    ensures r.Err? ==> r.error == IllegalArgument
    ensures r.Ok? ==>
      var prior := priors[0].state;
      && r.value.notary == prior.notary
      && r.value.inputs == Refs(priors)
      && r.value.commands == [Command(Move, prior.data.Participants())]
      && |r.value.outputs| == 1
      && r.value.outputs[0].notary == prior.notary
      && r.value.outputs[0].data == SingleOwner(SingleOwnerState(prior.data.magicNumber, newOwner))
  {
    if |priors| == 0 then Err(IllegalArgument)
    else
      var priorState := priors[0].state.data;
      var (cmd, state) := priorState.WithNewOwner(newOwner);
      Ok(TransactionBuilder(priors[0].state.notary, Refs(priors),
                            [TransactionState(SingleOwner(state), priors[0].state.notary)],
                            [Command(cmd, [priorState.owner])]))
  }

  /** `move(prior, newOwner)`: the same as moving the one-element list; it always succeeds. */
  function MoveOne(prior: StateAndRef<SingleOwnerState>, newOwner: PublicKey): (r: Result<TransactionBuilder, MoveError>)
    ensures r == MoveAll([prior], newOwner)
    ensures r.Ok? && r.value.inputs == [prior.ref]
  {
    MoveAll([prior], newOwner)
  }

  /**
   * Moving a state hands it over: the output's only participant is the new owner, the only
   * signer is the old owner, and the magic number and contract survive.
   */
  lemma MoveTransfersOwnership(priors: seq<StateAndRef<SingleOwnerState>>, newOwner: PublicKey)
    requires priors != []
    ensures var tx := MoveAll(priors, newOwner).value;
      && tx.outputs[0].data.Participants() == [newOwner]
      && tx.commands[0].signers == priors[0].state.data.Participants()
      && tx.outputs[0].data.MagicNumber() == priors[0].state.data.magicNumber
      && tx.outputs[0].data.Contract() == priors[0].state.data.Contract()
  {
  }

  /** Re-owning is idempotent and re-owning to the current owner changes nothing. */
  lemma WithNewOwnerLaws(s: SingleOwnerState, k: PublicKey, k': PublicKey)
    ensures s.WithNewOwner(s.owner).1 == s
    ensures s.WithNewOwner(k).1.WithNewOwner(k').1 == s.WithNewOwner(k').1
  {
  }

  /** Both kinds of state default their magic number to 0 and name `DUMMY_PROGRAM_ID`, whose reference is `sha256("")`. */
  lemma Defaults(k: PublicKey, ks: seq<PublicKey>)
    ensures SingleOwnerState(owner := k).magicNumber == 0
    ensures MultiOwnerState(owners := ks).magicNumber == 0
    ensures SingleOwnerState(owner := k).Contract() == MultiOwnerState(owners := ks).Contract() == DummyProgramId
    ensures DummyProgramId.legalContractReference == Sha256Of("")
  {
  }
}
