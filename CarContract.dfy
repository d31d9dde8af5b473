/**
 The contract of the car-shipment CorDapp: the rule set a ledger transaction
 must satisfy before the host ledger accepts it.

 The Corda platform types the contract reads (`LedgerTransaction`, `Command`,
 `ContractState`, `Party`) are replaced by datatypes that hold only what
 `verify` looks at. `verify` either returns normally or throws an
 `IllegalArgumentException` with a fixed message; here it returns an
 `Outcome`, `Accepted` or `Rejected` with the check that failed.
 */
module CarContract {

  /** A public key, compared by its encoding as `PublicKey.equals` does. */
  datatype PublicKey = PublicKey(encoded: seq<bv8>)

  /** The intent a command carries: the `Shipment` marker class, or any other `CommandData`. */
  datatype CommandKind = Shipment | OtherCommand(className: string)

  /** A command of the transaction: its data and the keys that must sign it. */
  datatype Command = Command(kind: CommandKind, signers: seq<PublicKey>)

  /**
   A ledger state. A `CarState` exposes the two things the contract reads:
   its model and the owning key of its manufacturer. Every other state
   class is `OtherState`.
   */
  datatype ContractState =
    | CarState(model: string, manufacturerKey: PublicKey)
    | OtherState(className: string)

  /** The parts of a ledger transaction the contract reads. */
  datatype LedgerTransaction = LedgerTransaction(
    commands: seq<Command>,
    inputs: seq<ContractState>,
    outputs: seq<ContractState>)

  /** One rejection per message `verify` can throw, in the order the checks run. */
  datatype Rejection =
    | NotSingleCommand
    | InputStatesPresent
    | NotOneOutput
    | OutputNotCarState
    | NotCybertruck
    | ManufacturerNotSigner
  {
    /** The message of the `IllegalArgumentException` that reports this rejection. */
    function Message(): string {
      match this
      case NotSingleCommand => "There can be only one command"
      case InputStatesPresent => "There cannot be input states"
      case NotOneOutput => "Only one vehicle can be shipped at a time"
      case OutputNotCarState => "Output has to be a type of CarState"
      case NotCybertruck => "This is not a CyberTruck"
      case ManufacturerNotSigner => "Manufacturer must sign"
    }
  }

  /** Returning normally, or throwing with the message of `reason`. */
  datatype Outcome = Accepted | Rejected(reason: Rejection)

  /** The only car model a shipment may carry. */
  const CybertruckModel: string := "Cybertruck"

  /** The transaction carries exactly one command and it is a `Shipment`. */
  predicate IsSingleShipment(tx: LedgerTransaction) {
    |tx.commands| == 1 && tx.commands[0].kind == Shipment
  }

  /**
   `List.contains` on the command's signer list: a scan from the front
   comparing each key with `equals`.
   */
  function SignerListContains(signers: seq<PublicKey>, key: PublicKey): (found: bool)
    ensures found <==> key in signers
    decreases |signers|
  {
    if signers == [] then false
    else signers[0] == key || SignerListContains(signers[1..], key)
  }

  /**
   `CarContract.verify`. The checks run in order and the first one that
   fails decides the rejection; a single command of any kind other than
   `Shipment` is accepted without further checks.
   */
  function Verify(tx: LedgerTransaction): (r: Outcome)
    ensures r.Rejected? && r.reason != NotSingleCommand ==> IsSingleShipment(tx)
    ensures r == Accepted ==> |tx.commands| == 1
  {
    if |tx.commands| != 1 then Rejected(NotSingleCommand)
    else
      var command := tx.commands[0];
      var requiredSigners := command.signers;
      if command.kind != Shipment then Accepted
      else if |tx.inputs| != 0 then Rejected(InputStatesPresent)
      else if |tx.outputs| != 1 then Rejected(NotOneOutput)
      else
        var outputState := tx.outputs[0];
        if !outputState.CarState? then Rejected(OutputNotCarState)
        else if outputState.model != CybertruckModel then Rejected(NotCybertruck)
        else if !SignerListContains(requiredSigners, outputState.manufacturerKey) then Rejected(ManufacturerNotSigner)
        else Accepted
  }
}
