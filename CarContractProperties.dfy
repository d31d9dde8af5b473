/**
 What `CarContract.Verify` promises, stated against a rule-by-rule reading
 of the contract that does not follow its control flow: each rule says on
 its own what breaks it and to which transactions it applies, and `Rank`
 fixes the order in which the rules are checked.
 */
module CarContractProperties {
  import opened CarContract

  /** Position of a rule in the order `verify` checks it. */
  function Rank(e: Rejection): nat {
    match e
    case NotSingleCommand => 0
    case InputStatesPresent => 1
    case NotOneOutput => 2
    case OutputNotCarState => 3
    case NotCybertruck => 4
    case ManufacturerNotSigner => 5
  }

  /** The command-count rule applies to every transaction; the others only to a single `Shipment`. */
  predicate Applies(tx: LedgerTransaction, e: Rejection) {
    e == NotSingleCommand || IsSingleShipment(tx)
  }

  /** What it takes to break each rule, read without regard to the other rules. */
  predicate Breaks(tx: LedgerTransaction, e: Rejection) {
    match e
    case NotSingleCommand => |tx.commands| != 1
    case InputStatesPresent => |tx.inputs| > 0
    case NotOneOutput => |tx.outputs| != 1
    case OutputNotCarState =>
      exists i :: 0 <= i < |tx.outputs| && !tx.outputs[i].CarState?
    case NotCybertruck =>
      exists i :: 0 <= i < |tx.outputs| && tx.outputs[i].CarState? && tx.outputs[i].model != "Cybertruck"
    case ManufacturerNotSigner =>
      |tx.commands| > 0 &&
      exists i :: 0 <= i < |tx.outputs| && tx.outputs[i].CarState? &&
                  tx.outputs[i].manufacturerKey !in tx.commands[0].signers
  }

  /** Rule `e` applies to `tx` and `tx` breaks it. */
  predicate Fails(tx: LedgerTransaction, e: Rejection) {
    Applies(tx, e) && Breaks(tx, e)
  }

  /** The rule set of `verify`, one rule per thrown message. */
  const AllRules: seq<Rejection> := [NotSingleCommand, InputStatesPresent, NotOneOutput,
                                     OutputNotCarState, NotCybertruck, ManufacturerNotSigner]

  lemma EveryRuleListed(e: Rejection)
    ensures e in AllRules && AllRules[Rank(e)] == e
  {
  }

  /** No rule of lower rank than `e` fails on `tx`. */
  predicate EarlierRulesHold(tx: LedgerTransaction, e: Rejection) {
    forall i :: 0 <= i < Rank(e) ==> !Fails(tx, AllRules[i])
  }

  /** `EarlierRulesHold` written out rule by rule. */
  lemma EarlierRulesHoldUnfolded(tx: LedgerTransaction, e: Rejection)
    ensures EarlierRulesHold(tx, e) <==>
      (Rank(e) > 0 ==> !Fails(tx, NotSingleCommand)) &&
      (Rank(e) > 1 ==> !Fails(tx, InputStatesPresent)) &&
      (Rank(e) > 2 ==> !Fails(tx, NotOneOutput)) &&
      (Rank(e) > 3 ==> !Fails(tx, OutputNotCarState)) &&
      (Rank(e) > 4 ==> !Fails(tx, NotCybertruck))
  {
    assert AllRules[0] == NotSingleCommand && AllRules[1] == InputStatesPresent &&
           AllRules[2] == NotOneOutput && AllRules[3] == OutputNotCarState &&
           AllRules[4] == NotCybertruck;
  }

  /** With a single output, the content and signer rules are about that output. */
  lemma SingleOutputBreaks(tx: LedgerTransaction)
    requires |tx.outputs| == 1
    ensures Breaks(tx, OutputNotCarState) <==> !tx.outputs[0].CarState?
    ensures Breaks(tx, NotCybertruck) <==> tx.outputs[0].CarState? && tx.outputs[0].model != "Cybertruck"
    ensures Breaks(tx, ManufacturerNotSigner) <==>
      |tx.commands| > 0 && tx.outputs[0].CarState? && tx.outputs[0].manufacturerKey !in tx.commands[0].signers
  {
  }

  /**
   The first failure wins: `verify` rejects with `e` exactly when rule `e`
   fails and every rule checked before it holds.
   */
  lemma FirstFailureWins(tx: LedgerTransaction, e: Rejection)
    ensures Verify(tx) == Rejected(e) <==> Fails(tx, e) && EarlierRulesHold(tx, e)
  {
    EarlierRulesHoldUnfolded(tx, e);
    if |tx.outputs| == 1 {
      SingleOutputBreaks(tx);
    }
  }

  /** `verify` accepts exactly the transactions that fail no rule. */
  lemma AcceptedIffNoRuleFails(tx: LedgerTransaction)
    ensures Verify(tx) == Accepted <==> forall i :: 0 <= i < |AllRules| ==> !Fails(tx, AllRules[i])
  {
    if Verify(tx).Rejected? {
      var e := Verify(tx).reason;
      FirstFailureWins(tx, e);
      EveryRuleListed(e);
    } else {
      forall i | 0 <= i < |AllRules| ensures !Fails(tx, AllRules[i]) {
        FirstFailureWins(tx, AllRules[i]);
      }
    }
  }

  /** Zero commands, or more than one, are rejected whatever the states and signers. */
  lemma CommandCountChecked(tx: LedgerTransaction)
    requires |tx.commands| != 1
    ensures Verify(tx) == Rejected(NotSingleCommand)
    ensures Verify(tx).reason.Message() == "There can be only one command"
  {
  }

  /** A single command of any kind other than `Shipment` is accepted with no further check. */
  lemma OtherCommandAccepted(tx: LedgerTransaction)
    requires |tx.commands| == 1 && tx.commands[0].kind != Shipment
    ensures Verify(tx) == Accepted
  {
  }

  /** Input states are reported before anything about the outputs is looked at. */
  lemma InputsCheckedBeforeOutputs(tx: LedgerTransaction)
    requires IsSingleShipment(tx) && |tx.inputs| > 0
    ensures Verify(tx) == Rejected(InputStatesPresent)
    ensures Verify(tx).reason.Message() == "There cannot be input states"
  {
  }

  /** A shipment without inputs must create exactly one state. */
  lemma OutputCountChecked(tx: LedgerTransaction)
    requires IsSingleShipment(tx) && |tx.inputs| == 0 && |tx.outputs| != 1
    ensures Verify(tx) == Rejected(NotOneOutput)
    ensures Verify(tx).reason.Message() == "Only one vehicle can be shipped at a time"
  {
  }

  /** The one output of a shipment must be a `CarState`. */
  lemma OutputTypeChecked(tx: LedgerTransaction)
    requires IsSingleShipment(tx) && |tx.inputs| == 0 && |tx.outputs| == 1
    requires !tx.outputs[0].CarState?
    ensures Verify(tx) == Rejected(OutputNotCarState)
    ensures Verify(tx).reason.Message() == "Output has to be a type of CarState"
  {
  }

  /** The shipped car's model must be exactly "Cybertruck". */
  lemma ModelChecked(tx: LedgerTransaction)
    requires IsSingleShipment(tx) && |tx.inputs| == 0 && |tx.outputs| == 1
    requires tx.outputs[0].CarState? && tx.outputs[0].model != "Cybertruck"
    ensures Verify(tx) == Rejected(NotCybertruck)
    ensures Verify(tx).reason.Message() == "This is not a CyberTruck"
  {
  }

  /** The model comparison is case-sensitive: a "cybertruck" is not a "Cybertruck". */
  lemma ModelComparisonIsCaseSensitive(maker: PublicKey, signers: seq<PublicKey>)
    ensures Verify(LedgerTransaction([Command(Shipment, signers)], [], [CarState("cybertruck", maker)]))
            == Rejected(NotCybertruck)
  {
  }

  /** The manufacturer's key must be among the signers of the shipment command itself. */
  lemma ManufacturerSignatureChecked(tx: LedgerTransaction)
    requires IsSingleShipment(tx) && |tx.inputs| == 0 && |tx.outputs| == 1
    requires tx.outputs[0].CarState? && tx.outputs[0].model == "Cybertruck"
    requires tx.outputs[0].manufacturerKey !in tx.commands[0].signers
    ensures Verify(tx) == Rejected(ManufacturerNotSigner)
    ensures Verify(tx).reason.Message() == "Manufacturer must sign"
  {
  }

  /** Acceptance of a single `Shipment`, characterised completely. */
  lemma ShipmentAcceptedIff(tx: LedgerTransaction)
    requires IsSingleShipment(tx)
    ensures Verify(tx) == Accepted <==>
      && |tx.inputs| == 0
      && |tx.outputs| == 1
      && tx.outputs[0].CarState?
      && tx.outputs[0].model == "Cybertruck"
      && tx.outputs[0].manufacturerKey in tx.commands[0].signers
  {
  }

  /** More signers on the command never turn an accepted transaction into a rejected one. */
  lemma ExtraSignersKeepAcceptance(tx: LedgerTransaction, extra: seq<PublicKey>)
    requires Verify(tx) == Accepted
    ensures |tx.commands| == 1
    ensures Verify(tx.(commands := [tx.commands[0].(signers := tx.commands[0].signers + extra)])) == Accepted
  {
  }

  /** The signer check reads only whether the manufacturer's key is in the command's signer list. */
  lemma OnlyManufacturerMembershipMatters(tx: LedgerTransaction, signers: seq<PublicKey>)
    requires IsSingleShipment(tx) && |tx.outputs| == 1 && tx.outputs[0].CarState?
    requires (tx.outputs[0].manufacturerKey in signers) == (tx.outputs[0].manufacturerKey in tx.commands[0].signers)
    ensures Verify(tx.(commands := [tx.commands[0].(signers := signers)])) == Verify(tx)
  {
  }

  /** Each rejection carries its own message, so the message tells which check failed. */
  lemma MessagesIdentifyTheCheck(e: Rejection, d: Rejection)
    requires e.Message() == d.Message()
    ensures e == d
  {
  }

  /**
   A car made by the holder of `k`, shipped with `k` among the signers, is
   accepted; without that signature, or with another model, it is rejected.
   */
  lemma ShipmentExamples(k: PublicKey)
    ensures Verify(LedgerTransaction([Command(Shipment, [k])], [], [CarState("Cybertruck", k)])) == Accepted
    ensures Verify(LedgerTransaction([Command(Shipment, [])], [], [CarState("Cybertruck", k)]))
            == Rejected(ManufacturerNotSigner)
    ensures Verify(LedgerTransaction([Command(Shipment, [k])], [], [CarState("Model3", k)]))
            == Rejected(NotCybertruck)
  {
  }
}
