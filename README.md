# Car-shipment contract, modelled in Dafny

This project models the contract of the Tesla car-shipment CorDapp: the
rule set `CarContract.verify` applies to a proposed ledger transaction
before the Corda ledger accepts it. `verify` either returns (the transaction
is valid) or throws an `IllegalArgumentException` with one of six fixed
messages. The checks run in a fixed order:

1. the transaction carries exactly one command;
2. if that command is a `Shipment`: no input states, exactly one output
   state, the output is a `CarState`, its model is exactly `"Cybertruck"`,
   and the manufacturer's owning key is among the signers of the command;
3. a single command of any other kind is accepted without further checks.

Files:

- `CarContract.dfy` (module `CarContract`): the transaction as a datatype
  holding only what `verify` reads (commands with their kind and signer
  list, input states, output states; a `CarState` output carries its model
  and its manufacturer's owning key), one `Rejection` per thrown message
  with that message, and `Verify` itself as a pure function returning
  `Accepted` or `Rejected(reason)`. `SignerListContains` is the
  `List.contains` call on the command's signer list.
- `CarContractProperties.dfy` (module `CarContractProperties`): an
  independent, rule-by-rule reading of the contract (`Applies`, `Breaks`,
  `Fails`, with `Rank` giving the order of the checks) and the lemmas that
  tie `Verify` to it: the first failing rule decides the rejection, a
  transaction is accepted exactly when no rule fails, and one lemma per rule.

`verify` is a pure function of its argument here: the model cannot change the
transaction, which matches the source, where nothing is written.

Details of the code the model keeps as written:

- The code reports an input count and an output count violation with two
  different messages (lines 37 and 40), not with one shape error.
- The signers checked are the signer list of the single command (line 28),
  not a separate set of required signers of the transaction.
- A single command of a kind other than `Shipment` is accepted (lines 30
  and 68-69), even though only `Shipment` has rules; the model keeps this
  permissive behaviour and states it in `OtherCommandAccepted`.

## Model

| member | source | states |
|---|---|---|
| `CarContract.Verify` | contracts/src/main/java/com/template/contracts/CarContract.java:23-69 | a rejection other than the command-count one is only ever reported for a transaction with a single `Shipment` command; an accepted transaction has exactly one command |
| `CarContract.SignerListContains` | contracts/src/main/java/com/template/contracts/CarContract.java:62 | the scan of the signer list finds the key exactly when the key is in the list |
| `CarContractProperties.FirstFailureWins` | contracts/src/main/java/com/template/contracts/CarContract.java:23-69 | `verify` rejects with a given reason exactly when that rule applies and is broken and every rule checked before it holds: the first failing check wins |
| `CarContractProperties.AcceptedIffNoRuleFails` | contracts/src/main/java/com/template/contracts/CarContract.java:23-69 | `verify` accepts exactly the transactions on which no rule fails |
| `CarContractProperties.CommandCountChecked` | contracts/src/main/java/com/template/contracts/CarContract.java:24 | a transaction with zero or several commands is rejected with "There can be only one command", whatever its states and signers |
| `CarContractProperties.OtherCommandAccepted` | contracts/src/main/java/com/template/contracts/CarContract.java:26-30 | a single command that is not a `Shipment` is accepted, whatever the inputs, outputs and signers |
| `CarContractProperties.InputsCheckedBeforeOutputs` | contracts/src/main/java/com/template/contracts/CarContract.java:36-41 | a shipment with input states is rejected with "There cannot be input states" even when its outputs are wrong too |
| `CarContractProperties.OutputCountChecked` | contracts/src/main/java/com/template/contracts/CarContract.java:39-41 | a shipment with no inputs and an output count other than one is rejected with "Only one vehicle can be shipped at a time" |
| `CarContractProperties.OutputTypeChecked` | contracts/src/main/java/com/template/contracts/CarContract.java:46-50 | a shipment whose one output is not a `CarState` is rejected with "Output has to be a type of CarState" |
| `CarContractProperties.ModelChecked` | contracts/src/main/java/com/template/contracts/CarContract.java:52-55 | a shipped car whose model is not exactly "Cybertruck" is rejected with "This is not a CyberTruck" |
| `CarContractProperties.ModelComparisonIsCaseSensitive` | contracts/src/main/java/com/template/contracts/CarContract.java:53 | a car whose model is "cybertruck" is rejected as not a Cybertruck |
| `CarContractProperties.ManufacturerSignatureChecked` | contracts/src/main/java/com/template/contracts/CarContract.java:60-64 | a well-formed Cybertruck shipment whose command's signers lack the manufacturer's owning key is rejected with "Manufacturer must sign" |
| `CarContractProperties.ShipmentAcceptedIff` | contracts/src/main/java/com/template/contracts/CarContract.java:30-64 | a single `Shipment` is accepted if and only if it has no inputs, exactly one output, that output is a `CarState` of model "Cybertruck", and the manufacturer's key is among the command's signers |
| `CarContractProperties.ExtraSignersKeepAcceptance` | contracts/src/main/java/com/template/contracts/CarContract.java:60-64 | adding signers to the command of an accepted transaction keeps it accepted |
| `CarContractProperties.OnlyManufacturerMembershipMatters` | contracts/src/main/java/com/template/contracts/CarContract.java:28-64 | replacing the command's signer list by one that agrees on whether it holds the manufacturer's key does not change the outcome |
| `CarContractProperties.MessagesIdentifyTheCheck` | contracts/src/main/java/com/template/contracts/CarContract.java:24-63 | the six messages are pairwise different, so the message names the failed check |
| `CarContractProperties.ShipmentExamples` | contracts/src/main/java/com/template/contracts/CarContract.java:30-64 | a Cybertruck signed by its manufacturer is accepted; unsigned it is rejected for the missing signature; as a "Model3" it is rejected as not a Cybertruck |

## Left out

- The Corda types `LedgerTransaction`, `Command`, `ContractState` and `Party`: replaced by datatypes holding only what `verify` reads.
- Signature checking and key cryptography: `verify` only tests whether a key is in a list, so keys are values compared by their encoding.
- `CarState` and `TemplateState`: their classes are not part of this model; a `CarState` is its model and its manufacturer's owning key. A null model or manufacturer (a `NullPointerException` in Java) is not modelled.
- The commented-out Hello-World `verify` and the `Commands`/`Send` interface (lines 73-100): dead code, never compiled.
- The `CAR_CONTRACT_ID` constant and the unused `requireSingleCommand`/`requireThat` imports: identifiers with no behaviour.
- Building, signing, notarising and concurrently verifying transactions: done by the host ledger, not by this contract.
