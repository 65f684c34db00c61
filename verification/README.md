# Verified model of Concert

A Dafny model of the parts of Concert whose correctness spans several functions or a whole run, with proofs.
Concert is a reverse proxy that queues visitors, bans abusive clients and lets a visitor buy a short pass that
skips the queue. `dafny verify dfyconfig.toml` checks everything.

## What is modelled

**Paying for the fast lane.** A visitor signs an authorization. The fast lane reserves it in a receipt ledger,
asks the gateway in the same process to settle it, and the gateway journals it as pending, hands it to its chain
once and journals the outcome.

- `DurableLog` is a file of one record per line, as bytes: what an append can leave behind (all, part or none of
  a line, synced or not) and what reading it back gives, the reader's line limit included.
- `GatewayJournal` and `ReceiptLedger` are the two files: how each is opened, validated, written and suspended,
  with the objects that do it.
- `Gateway` is the settlement protocol as a state machine: any number of settle calls, one lock per network, any
  append cut short, journals closed under calls that go on, reopening, and operator recovery. A crash is a close
  after which some calls take no further step. `GatewaySafety` states what every run guarantees.
- `FastLane` adds the visitors: one request per session at a time, replies that may be late or never read,
  passes that end, restarts. Every state of both machines is reached by a list of steps; a step that is not
  possible changes nothing, so a result for every list is a result for every run.
- `FastLaneProgress` is about runs that go well: what ends with a pass.
- `LogLines` writes the two logs' records as JSON lines that read back; `LongLines` shows what the line limit, which
  no writer checks, can do. Elsewhere a log's encoding is any that reads back.
- `GatewayServer` and `PaymentService` are the operations as the program runs them, from beginning to end; each
  is proved to be a run of the machine.

**Wire formats.** `XrplCodec` and `XrplPayment` read and write XRP Ledger transactions ("Field IDs", "Length
Prefixing" and "Canonical Field Order" of its "Serialization Format"), and `XrplAcceptance` says in a grammar of its
own which bytes are accepted; `Solana` reads and writes one transfer with compact lengths, and `SolanaLayout` says at
which positions what stands; `Base58` works for any alphabet of 58 symbols; `JsonText` decodes JSON, `JsonSyntax` and
`JsonGrammar` are the grammar of JSON texts (sections 2 to 7 of RFC 8259) that it is compared with, `CanonicalJson`
canonicalizes it and `JsonCompact` says what that text looks like. `XrplClient` is the payer's side of an XRP payment.
`Numerals`, `Hex` and `SortedSets` serve them.

**The priority lane.** `RankedLane` is the semaphore: its critical sections are single steps of any number of
threads, and a grant may race with a timeout.

**The ban registry.** `Addresses` has keys, prefixes and the blocks an administrator may ban; `BanTable` the
sharded table and every operation on it; `BanStrikes` what each operation does to its client and what an automatic
ban takes; `BanRestore` who is banned, what a snapshot holds and what restoring it gives; `BanSaving` the saving
protocol, in which bans change while a snapshot is copied shard by shard; `BanRegistry` the registry updated in place.

**History.** `Tallies` counts blocked requests of one ban in tables of bounded size; `History` records requests,
aggregates floods and replays the log; `HistoryRuns` is what the counters show over a run and `HistoryItems` what a
replay restores of each ban's lists; `HistoryReplay` reads rotated log files back under an age limit;
`HistoryObjects` counts in place and keeps each client's newest requests in a ring.

**HBAR transfers.** `Hedera` has the amount checks of a transfer list.

Where the program loops over a map, the model takes the elements in any order, so results hold for every order.

## Where the code falls short of its promise

- `Canonical` refuses trailing text with `Decoder.More`, which does not see text after a closing bracket or brace:
  `CanonicalJson.TrailingText` gives the exact condition and `TrailingTextAccepted` an accepted text. No caller in
  the repository passes such text: `Fingerprint` and `CanonicalValue` hand it single values.
- The cooldown doubles in int64. `BanTable.KthBanExact` gives the exact condition for the documented length; for a
  longest cooldown up to 2^62 ns only a base of 2^62 ns fails it (`BanTable.SafeUpTo62`), and then the second ban ends
  before it begins (`BanTable.SecondBanWraps`).
- The ledger's validation alone would let a settled receipt go back to unknown
  (`FastLane.ValidationAloneRegresses`); the service never asks it to (`FastLane.SettledStays`).
- Startup refuses a file with a line longer than the reader's buffer, 128 KiB for receipts and 1 MiB for settlement
  records, and no writer checks for that. Reopening refuses exactly torn files and those
  (`ReceiptLedger.ReopenRebuilds`, `GatewayJournal.ReopenRebuilds`, `FastLane.RestartReads`,
  `GatewaySafety.RestartReads`). The policy service's approval ID goes into the receipt as it came, up to 1 MiB:
  `LongLines.LongPolicyRefused` is a run in which a visitor pays, every write succeeds and the next start refuses the
  ledger. An acknowledged receipt leaves a ledger that can be reopened if and only if its line is within the limit
  (`ReceiptLedger.AcknowledgedReopens`), and a writer that checked each line first would leave only torn files to
  refuse (`ReceiptLedger.CheckedReopens`).

## Model

| member | source | states |
|---|---|---|
| `GatewaySafety.SubmittedAtMostOnce` | internal/gateway/server.go:172-225 | Over every interleaving of settle calls, failed and half-written appends, closed journals whose calls go on, reopenings and reconcile, a chain is handed each authorization at most once. |
| `GatewaySafety.JournaledBeforeSubmitted` | internal/gateway/server.go:202-208 | Whenever a step hands an authorization to a chain, the file already holds its record and the authorization was never handed over before. |
| `GatewaySafety.AnswersAreDurable` | internal/gateway/server.go:187-224 | A caller told of success has been told what the file holds: a settled record for its authorization, under its terms, with that very response, the authorization's network and the recorded payer. |
| `GatewaySafety.SettledWasConfirmed` | internal/gateway/server.go:208-225 | Over every run: a settled record on file was confirmed. Some step was the chain's own successful answer to the call that handed the authorization over, naming the recorded network, payer and transaction, or an operator's recovery with the recorded transaction. |
| `GatewaySafety.OutcomeRecorded` | internal/gateway/server.go:208-225 | Conversely, whatever happens in between: once the chain has answered a call, a synced final write records a matching success as settled and tells the caller exactly that answer; no answer, a failure or a success that names another network, another payer or no transaction is recorded unknown and answered as no success. |
| `GatewaySafety.RecoveryRecorded` | internal/gateway/reconcile.go:34-85 | An operator who finds an unsettled payment's transaction settles its record with that transaction, the recorded payer and network, and submits nothing. |
| `GatewaySafety.RecordedIsTold` | internal/gateway/server.go:187-195 | What a call is told of an authorization the journal knows: nothing under other terms, the recorded response of a settled one, and no success for the recorded payer while it is unresolved. |
| `GatewaySafety.SettledStays` | internal/gateway/journal.go:115-140 | No step changes or removes a settled record on file. |
| `GatewaySafety.SettledForever` | internal/gateway/journal.go:115-140 | The same over every continuation of a run. |
| `GatewaySafety.OneAtATime` | internal/gateway/server.go:157-188 | Calls of one gateway on one network hold its lock one at a time, and every lock that is taken has a holder that will pass it on. |
| `GatewaySafety.RetryIsAnswered` | internal/gateway/server.go:187-195 | Asking again for a settled authorization under the same terms gives the recorded response and submits nothing. |
| `GatewaySafety.RestartReads` | internal/gateway/journal.go:68-93 | For the bytes any run left: startup refuses them exactly when the last line is incomplete or some line is longer than the reader's 1 MiB, and otherwise reads back the records of the journal that wrote them, if no write failed. |
| `Gateway.InvAlways` | internal/gateway/server.go:172-225 | The invariant behind these results holds in every reachable state: instances agree with the file, locks with calls, calls with records, and submissions with both. |
| `Gateway.ReserveKeeps` | internal/gateway/server.go:202-207 | Writing the pending record, whatever becomes of the append, keeps the invariant. |
| `Gateway.SubmitKeeps` | internal/gateway/server.go:208-215 | Handing over to the chain keeps the invariant. |
| `Gateway.FinishKeeps` | internal/gateway/server.go:216-225 | Writing the outcome and passing the lock on keeps the invariant. |
| `Gateway.ReconcileKeeps` | internal/gateway/reconcile.go:34-85 | Operator recovery, run while no gateway holds the file, keeps the invariant and submits nothing. |
| `Gateway.LookKeeps` | internal/gateway/server.go:187-195 | What a call finds when its turn comes: another's terms, a recorded settlement, an unresolved record, or nothing; each answer keeps the invariant. |
| `Gateway.OpenKeeps` | internal/gateway/journal.go:41-94 | Opening the file anew keeps the invariant. |
| `Gateway.CloseKeeps` | internal/gateway/journal.go:142-157 | Closing a journal whose calls are still under way keeps the invariant. |
| `GatewayJournal.ReopenRebuilds` | internal/gateway/journal.go:68-93 | After any writes, byte by byte: reopening refuses exactly a torn file or one with a line over the limit; otherwise it rebuilds the acknowledged records, or those and the one record whose write failed last. |
| `GatewayJournal.AcknowledgedReopens` | internal/gateway/journal.go:115-140 | After an acknowledged write to a journal that could be reopened, it still can exactly when the new line is within the reader's limit, and then holds the record. |
| `GatewayJournal.BadStops` | internal/gateway/journal.go:118-120 | After a failed write nothing more reaches the file. |
| `GatewayJournal.AdmittedPrefix` | internal/gateway/journal.go:87-89 | A file that takes a settled record back is refused however it goes on. |
| `GatewayJournal.AdmittedExactly` | internal/gateway/journal.go:87-90 | A file is admitted exactly when no line takes back a settled line of the same ID before it. |
| `GatewayJournal.LatestIs` | internal/gateway/journal.go:90 | The record of an ID is the last line that has it. |
| `GatewayJournal.JournalFile.Open` | internal/gateway/journal.go:41-94 | Opening succeeds exactly when the bytes are complete lines that all decode, fit the reader and never take back a settled record; the latest line of an ID wins. |
| `GatewayJournal.JournalFile.Write` | internal/gateway/journal.go:115-140 | The new memory, the new file bytes and the acknowledgement for every outcome of the append; a settled record or a suspended journal refuses. |
| `GatewayJournal.JournalFile.Close` | internal/gateway/journal.go:142-157 | Later writes are refused. |
| `DurableLog.ReopenReads` | internal/gateway/journal.go:68-83 | Reading a file line by line gives back exactly the records written, and refuses exactly an incomplete last line or a line over the reader's limit. |
| `DurableLog.ReopenHolds` | internal/fastlane/store.go:75-104 | The same for a file known only to be complete lines and at most one fragment. |
| `DurableLog.AppendHolds` | internal/gateway/journal.go:126-137 | Whatever part of an append reaches the disk, the file is again complete lines and at most one fragment. |
| `DurableLog.FirstBreak` | internal/gateway/journal.go:74-76 | Where the next line ends. |
| `GatewayServer.Server.Settle` | internal/gateway/server.go:172-225 | The sequential operation, branch by branch, leaves the journal, file, submissions and answer that SettleAlone gives, and its contract says outright what they are: a known authorization is answered from the journal and left alone, one without a verified payer is not journaled, and after durable writes the record is settled with the chain's answer exactly when that is a matching success, unknown otherwise. |
| `GatewayServer.SettleAloneRuns` | internal/gateway/server.go:172-225 | That result is one run of the concurrent model's steps. |
| `GatewayServer.Server.Verify` | internal/gateway/server.go:133-155 | Over the journal: a settled authorization or one under other terms is never verified, a pending or unknown one gives the recorded payer whatever preflight says, and an unrecorded one gives preflight's answer. |
| `GatewayServer.Server.Reconcile` | internal/gateway/reconcile.go:34-85 | Recovery writes what the concurrent model's step writes: an unknown ID changes nothing, a settled one gives its recorded response, and an open one becomes settled with the transaction the chain confirms, if it confirms one and the write is durable. |
| `GatewayServer.Mechanism.Submit` | internal/gateway/server.go:208 | A submission is allowed only with the authorization's record on file. |
| `ReceiptLedger.ReplayedConsistent` | internal/fastlane/store.go:106-131 | The four indexes of any admitted file agree: sessions with fingerprints, latest receipts with receipts, transactions with the receipt that carries them. |
| `ReceiptLedger.RedeemedOnce` | internal/fastlane/store.go:113-121 | Two sessions never hold the same fingerprint, nor the same transaction on the same network. |
| `ReceiptLedger.AcceptsExactly` | internal/fastlane/store.go:106-122 | Validation takes a receipt exactly when it names a session and a network and agrees with every line before it: the same fingerprint has the same session, and the same transaction the same fingerprint. |
| `ReceiptLedger.AdmittedExactly` | internal/fastlane/store.go:75-122 | A file is admitted exactly when every line names a session and a network and every two of its lines agree so. |
| `ReceiptLedger.ReopenRebuilds` | internal/fastlane/store.go:75-104 | After any writes, byte by byte: reopening refuses exactly a torn file or one with a line over 128 KiB; otherwise it rebuilds the indexes of the acknowledged receipts, or those with the one in-flight receipt added. |
| `ReceiptLedger.CheckedReopens` | internal/fastlane/store.go:75-104 | A writer that checked each line against the limit first would leave a file that reopening refuses exactly when it is torn. |
| `ReceiptLedger.AcknowledgedReopens` | internal/fastlane/store.go:138-165 | After an acknowledged write to a ledger that could be reopened, it still can exactly when the new line is within the reader's limit. |
| `LogLines.ReceiptLinesLawful` | internal/fastlane/store.go:18-32 | Receipts written as JSON objects are lines that read back, and a line is longer than the policy ID in it. |
| `LogLines.RecordLinesLawful` | internal/gateway/journal.go:19-28 | Settlement records written as JSON objects are lines that read back. |
| `LongLines.LongReceiptShuts` | internal/fastlane/store.go:138-165 | A receipt with a policy ID of 128 KiB or more is synced and acknowledged, and then the ledger cannot be reopened. |
| `LongLines.LongPolicyRefused` | internal/fastlane/service.go:350-366 | From an empty start: the policy service approves with such an ID, the visitor pays once and is admitted, no write fails, and the next process refuses the ledger. |
| `ReceiptLedger.BadStops` | internal/fastlane/store.go:141-143 | After a failed write nothing more reaches the ledger file. |
| `ReceiptLedger.ApplyConsistent` | internal/fastlane/store.go:124-131 | Applying a validated receipt keeps the indexes consistent. |
| `ReceiptLedger.OpenLedger` | internal/fastlane/store.go:44-104 | Opening succeeds exactly when the bytes are complete lines that decode, fit the reader and validate in turn, and then holds their indexes. |
| `ReceiptLedger.LedgerFile.Validate` | internal/fastlane/store.go:106-122 | Exactly the receipts that are complete and redeem neither another session's authorization nor another's transaction pass. |
| `ReceiptLedger.LedgerFile.ApplyReceipt` | internal/fastlane/store.go:124-131 | The new value of all four indexes. |
| `ReceiptLedger.LedgerFile.Write` | internal/fastlane/store.go:138-165 | The new indexes, the new file bytes and the acknowledgement for every outcome of the append, with the capacity check. |
| `ReceiptLedger.LedgerFile.Close` | internal/fastlane/store.go:170-185 | Later writes are refused. |
| `FastLane.SettledReceiptsBacked` | internal/fastlane/service.go:680-697 | In every reachable state each settled receipt, on file or in memory, has a settled gateway record on file for the same authorization, network, payer and transaction. |
| `FastLane.SettledWasConfirmed` | internal/fastlane/service.go:680-697 | Over every run: each settled receipt's transaction, on the receipt's network and from its payer, was confirmed by a chain's answer or an operator's recovery at some step of the run. |
| `FastLane.EligiblePaidApart` | internal/fastlane/service.go:254-269 | Any two sessions admitted at once through payment hold different authorizations and different (network, transaction) pairs, each settled on the gateway's file, even when several raced with one authorization. |
| `FastLane.OnlyLatestOpen` | internal/fastlane/service.go:573-697 | All receipts of a session but its latest are settled and past their end. |
| `FastLane.SettledStays` | internal/fastlane/service.go:626-643 | No step overwrites a settled receipt. |
| `FastLane.SettledForever` | internal/fastlane/service.go:626-643 | The same over every continuation of a run. |
| `FastLane.ValidationAloneRegresses` | internal/fastlane/store.go:106-122 | The ledger's own validation would accept an unknown receipt after a settled one; only the service's control flow prevents it. |
| `FastLane.NoCallWhilePaid` | internal/fastlane/service.go:574-578 | The service calls settle for a session only while none of its passes is running. |
| `FastLane.SubmittedAtMostOnce` | internal/fastlane/service.go:674-686 | However requests interleave, time out or die, each authorization is submitted at most once and only with its record on file. |
| `FastLane.RestartReads` | internal/fastlane/store.go:75-104 | For the bytes any run left: startup refuses them exactly when the last line is incomplete or some receipt's line is longer than 128 KiB, and otherwise rebuilds a healthy ledger's indexes; the protocol's own start does the same. |
| `FastLane.JudgeClear` | internal/fastlane/service.go:626-646 | A new authorization goes on only for a session that owes nothing; otherwise only the identical open payment is retried. |
| `FastLaneProgress.RetryPays` | internal/fastlane/service.go:666-697 | From any state the protocol can reach: a visitor whose payment was left open and who sends the same authorization again, once the gateway has it settled for that payer under the same terms, ends with the receipt settled under the recorded transaction, a pass of full length and nothing submitted, unless another authorization has redeemed that transaction. |
| `FastLaneProgress.FirstPaymentPays` | internal/fastlane/service.go:646-697 | A visitor who owes nothing and whose new authorization is verified, approved and confirmed by its chain ends with one submission, a settled receipt with the chain's transaction, on file, and the pass. |
| `FastLaneProgress.NewIsSettled` | internal/gateway/server.go:187-225 | The gateway's part: a new authorization that the chain settles is handed over once and answered with the chain's response. |
| `PaymentService.Service.Look` | internal/fastlane/service.go:574-578 | What the receipts say of an authorization: a running pass or an earlier payment is shown its receipt, an authorization of another session or an open payment with another authorization is a conflict, exactly then, the identical open payment is to be retried, and anything else is a first payment. |
| `FastLane.InvAlways` | internal/fastlane/service.go:445-453 | The joint invariant of service, ledger and gateway holds in every reachable state; the session guard keeps a session to one request. |
| `FastLane.ReserveKeeps` | internal/fastlane/service.go:646-665 | Reserving a receipt keeps the joint invariant for every outcome of the append and every other session. |
| `FastLane.ConcludeKeeps` | internal/fastlane/service.go:681-697 | Writing a settled or unknown receipt keeps the joint invariant. |
| `FastLane.CallKeeps` | internal/fastlane/service.go:274-310 | Starting a settlement that may outlast the request keeps the joint invariant. |
| `PaymentService.Service.Prepare` | internal/fastlane/service.go:573-673 | The branches up to the reservation with the exact new ledger, and each reply exactly when it is due: a conflict for exactly the conflicting authorizations, the receipt for a running pass or an authorization paid before, the open receipt for an approved retry, and the new reservation for a verified and approved first payment. |
| `PaymentService.Service.Collect` | internal/fastlane/service.go:674-697 | The branches after the gateway's reply or the timeout: the exact receipt written, the pass's end, the reply, and a due retry paid with the recorded transaction. |
| `PaymentService.Service.Payment` | internal/fastlane/service.go:445-453 | A whole request under the session guard is a run of the concurrent model from the state before it to the state after it; it answers a conflict exactly when there is one, a running pass with its receipt, and a retry that is due with the settled receipt. |
| `PaymentService.PreparedRuns` | internal/fastlane/service.go:573-673 | Preparing is one run of the concurrent model's steps. |
| `PaymentService.ConcludedRuns` | internal/fastlane/service.go:674-697 | Settling and concluding is one run of the concurrent model's steps. |
| `XrplCodec.LengthReadsBack` | internal/chain/xrpl/codec.go:100-144 | Exactly the lengths up to 929984 survive being written and read. |
| `XrplCodec.LengthIsCanonical` | internal/chain/xrpl/codec.go:100-131 | Every accepted length prefix is the written form of its value, so no other form is accepted. |
| `XrplCodec.HeaderReadsBack` | internal/chain/xrpl/codec.go:146-190 | Every field header with type and number 1 to 255 survives being written and read. |
| `XrplCodec.HeaderIsCanonical` | internal/chain/xrpl/codec.go:146-174 | Every accepted field header is the written form of its ID. |
| `XrplCodec.ValueIsCanonical` | internal/chain/xrpl/codec.go:195-277 | The bytes a value was read from are its length, value and end marker written out. |
| `XrplCodec.FieldsPartitionBlob` | internal/chain/xrpl/codec.go:284-350 | The raw fields of an accepted blob partition it in strictly increasing order, each the re-encoding of its header and value. |
| `XrplCodec.OneEncodingPerTransaction` | internal/chain/xrpl/codec.go:284-350 | Two accepted blobs with the same fields and values are the same bytes. |
| `XrplCodec.DecodeReportsAll` | internal/chain/xrpl/codec.go:310-349 | The decoded transaction reports every field of the blob with its value and nothing else. |
| `XrplCodec.Decode` | internal/chain/xrpl/codec.go:284-350 | The loop over fields accepts and returns exactly what the specification does. |
| `XrplAcceptance.DecodesExactly` | internal/chain/xrpl/codec.go:284-350 | Over bytes, against a grammar of fields that does not mention the reader: exactly the non-empty sequences of well-formed fields in canonical order are accepted whose known native amounts are not negative and whose known accounts have 20 bytes. |
| `XrplAcceptance.AmountsAreTheirBytes` | internal/chain/xrpl/codec.go:327-335 | For each known amount of an accepted blob: it is reported native exactly when it has eight bytes, its drops written out again are those bytes, or both are zero, and a first byte of 0x80 or more means 48 bytes and an issued amount. |
| `XrplAcceptance.NegativeRefused` | internal/chain/xrpl/codec.go:330-332 | A blob with a known eight-byte amount that is not zero and has the sign bit clear is refused. |
| `XrplAcceptance.WellReads` | internal/chain/xrpl/codec.go:195-277 | Every well-formed value, path sets and nested objects and arrays included, is read in full. |
| `XrplAcceptance.ReadsWell` | internal/chain/xrpl/codec.go:195-277 | Whatever is read is a well-formed value of the grammar. |
| `XrplAcceptance.FormatExamples` | internal/chain/xrpl/codec.go:100-190 | Length prefixes at the edges of their three forms, field headers of each form and a million drops, byte for byte. |
| `XrplCodec.ReadInnerAt` | internal/chain/xrpl/codec.go:254-277 | Reading a nested container by advancing an index stays in bounds, terminates and matches the specification. |
| `XrplCodec.ReadValueAt` | internal/chain/xrpl/codec.go:195-277 | Reading a value by position matches the specification, nesting limit included. |
| `XrplCodec.ReadPathsAt` | internal/chain/xrpl/codec.go:232-253 | Reading a path set by position matches the specification. |
| `XrplCodec.NextFieldAt` | internal/chain/xrpl/codec.go:297-310 | Reading the next field by position matches the specification, order check included. |
| `XrplPayment.PiecesParse` | internal/chain/xrpl/codec.go:460-475 | Parsing a serialized field list gives the listed fields back. |
| `XrplPayment.BuiltDecodes` | internal/chain/xrpl/codec.go:460-475 | Decoding what a builder of well-formed leaf fields serializes returns every field that was set. |
| `XrplPayment.DropsReadBack` | internal/chain/xrpl/codec.go:440-443 | An amount of drops reads back as itself exactly below 2^61. |
| `XrplPayment.SignedBlobSignsItself` | internal/chain/xrpl/codec.go:368-378 | Adding a signature to a builder and taking the blob's signing data gives the STX prefix and the bytes serialized before the signature was added. |
| `XrplPayment.SignedPaymentCarries` | internal/chain/xrpl/client.go:20-76 | Decoding a signed payment gives every term the payer set. |
| `XrplPayment.SignPayment` | internal/chain/xrpl/client.go:50-75 | Building and signing: the blob decodes to its terms, with a signature over exactly its signing data. |
| `XrplClient.NewPaymentBlob` | internal/chain/xrpl/client.go:20-76 | A blob is made exactly for exact native XRP by sequence number, a valid address, amount, invoice and tag, and a server on the named network that answers; it decodes to those terms, signed over its own signing data. |
| `XrplClient.PayingMeans` | internal/chain/xrpl/client.go:20-76 | The terms it signs are those asked for: the amount written in decimal, the recipient's account, the named network, the invoice's hash and the tag where they are given, the server's fee and sequence number. |
| `XrplClient.LastLedgerWaits` | internal/chain/xrpl/scheme.go:236-239 | The last ledger is two more than the fewest whose closing takes the timeout. |
| `XrplClient.NetworkReadsBack` | internal/chain/xrpl/rpc.go:255-264 | Each network number below 2^32 has exactly one accepted name. |
| `XrplPayment.Builder.Bytes` | internal/chain/xrpl/codec.go:460-475 | Serializing the field map in canonical order. |
| `Solana.LenReadsBack` | internal/chain/solana/tx.go:61-88 | Exactly the lengths below 2^21 survive being written and read. |
| `Solana.LenBytes` | internal/chain/solana/tx.go:78-88 | A length is one to three groups of seven bits, the low group first, every group but the last marked. |
| `Solana.ParseAssembled` | internal/chain/solana/tx.go:104-206 | Every transaction of the expected shape is parsed back into its parts. |
| `Solana.ParsedIsAssembled` | internal/chain/solana/tx.go:104-206 | What the parser accepts is at least as long as its re-encoding, and equal to it exactly when as long. |
| `Solana.OnlyPaddingRefused` | internal/chain/solana/tx.go:201-204 | Among acceptable transactions the final comparison refuses exactly those with redundant length bytes. |
| `Solana.InspectAcceptsEncodings` | internal/chain/solana/tx.go:104-206 | The inspector accepts exactly the encodings of acceptable transfers, and reports their parts. |
| `SolanaLayout.AcceptedBytes` | internal/chain/solana/tx.go:104-206 | Byte by byte and without naming the parser: inspection accepts exactly the bytes of one System Program transfer from the first of 3 to 16 distinct keys to another writable one, with one-byte lengths, whose recipient's text is the payee's and sender's is not, whose lamports the amount writes in decimal, and whose signature the verifier accepts over everything after it; it reports what stands at those positions. |
| `Solana.NewTransferAccepted` | internal/chain/solana/tx.go:242-255 | A new transfer with distinct keys, signed, is accepted under matching terms with the same sender, recipient, lamports and blockhash. |
| `SolanaLayout.NewTransferBytes` | internal/chain/solana/tx.go:242-255 | A signed new transfer, byte for byte. |
| `Solana.SigningReplacesSignature` | internal/chain/solana/tx.go:250-255 | Signing replaces the empty signature and leaves the message. |
| `Solana.ReadLenAt` | internal/chain/solana/tx.go:61-76 | The three-group loop matches the specification. |
| `Solana.WriteLenTo` | internal/chain/solana/tx.go:78-88 | The loop appends the compact length. |
| `Solana.ReadKeyList` | internal/chain/solana/tx.go:132-144 | The loop over account keys matches the specification and refuses repeated keys. |
| `Solana.FindPosition` | internal/chain/solana/tx.go:219-230 | The position of a key in the list. |
| `Solana.Encode` | internal/chain/solana/tx.go:208-240 | The buffer written step by step is the encoding. |
| `Solana.ParseTransaction` | internal/chain/solana/tx.go:110-179 | Reading by position matches the specification. |
| `Solana.ParseInstruction` | internal/chain/solana/tx.go:148-179 | Reading the one instruction by position matches the specification. |
| `Solana.InspectTransfer` | internal/chain/solana/tx.go:104-206 | The imperative inspector returns what the specification does. |
| `Base58.DecodeEncode` | internal/chain/base58/base58.go:37-76 | Decoding an encoding gives the bytes back exactly when there are any, leading zeros included. |
| `Base58.EncodeDecode` | internal/chain/base58/base58.go:37-76 | Encoding a decoding gives the text back, for every non-empty text over the alphabet. |
| `Base58.EncodeInjective` | internal/chain/base58/base58.go:37-56 | Different byte strings have different texts. |
| `Base58.RecodeInverse` | internal/chain/base58/base58.go:37-76 | Changing base and back is the identity on every digit string. |
| `Base58.SameNumber` | internal/chain/base58/base58.go:37-56 | The text and the bytes are the same number, after as many zero digits as there are zero bytes and no more. |
| `Base58.Example` | internal/chain/base58/base58.go:37-76 | Two zero bytes and 256, both ways, over any alphabet. |
| `Base58.Alphabet.Encode` | internal/chain/base58/base58.go:37-56 | The division loop, the leading zeros and the reversal in place produce the specified text. |
| `Base58.Alphabet.Decode` | internal/chain/base58/base58.go:58-76 | The multiplication loop accepts exactly texts over the alphabet and produces the specified bytes. |
| `Base58.Reverse` | internal/chain/base58/base58.go:52-54 | Reversing an array in place. |
| `CanonicalJson.CanonInjective` | internal/x402/x402.go:86-136 | Two values have the same canonical text exactly when they are the same value up to key order. |
| `CanonicalJson.CanonicalStable` | internal/x402/x402.go:60-76 | Canonical text is its own canonical text. |
| `CanonicalJson.SameTextSameValue` | internal/x402/x402.go:60-76 | Two JSON texts, however written, have the same canonical text exactly when they mean the same value. |
| `CanonicalJson.LayoutIgnored` | internal/x402/x402.go:58-76 | Every way of writing a value has the value's canonical text: white space, key order, any spelling of strings and keys, repeated keys. |
| `CanonicalJson.AcceptedTexts` | internal/x402/x402.go:58-76 | What is accepted, and as what: a text of the grammar with white space before it and after it nothing that Decoder.More sees, as the canonical text of what it means. |
| `JsonCompact.CanonicalTextIs` | internal/x402/x402.go:86-136 | The canonical text of a value is its one compact text: no white space, keys strictly in order of their first difference, and each character the shortest way. |
| `JsonCompact.CompactIsCanonical` | internal/x402/x402.go:86-136 | Whoever writes a value compactly writes its canonical text. |
| `CanonicalJson.TrailingText` | internal/x402/x402.go:67-69 | Text after the value is refused exactly when its first character past white space is neither a closing bracket nor a closing brace. |
| `CanonicalJson.TrailingTextAccepted` | internal/x402/x402.go:67-69 | A text with more after its value that is accepted all the same. |
| `JsonText.ScanRendered` | internal/x402/x402.go:61-66 | Decoding any rendering of a value gives the value back, at any nesting the decoder allows. |
| `JsonText.ScannedWellFormed` | internal/x402/x402.go:61-66 | Every decoded value nests within the limit and has well-written numbers. |
| `JsonText.StringReadsBack` | internal/x402/x402.go:131-136 | Every string survives being written and read. |
| `JsonSyntax.SpellingIsRead` | internal/x402/x402.go:61-66 | Any spelling of a string is read as that string: each character as itself, by a two-character escape, the slash's included, by four hexadecimal digits of either case, or from 0x10000 up by a surrogate pair; a lone surrogate is the replacement character. |
| `JsonSyntax.ReadIsSpelling` | internal/x402/x402.go:61-66 | Whatever the string reader accepts is a spelling of what it gives. |
| `JsonSyntax.EscapeSpells` | internal/x402/x402.go:131-136 | What the writer writes for a character is a spelling of it, the character itself unless it must be escaped or separates lines, and a letter escape where there is one. |
| `JsonSyntax.NumberGrammar` | internal/x402/x402.go:61-66 | Exactly the number literals of the grammar are numbers. |
| `JsonGrammar.TextReads` | internal/x402/x402.go:61-66 | Every text of the grammar, whatever its white space, spellings, key order and repeated keys, is decoded as what it means. |
| `JsonGrammar.ReadIsText` | internal/x402/x402.go:61-66 | Whatever is decoded is a text of the grammar, decoded as what it means. |
| `JsonText.NumberReadsBack` | internal/x402/x402.go:119-120 | Every number literal survives verbatim. |
| `CanonicalJson.WriteCanonical` | internal/x402/x402.go:86-129 | The recursive writer appends exactly the canonical text. |
| `CanonicalJson.WriteObject` | internal/x402/x402.go:88-105 | The loop over sorted keys appends the object's canonical text. |
| `CanonicalJson.WriteArray` | internal/x402/x402.go:106-116 | The loop over elements appends the array's canonical text. |
| `CanonicalJson.Buffer.WriteString` | internal/x402/x402.go:131-136 | The string is appended quoted and escaped. |
| `CanonicalJson.CanonicalText` | internal/x402/x402.go:60-76 | Decoding, the check for more text and writing together. |
| `RankedLane.InvAlways` | priority.go:469-528 | In every state a new lane can reach by acquire, wake-up, timeout and release: used equals the slots granted and not given back and never exceeds the capacity, it equals the capacity whenever anyone waits, each waiting ticket has one thread, and no one served had a better ticket waiting. |
| `RankedLane.RaceSettled` | priority.go:493-504 | A timeout that races with a grant keeps the slot when the grant came first and leaves the queue when it did not. |
| `RankedLane.NewcomerWaitsItsTurn` | priority.go:470-482 | No newcomer takes a slot while anyone waits. |
| `RankedLane.ArrivalGets` | priority.go:469-486 | What an arrival gets: a slot at once if one is free, nothing if it will not wait, and otherwise the last place of its rank. |
| `RankedLane.ReleaseGives` | priority.go:508-528 | What a release gives: the slot to the waiter of the highest rank, the first to come among those, whose thread is told, or back to the lane if no one waits. |
| `RankedLane.ServedInTurn` | priority.go:508-523 | A waiter that no higher rank joins is served, unless it gives up, after at most as many releases as there are waiters ahead of it. |
| `RankedLane.StepShortensQueue` | priority.go:508-523 | Each release shortens the queue ahead of every waiter it passes over, and nothing but a higher rank lengthens it. |
| `RankedLane.RunAccountsForTicket` | priority.go:469-528 | A ticket is always waiting, served or given up: none is lost. |
| `RankedLane.StaysOut` | priority.go:493-504 | A ticket that has left the queue never comes back. |
| `RankedLane.RankedSem.Enter` | priority.go:469-486 | The first critical section of acquire: the new lane, and which of the three answers is given when. |
| `RankedLane.RankedSem.GiveUp` | priority.go:493-505 | The second critical section of acquire, by search and removal. |
| `RankedLane.RankedSem.Release` | priority.go:508-528 | The scan grants the waiter of highest rank and earliest arrival, or frees a slot. |
| `RankedLane.KeepsSlotsCounted` | priority.go:469-528 | Every step keeps the slot count. |
| `RankedLane.KeepsTicketsMatch` | priority.go:469-528 | Every step keeps tickets and threads matched. |
| `RankedLane.KeepsNoneOvertaken` | priority.go:508-523 | Every step serves no one ahead of a better ticket. |
| `Addresses.KeyCovers` | abuse.go:14-31 | A client key's prefix covers exactly the addresses tracked under that key. |
| `Addresses.KeyOfKey` | abuse.go:14-24 | A key is its own key. |
| `Addresses.KeyReadsBack` | abuse.go:33-38 | A key's printed prefix is parsed back as a single client with that key. |
| `Addresses.TargetKeepsBlock` | ranges.go:66-73 | Normalising a block, mapped IPv4 included, changes no membership. |
| `Addresses.TargetStable` | ranges.go:66-88 | Normalising twice is normalising once. |
| `BanTable.SparedBanStays` | abuse.go:274-332 | Before it ends, only an unban or an administrator's new ban of that very client shortens, lengthens or removes a ban; no strike, ban-path hit, eviction, sweep or order about anyone else does. |
| `BanTable.BanOutlivesRun` | abuse.go:274-332 | The same over every run of operations before the ban's end, administrators' orders about other clients and any ranges included. |
| `BanTable.RangeOutlivesRun` | ranges.go:241-257 | The same for a range ban, over every run of operations on anything else. |
| `BanTable.SparedRangeStays` | ranges.go:241-257 | Before it ends, only an unban or a new ban of that very block touches a range ban. |
| `BanTable.RunValid` | abuse.go:158-198 | Over every run each key sits in its own shard, the count is the number of entries, and the range count the number of ranges. |
| `BanTable.ApplyValid` | abuse.go:175-198 | Every operation keeps that bookkeeping. |
| `BanTable.NeverPastLimit` | abuse.go:179-193 | The count grows only by an insertion, by one, and not past the limit in force. |
| `BanTable.KthBanExact` | abuse.go:200-213 | The k-th ban of a client lasts min(base * 2^(k-1), max) for every k exactly when the first doubling to reach max fits in int64. |
| `BanTable.SafeUpTo62` | abuse.go:200-213 | For every max up to 2^62 ns that is exactly a base below 2^62 ns. |
| `BanTable.DoublingOverflows` | abuse.go:200-213 | Otherwise some ban has another length. |
| `BanTable.SecondBanWraps` | abuse.go:200-213 | With base and max both 2^62 ns the second ban's length is -2^63 ns. |
| `BanTable.UnbanForgets` | abuse.go:379-400 | Lifting a ban forgets that client and no other. |
| `BanStrikes.AutomaticBanEarned` | abuse.go:274-332 | Over every run from a table without old strikes: a client gets a new automatic ban only by visiting a ban path, or when the weights struck inside one window, none of them while it was banned, reach the threshold. |
| `BanStrikes.BelowThreshold` | abuse.go:286-294 | A strike that leaves the client below the threshold adds to the count and bans no one: its end and offences stay, and the window starts anew only when it was over. |
| `BanStrikes.AtThreshold` | abuse.go:286-297 | A strike that reaches the threshold bans the client for the next cooldown in line. |
| `BanStrikes.BannedIsLeftAlone` | abuse.go:283-285 | A client already banned is left as it is by strikes and ban paths. |
| `BanStrikes.BanPathBans` | abuse.go:317-332 | A ban path bans a client that is not banned, for the next cooldown in line. |
| `BanStrikes.OrderedBan` | abuse.go:357-377 | An administrator's ban ends when it was told to, or never, and is an offence unless a ban was running. |
| `BanStrikes.OrderedRangeBan` | ranges.go:163-188 | The same for a block, as long as there is room for another. |
| `BanStrikes.SweepForgets` | abuse.go:451-474 | A sweep forgets exactly the clients that are not banned, whose window is over, and whose last ban, if any, ended longer ago than the longest cooldown. |
| `BanRestore.RestartInvisible` | persist.go:100-148 | A restart from a file that matches the table changes no answer to whether an address is banned and for how long, then or later, when no saved client is exempt and everyone fits. |
| `BanRestore.BannedMeans` | abuse.go:228-253 | An address is free exactly when its own ban is over and so is that of every block over it, or it is exempt from those; otherwise it is told when its own ban ends, or the last of the blocks' bans, for ever included. |
| `BanRestore.SnapshotMatches` | persist.go:73-96 | A snapshot matches the table it was taken of. |
| `BanRestore.SnapshotExact` | persist.go:73-96 | A snapshot holds exactly the clients with history, each with its end and offence count. |
| `BanRestore.OffencesSurvive` | persist.go:113-125 | Offence counts survive a restart exactly when the last ban ended no longer ago than the longest cooldown, or is permanent. |
| `BanRestore.RangesSurvive` | persist.go:73-147 | Of the blocks exactly those still running come back from a snapshot, with their ends and their offences. |
| `BanRestore.ClientAfterRestart` | persist.go:105-128 | What a restored client's entry is. |
| `BanRestore.RangesAfterRestart` | persist.go:130-147 | Exactly the saved ranges still running are restored, with their ends and at least one offence. |
| `BanRestore.LoadedValid` | persist.go:100-148 | Loading any file, with any fair evictions, gives a table whose bookkeeping is sound. |
| `BanRestore.LoadedCovers` | persist.go:100-148 | Whatever the parameters skip and whoever a full table evicts, a loaded table holds no ban its file does not, and exactly its ranges. |
| `BanRestore.RestoredMatches` | persist.go:100-148 | With room for everyone and no one newly exempt, a loaded table's bans in force are exactly its file's. |
| `BanSaving.LoadedStarted` | persist.go:100-148 | A registry loaded from a file a registry wrote meets the saving protocol's start, in the one-way form always and in the exact form when everyone fits and no one is newly exempt. |
| `BanSaving.RestartStarts` | persist.go:179-195 | After a crash at any moment whatever the next process loads meets that start again. |
| `BanSaving.SavingLosesNothing` | persist.go:179-195 | In every interleaving of operations and saves, failed ones included, from an empty or a loaded start: whenever no change waits for its mark, nothing is marked and no save runs, every ban in force is in the file with the same end, and the file has no other if that held at the start. |
| `BanSaving.CrashInvisible` | persist.go:179-195 | A crash at such a moment, in a run from an exact start, and a restart from the file change no answer to whether an address is banned. |
| `BanSaving.RunKeeps` | persist.go:73-96 | The invariant behind it, although the snapshot is taken shard by shard. |
| `BanSaving.CopyShardKeeps` | persist.go:76-85 | Copying one shard under its lock keeps it. |
| `BanSaving.OperateKeeps` | abuse.go:146-151 | An operation that marks nothing changes no ban in force. |
| `BanSaving.UnmarkedKeepsClient` | abuse.go:256-297 | The clients' part of that. |
| `BanSaving.UnmarkedKeepsRange` | ranges.go:163-203 | The ranges' part of that. |
| `BanRegistry.Registry.EntryFor` | abuse.go:175-198 | Room is made by a fair eviction: only when full, only an unbanned entry, only when there is one. |
| `BanRegistry.Registry.CooldownFor` | abuse.go:200-213 | The doubling loop, with int64 wrap-around. |
| `BanRegistry.Registry.Strike` | abuse.go:256-297 | The new table; banned is told exactly when the client was banned already or its strikes in the window and this one reach the threshold, and new exactly in the second case. |
| `BanRegistry.Registry.BanNow` | abuse.go:301-332 | The new table; the answer is free and not new for an exempt client or when there is no room, a running ban's time left, or a new ban of the next cooldown in line. |
| `BanRegistry.Registry.BanFor` | abuse.go:337-377 | The new table, and success exactly for a client that is not exempt and finds room. |
| `BanRegistry.Registry.Unban` | abuse.go:379-400 | The new table, and dirty exactly when something was lifted. |
| `BanRegistry.Registry.Sweep` | abuse.go:453-474 | Loops over shards and entries remove exactly the stale ones and adjust the count. |
| `BanRegistry.Registry.BanRange` | ranges.go:152-188 | The new ranges and count, with the limit of 4096. |
| `BanRegistry.Registry.UnbanRange` | ranges.go:190-204 | The new ranges and count. |
| `BanRegistry.Registry.SweepRanges` | ranges.go:241-257 | The loop removes exactly the ended ranges. |
| `BanRegistry.Registry.RangeEndOver` | ranges.go:131-138 | The loop finds the latest end of the active ranges over an address. |
| `BanRegistry.Registry.Banned` | abuse.go:228-253 | Own ban first, then ranges, the exempt excepted. |
| `BanRegistry.Registry.Snapshot` | persist.go:73-96 | The loop over shards builds the snapshot. |
| `BanRegistry.Registry.Restore` | persist.go:100-148 | The loops over the file restore it, in whatever order it lists its bans, and leave a good registry; an empty one has then started on its file. |
| `History.ReplayRestores` | history.go:731-774 | After a sequential run with nothing dropped, once the aggregate is flushed, replaying the log gives every window and every client the live totals. |
| `HistoryItems.ItemsRestored` | history.go:731-774 | Under the same conditions a replay restores each ban's list of paths, and its list of clients, entry by entry, so long as the live list had room for them all. |
| `HistoryRuns.BanTotals` | history.go:256-266 | Over every run a ban's total is the number of requests it turned away, and each path and client it lists stands with exactly its own number; one not listed had none, unless a hundred others fill the list. |
| `HistoryRuns.ClientTotals` | history.go:516-591 | Over every run a client's totals are the numbers of its requests: all, those turned away, the failed among the others, and those that set off a ban. |
| `HistoryRuns.FirstHundredLogged` | history.go:584-590 | The first hundred requests of a client that a ban turns away are lines of their own in the log, while no more than a thousand clients are noted for it. |
| `HistoryRuns.DropsWhenFull` | history.go:731-747 | A request is dropped from the log exactly when it is not logged by itself, its client has no aggregate under the ban yet and fifty thousand others are waiting. |
| `HistoryRuns.NothingDropped` | history.go:731-747 | A run that never fills the aggregate drops nothing. |
| `History.TotalsBalance` | history.go:256-266 | In every state a window's total equals its paths and the rest, and its clients and the rest. |
| `History.ReplayBalanced` | history.go:1057-1106 | The same for every replayed log. |
| `Tallies.TallyConserves` | history.go:619-625 | A bounded tally loses nothing: what finds no place goes to the rest. |
| `History.FlushLinked` | history.go:763-774 | Flushing moves exactly what waited into the log. |
| `History.RequestLinked` | history.go:516-591 | Every recorded request is in the log or waits in the aggregate, once. |
| `History.FloodIsAggregated` | history.go:584-590 | Over every run, each client adds at most a hundred lines of its own to the log per ban: as many as its window has counted for it, up to a hundred. |
| `Tallies.SumListed` | history.go:1083-1100 | Itemised paths add up to the aggregate's, in any order. |
| `HistoryObjects.BanWindow.Count` | history.go:256-266 | The new totals and both tallies. |
| `HistoryObjects.BanWindow.Hit` | history.go:583-590 | Counting a blocked request, and whether it is logged by itself. |
| `HistoryObjects.BanWindow.ApplyAgg` | history.go:1083-1100 | The loop over itemised paths, then the rest of the count. |
| `HistoryObjects.Aggregator.Add` | history.go:731-747 | The new aggregate, or one more dropped. |
| `HistoryObjects.Aggregator.Flush` | history.go:763-774 | Every aggregate is written to the log, in whatever order. |
| `HistoryReplay.ReplayFile` | history_log.go:345-370 | One file: blank, unreadable, overlong and too old lines, their counts, and the events applied. |
| `HistoryReplay.ReplayLog` | history_log.go:331-372 | Rotated files oldest first, missing ones skipped, one that cannot be opened ending the replay; the events applied and the statistics. |
| `HistoryReplay.RestartRestores` | history_log.go:331-372 | However a flushed history's log is spread over rotated files, a start that finds every line readable and recent gives every window and every client the live totals. |
| `HistoryReplay.CutoffKeepsBans` | history_log.go:359-363 | Whatever the age limit, the same bans have windows after a replay. |
| `HistoryObjects.Ring.Push` | history.go:108-115 | The ring holds the newest hundred pushes. |
| `HistoryObjects.Ring.At` | history.go:118-121 | The i-th newest push. |
| `Hedera.CheckAmounts` | internal/chain/hedera/scheme.go:271-304 | The amount checks accept exactly the lists with one payer other than the sponsor that pays exactly the required amount to the recipient and leaves every other account alone. |
| `Hedera.OnePayerPaysAll` | internal/chain/hedera/scheme.go:271-304 | The checks together force exact conservation. |
| `Hedera.ExactPaymentMeans` | internal/chain/hedera/scheme.go:271-304 | An exact payment passes every check. |
| `Hedera.ParseTransfers` | internal/chain/hedera/parse.go:148-163 | The list is accepted exactly when it is plain and names each account once. |
| `Hedera.NetOf` | internal/chain/hedera/scheme.go:237-245 | An account's net amount, by a loop. |
| `Hedera.SumOf` | internal/chain/hedera/scheme.go:247-253 | The list's sum, by a loop. |

## Left out

- HTTP routing, headers, cookies, sessions' tokens, rate limits, the portal, the waiting room, templates and settings.
- The policy service's own rules: it approves with any ID or not at all, and a request may also give up at any point before it calls the gateway.
- NFT admission: `FastLane.EligiblePaidApart` is about admission through payment only.
- Cryptography: signing is a function parameter, and verification of a signature a predicate; nothing is claimed about forging. A fingerprint is the authorization it is a digest of.
- Chains, RPC clients, Stellar envelopes and Hiero protobuf decoding: their outcomes are arbitrary.
- Network time limits: any call may end unanswered at any time. Waiting for settlements before a gateway closes is not assumed, so results also hold without it.
- File contents after a power loss that undoes an append the system had shown to a later reader: what an append leaves behind is settled when it happens. The exclusive lock of each file is assumed.
- The exact text of records, receipts, log events, times, durations and addresses: a log's encoding is any that reads back, of which `LogLines` gives one, and an address is a number with a prefix length.
- IPv6 zones: an address with a zone is in no prefix, and none is modelled.
- Clocks only move forward, across restarts too: `FastLane.OnlyLatestOpen`, `FastLane.NoCallWhilePaid` and `BanSaving.SavingLosesNothing` depend on it.
- Reasons given with an error are modelled where they decide a branch, not as texts to compare.
- Strings are sequences of Unicode scalar values; replacing invalid UTF-8 by the JSON decoder is not modelled.
- Base64 around Solana transactions, and the semantics of XRPL values beyond their bytes: the `JSON` form and the transaction hash are not modelled.
- The lane's counter of arrivals is unbounded, and a success is taken to be released once, as `priorityGate` does by a deferred call.
- Entries of the ban table are values in their shard's map, not objects shared with other threads. The registry's capacity check and insertion are one step.
- Integer times in the ban registry wrap only where a ban's end or a cooldown is computed.
- History eviction, trimming of old windows, retention, attribution of triggers after the fact, and the order of events logged by different goroutines: replay is proved for one request after another.
- BanRestore.RestartInvisible: asks that no saved client has become exempt and that all saved clients fit the table, because the program then skips or evicts clients.
- History.ReplayRestores: totals only. HistoryItems.ItemsRestored has the lists of paths and clients, for lists that did not overflow, because a replay may fill a list that did in another order.
