# dhttp, verified

A Dafny model of five parts of dhttp, with proofs of what they promise. `dafny verify dfyconfig.toml` checks all of it.

- **Access rules.** `Vm.dfy` is the stack machine that runs rules in prefix form, over any operator table;
  `VmArity.dfy` compares it with the arity check, `VmMeaning.dfy` and `VmExact.dfy` with the meaning of a rule.
  `RuleText.dfy` (pattern texts, printing, lexer), `RuleParser.dfy` (the two grammars and the print/parse round trip) and
  `RuleSyntax.dfy` (an independent syntax of written rules, soundness and completeness of the parser) lead from the
  written rule to the stored one and to its decision. `RuleStore.dfy` is the rule store: duplicate collapse, appending,
  removing, and the two evaluators.
- **Pattern reachability and names.** `Reachability.dfy` has the language automata, the product search, what the automata
  accept in the terms of RFC 1123, RFC 3986 and RFC 9110, and the validators of profile names.
- **Network maintenance.** `Network.dfy` (registries and NAT mappings with rollback), `NatRaces.dfy` (an update next to other
  owners of the registry) and `Interfaces.dfy` (bindings reconciled against interface snapshots, and whole runs of both with
  other owners in between).
- **SDK streams and lifecycle.** `Upload.dfy` and `UploadBridge.dfy` (the upload channel in every interleaving),
  `UploadEndings.dfy` (when an upload can still end cleanly), `BodyReader.dfy` (the demand-driven reader), `Lifecycle.dfy`
  (scopes, operations, listeners, closing).
- **Log records and identity replacement.** `Log.dfy` and `IdentitySave.dfy`.

Code that changes state in the source is a class here. Each of its methods is proved equal to a specification function, and
the properties are proved of that function, over all runs where the source promises them for runs.

What the proofs found out about the code:

- The stack machine does not always compute what a rule means. `OutcomeMachine.RunAccumulates` says what it computes on
  every tree, and `ExactMeaning.FaithfulExactlyWhenKept` gives the exact class of rules on which that is the meaning: every
  right operand is a literal or a chain of the same operator, and below a binary operator's right side compound operands are
  negated an even number of times. Outside it the machine returns the opposite for some leaf results without any error.
  `RuleMeaning.OrLosesItsMeaning` is a rule a user can write there: `*? with method "GET" or method "POST"` does not match a
  GET request that it means to match.
- Without unique rules the in-memory matcher and the live evaluator disagree (`Evaluators.DuplicatesDisagree`), and
  `Evaluators.DifferExactly` says when.
- Withdrawing a binding goes by bound address: when the dock lost the socket and another owner bound the address since, that
  owner loses its publications there. `InterfaceBindings.LaterOwnerLosesPublication` is such a run, and
  `InterfaceBindings.ScanKeepsOwners` says exactly which publications are lost.
- The documented promise that a write cancelled midway fails the whole upload (api/src/stream.rs:58) does not hold in every
  interleaving: the dropped future gives up the sender lock before it fails the upload, and a `finish` that is being polled
  can take it (`UploadPromises.DroppedSendCanBeTruncated`). `UploadEndings.MidwayDropFails` says exactly when it holds: once
  the drop is complete a clean end is out of reach unless, when the send was dropped, the body was past its check for
  cancellation with nothing waiting and a `finish` was being polled; between the two halves of the drop it is in reach for
  as long as the body is not dropped. `UploadEndings.CleanEndReachableExactly` says of every reachable state whether the
  upload can still end cleanly.
- The end of a received body is published before the read that reached it is told. When that read is dropped in between, the
  next read returns the end and `trailers` succeeds, and after that both turn into the cancellation
  (`ReaderPromises.DroppedLastReadTakesEndBack`). A successful completion is final exactly once the worker has stopped
  (`ReaderPromises.CompletionKeptExactly`).
- A cancellation can be outrun by a poll of the body reader's worker that began before it
  (`ReaderPromises.PollOutrunsCancellation`). `ReaderPromises.CancelledCompletesExactly` says exactly when: a poll of the
  worker is under way, only trailers and other frames without data are left of the body, and the worker serves a read, or is
  idle with a command waiting or with a read being polled that has not sent its command yet.
- While outer mappings are updated another owner can register any of the socket's endpoints, its direct one included, and the
  socket loses them when the update fails (`NatRaces.AnythingCanBeLost`); nothing else is ever lost
  (`NatRaces.OnlyClaimedIsLost`).

## Model

| member | source | states |
|---|---|---|
| `VirtualMachine.VM.TryEval` | access/src/expr/eval.rs:156-175 | the in-place settling of pending operators leaves exactly the state that the specification says, errors included |
| `VirtualMachine.VM.TryRun` | access/src/expr/eval.rs:177-203 | the machine over mutable stacks returns what feeding the parts one by one returns, for every operator table |
| `VirtualMachine.SettleSucceeds` | access/src/expr/eval.rs:156-175 | settling never lacks operands, so runs fail only as incomplete or with extra operands |
| `Arity.SkipTracks` | access/src/expr/eval.rs:177-203 | a skipped operand drops exactly one pending binary operator of the counting machine, without underflow |
| `Arity.ArityDecidesAcceptance` | access/src/expr/exprs.rs:104-126 | for every sequence of parts and every values, evaluation succeeds exactly when the arity check does, and otherwise both report the same error |
| `OutcomeMachine.FedSkips` | access/src/expr/eval.rs:177-203 | a tree that is skipped costs exactly one owed operand, whatever its leaves are |
| `OutcomeMachine.ReadsRight` | access/src/expr/eval.rs:65-110 | an operator that holds a value settles, above any pending operators and on any right operand, to one value defined on the tree alone, in which the inner operators act on the held value first |
| `OutcomeMachine.RunKeepsMeaning` | access/src/expr/eval.rs:65-203 | on every tree of the class the machine returns exactly the left-to-right short-circuit value, errors included |
| `OutcomeMachine.RunAccumulates` | access/src/expr/eval.rs:156-203 | on every tree and all leaf results, errors included, the machine returns that value; it has no notation error |
| `ExactMeaning.MeaningLost` | access/src/expr/eval.rs:156-203 | outside the class there are leaf results, none an error, on which the machine returns the opposite of the meaning |
| `ExactMeaning.FaithfulExactlyWhenKept` | access/src/expr/eval.rs:156-203 | the machine computes the meaning on all leaf results if and only if the tree is in the class, and the same for all results without an error |
| `Patterns.CanonicalizeIdempotent` | access/src/pattern.rs:463-479 | canonical name patterns canonicalise to themselves |
| `Atoms.Serialize` | access/src/expr/exprs.rs:166-181 | the text appended part by part is the parts' texts with single spaces between them |
| `Lexer.LexQuoted` | access/src/expr/parse.rs:118-155 | a quoted and escaped pattern text lexes to one token with that text, whatever quotes and backslashes it has |
| `RuleStorage.LexPrinted` | access/src/expr/parse.rs:118-155 | a printed rule lexes to the tokens of its parts |
| `RuleStorage.ParseTokens` | access/src/expr/parse.rs:325-337 | the tokens of any valid parts parse in polish form to these parts, keyword spellings included |
| `RuleStorage.StoredRuleLoads` | access/src/expr/exprs.rs:226-247 | printing, lexing and parsing gives back the same expression, or exactly the arity error it has |
| `RuleStorage.PrintedInjective` | access/src/expr/atomics.rs:293-350 | two stored rules with one text are one rule |
| `InfixSoundness.InfixSound` | access/src/expr/parse.rs:339-384 | every successful infix parse reads a rule of the written syntax and yields the prefix listing of its tree (one level of and/or, to the left) |
| `InfixCompleteness.WrittenRuleParses` | access/src/expr/parse.rs:339-384 | every tree of location patterns can be written and parses back to its listing |
| `RuleMeaning.ListingHasArity` | access/src/expr/exprs.rs:116-126 | the listing of any tree passes the arity check |
| `RuleMeaning.ParsedRuleReloads` | access/src/expr/exprs.rs:226-281 | a rule that parses is loaded again unchanged from what was stored; the arity check on reload always passes |
| `RuleMeaning.ParsedRuleMeans` | access/src/expr/exprs.rs:98-114 | a parsed rule always evaluates, to what the machine accumulates, and to its meaning when its tree is in the class |
| `RuleMeaning.OrLosesItsMeaning` | access/src/expr/eval.rs:156-203 | the text of a rule with `or` that lexes, parses, means to match, and evaluates to no match |
| `Languages.Accepts` | access/src/pattern/reachability.rs:34-44 | the byte loop accepts exactly the words on which the automaton's run ends in an accepting state |
| `Languages.AlphabetsSuffice` | access/src/pattern/reachability.rs:188-400 | every step of each of the eight automata on any byte is matched by a step on a byte of the listed alphabet |
| `PatternSearch.TraceMeans` | access/src/pattern/reachability.rs:129-166 | the node a word leads to says where both runs are, whether a match was passed, and that no state before the last was dead |
| `PatternSearch.Enqueued` | access/src/pattern/reachability.rs:153-163 | the inner loop adds what follows a node for each byte that the domain takes, and only reachable nodes |
| `PatternSearch.Intersects` | access/src/pattern/reachability.rs:129-166 | the search stops and answers true exactly when a word of the language is a witness |
| `SearchMeaning.WitnessesAreMatches` | access/src/pattern/reachability.rs:145-163 | for each of the eight languages, stopping at dead states loses no pattern: a witness exists if and only if some input of the language is matched |
| `SearchMeaning.ValidateReachable` | access/src/pattern/reachability.rs:104-127 | a pattern is accepted exactly when it compiles and matches some input of its language |
| `LanguageMeanings.SplitJoins` | home/src/dhttp_home.rs:56-66 | splitting is characterised by joining back and by pieces without separators |
| `LanguageMeanings.ClientNamesAreHostNames` | access/src/pattern/reachability.rs:188-225 | the client-name automaton accepts exactly the host names of section 2.1 of RFC 1123 with at most 253 bytes |
| `LanguageMeanings.LocationPathsAreEncoded` | access/src/pattern/reachability.rs:317-344 | location paths are a slash followed by path characters, escapes and slashes (section 3.3 of RFC 3986) |
| `LanguageMeanings.QueryKeysAreEncoded` | access/src/pattern/reachability.rs:346-372 | query keys are encoded query characters (section 3.4 of RFC 3986) without `&` and `=` |
| `LanguageMeanings.QueryValuesAreEncoded` | access/src/pattern/reachability.rs:374-400 | query values are encoded query characters without `&` |
| `LanguageMeanings.TokensAreTchars` | access/src/pattern/reachability.rs:249-291 | methods and header names are the nonempty tokens of section 5.6.2 of RFC 9110 |
| `Names.ValidatorsAgree` | home/src/dhttp_home.rs:56-66 | a string is valid by the splitting validator exactly when the byte automaton accepts it and it has no uppercase letter |
| `Names.NormalizedNames` | home/src/dhttp_home.rs:26-38 | normalised names are in the client-name language, under the suffix, and normalise to themselves |
| `Names.NormalizedDnsNames` | home/src/dhttp_home.rs:40-50 | normalised DNS names are in the client-name language and normalise to themselves |
| `Names.ValidatesExactly` | home/src/dhttp_home.rs:68-72 | a name validates exactly when it is a valid DNS name under the identity suffix |
| `RuleTables.DecidingIsNewest` | access/src/db/evaluator.rs:65-85 | the rule that decides is the newest of those that apply, however the rows are ordered |
| `DuplicateCollapse.RulesTable.Up` | access/src/migration/m20260807_120000_unique_location_rules.rs:10-44 | the migration keeps the newest row of each key, and then the index is unique |
| `DuplicateCollapse.CollapsedUnique` | access/src/migration/m20260807_120000_unique_location_rules.rs:13-41 | at most one row is left per location, action and polish text |
| `DuplicateCollapse.Survivor` | access/src/migration/m20260807_120000_unique_location_rules.rs:13-28 | every row has a survivor with its key that is at least as new |
| `DuplicateCollapse.KeyIsLogicalRule` | access/src/db/service/location_service.rs:61-64 | the text of the index tells apart exactly what the service compares |
| `DuplicateCollapse.CollapseKeepsDecisions` | access/src/migration/m20260807_120000_unique_location_rules.rs:13-28 | the rows removed leave every decision unchanged |
| `LocationService.DeduplicateRules` | access/src/db/service/location_service.rs:48-59 | the loop over the drained vector keeps what the next three rows describe |
| `LocationService.DeduplicatedFirsts` | access/src/db/service/location_service.rs:48-59 | what is kept are exactly the rules without an equal earlier one, each once and in the order in which they came |
| `LocationService.DeduplicatedUnique` | access/src/db/service/location_service.rs:48-59 | no two rules kept are logically equal |
| `LocationService.DeduplicatedCovers` | access/src/db/service/location_service.rs:48-59 | every rule has an equal one among those kept |
| `LocationService.Service.RefreshRulePriority` | access/src/db/service/location_service.rs:524-536 | exactly the row with that id gets the new times |
| `LocationService.Service.AppendRule` | access/src/db/service/location_service.rs:538-618 | find or create the location, then refresh the equal rule or insert a row |
| `LocationService.Service.RemoveRules` | access/src/db/service/location_service.rs:335-401 | the listed rules go with all their duplicates, or nothing and the first missing number is reported |
| `LocationService.AppendDecides` | access/src/db/service/location_service.rs:538-618 | the location decides by the appended rule wherever it applies, everything else decides as before |
| `LocationService.AppendKeepsUnique` | access/src/db/service/location_service.rs:538-618 | keys stay unique and at most one row is added |
| `LocationService.RemoveUndoesAppend` | access/src/db/service/location_service.rs:335-401 | removing a newly added rule gives back the table |
| `LocationService.Service.RemoveRulesByIds` | access/src/db/service/location_service.rs:403-482 | the rules with these identifiers go with all their duplicates; otherwise the least missing identifier, or else one of another location, is reported and nothing changes |
| `Evaluators.LoadedDecides` | access/src/db/service/location_service.rs:296-331 | the rules of a location, loaded in any order, decide as the live rows do |
| `Evaluators.EvaluatorsAgree` | access/src/matcher.rs:119-191 | with unique rules and distinct location keys, matcher and live evaluator give the same decision or error for every path and request |
| `Evaluators.DifferExactly` | access/src/db/service/location_service.rs:48-59 | with duplicates they differ for a request exactly when a first copy in force, of another effect than the newest rule in force, is newer than every first copy in force of that effect; then the newest rule in force has an equal one loaded before it |
| `Evaluators.DuplicatesDisagree` | access/src/db/service/location_service.rs:48-59 | three rules on which they do |
| `NatMappings.ApplyOuterMappings` | dhttp/src/network/interfaces/nat.rs:301-384 | registering, publishing, withdrawing and rolling back in place gives all of the update or nothing, and fails exactly on a lost socket or a conflict |
| `NatMappings.RestoreQuic` | dhttp/src/network/interfaces/nat.rs:370-374 | registering the earlier endpoints again restores the whole registry |
| `NatMappings.AppliedSyncs` | dhttp/src/network/interfaces/nat.rs:298-384 | after an accepted update both registries hold exactly the refreshed mappings, after a refused one they are as before |
| `NatMappings.AppliedKeepsOthers` | dhttp/src/network/interfaces/nat.rs:340-352 | no other socket's endpoint is added, moved or dropped |
| `NatRaces.OnlyClaimedIsLost` | dhttp/src/network/interfaces/nat.rs:356-377 | with other owners acting between any two registrations, a successful update leaves exactly the new endpoints, a failed one the earlier ones except those refused, each claimed by another owner meanwhile |
| `NatRaces.AnythingCanBeLost` | dhttp/src/network/interfaces/nat.rs:370-374 | for every set of earlier endpoints there is a run in which a failed update loses exactly that set |
| `NatMappings.PollKeepsInStep` | dhttp/src/network/interfaces/nat.rs:167-277 | whatever becomes ready, a poll leaves registrations and publications those of the mappings it then holds |
| `NatMappings.Nat.Poll` | dhttp/src/network/interfaces/nat.rs:167-277 | the poll loop follows its specification, and does nothing once the dock lost the socket |
| `NatMappings.Nat.Resume` | dhttp/src/network/interfaces/nat.rs:137-164 | a measurement in flight is dropped, applied mappings and classification stay |
| `InterfaceBindings.InterfacesCtx.Register` | dhttp/src/network/interfaces.rs:215-251 | all of a registration or, on a held address, a taken endpoint or a failed publication, nothing |
| `InterfaceBindings.InterfacesCtx.Scan` | dhttp/src/network/interfaces.rs:260-295 | obsolete bindings are withdrawn first, then gaps are filled in the order of the addresses |
| `InterfaceBindings.InterfacesCtx.Drop` | dhttp/src/network/interfaces.rs:298-307 | every binding is withdrawn |
| `InterfaceBindings.RegisteredInStep` | dhttp/src/network/interfaces.rs:215-251 | a registered socket starts with its direct endpoint alone, a refused one leaves no trace |
| `InterfaceBindings.ScanReconciles` | dhttp/src/network/interfaces.rs:260-295 | after a scan each binding is current and held, live current ones are the same, and gaps remain only where opening or registering fails |
| `InterfaceBindings.ScanWithdraws` | dhttp/src/network/interfaces.rs:253-278 | a withdrawn socket is not held and owns no registered or published endpoint |
| `InterfaceBindings.ScanKeepsOwners` | dhttp/src/network/interfaces.rs:253-278 | other owners keep sockets and registrations, and their publications except at a withdrawn address |
| `InterfaceBindings.LaterOwnerLosesPublication` | dhttp/src/network/interfaces.rs:253-278 | a run from nothing bound in which a scan takes away the publication of a later owner of the address, whose socket stays |
| `InterfaceBindings.StopWithdrawsAll` | dhttp/src/network/interfaces.rs:298-307 | dropping the context leaves nothing of its bindings, and of other owners everything but their publications at the addresses of the bindings |
| `InterfaceBindings.RunKeepsInStep` | dhttp/src/network/interfaces.rs:187-213 | every run of scans, polls, updates, resumes, losses and other owners' actions keeps all bindings in step, with the direct publication exactly where the address has a scope |
| `InterfaceBindings.RunsRegisterWhatIsMapped` | dhttp/src/network/interfaces/nat.rs:252-265 | at the end of any run a held socket has registered exactly the endpoints of its last applied mappings, and published exactly their outer endpoints and, when its address has a scope, its direct one |
| `UploadSafety.StepInv` | api/src/stream.rs:59-162 | every step of calls, failures, drops and body polls keeps the invariant of channel, lock, turns and body |
| `UploadPromises.VerdictMeans` | api/src/stream.rs:127-162 | what a body yields is data, then at most one other outcome, then only ends |
| `UploadPromises.DeliveredInLockOrder` | api/src/stream.rs:59-102 | delivered bytes are a prefix of those enqueued in lock order, at most four chunks of at most 16384 bytes wait, successful sends wrote all their bytes |
| `UploadPromises.CleanEndIsComplete` | api/src/stream.rs:124-162 | a clean end is seen only after a successful finish, with its trailers and every byte of every successful send, and nothing is cut short where no failure is recorded |
| `UploadEndings.CleanEndReachableExactly` | api/src/stream.rs:57-162 | from every reachable state some continuation ends the stream cleanly if and only if it has ended so, or goes on, is not dropped, and: without a failure, the sender or the finish is there; with one, a poll of the body is past its check and finds the finish or, with nothing waiting, a `finish` is being polled |
| `UploadEndings.MidwayDropFails` | api/src/stream.rs:47-80 | after a send is dropped midway a clean end is in reach exactly while the body is there, and once the drop is complete exactly if a poll of the body is past its check with nothing waiting while a `finish` is being polled; the send stays cut short in any case |
| `UploadPromises.DroppedSendCanBeTruncated` | api/src/stream.rs:47-80 | a reachable run in which a dropped send is cut short and the body ends cleanly all the same |
| `UploadPromises.SerialRunsLoseNothing` | api/src/stream.rs:57-80 | where polls and drops do not overlap, a clean end never hides a send that was cut short |
| `UploadPromises.AbandonedWriterFailsOnce` | api/src/stream.rs:154-160 | a writer dropped without finishing gives what waits, exactly one error, and then nothing |
| `UploadBridge.UploadChannel.PollCall` | api/src/stream.rs:59-102 | a whole poll of send or finish: cancellation first, then the lock, then chunks while there is room |
| `UploadBridge.UploadChannel.DropCall` | api/src/stream.rs:47-54 | a dropped call gives up the lock and fails the upload |
| `UploadBridge.UploadChannel.PollFrame` | api/src/stream.rs:127-162 | a whole poll of the body, a failure before any frame |
| `ReaderSafety.RunInv` | api/src/stream.rs:181-289 | every step of every interleaving of reads, worker, failures and drops keeps the invariant |
| `ReaderPromises.ReadsOnDemand` | api/src/stream.rs:192-219 | no more data frames are taken from the native body than reads were served, and one read is active at a time |
| `ReaderPromises.ReadsInOrder` | api/src/stream.rs:254-276 | the i-th read can return only the i-th data frame, and without failure or cancellation every frame heard is returned |
| `ReaderPromises.EndMeansAll` | api/src/stream.rs:220-232 | a read that returns the end does so after the whole body without an error, every data frame answered |
| `ReaderPromises.TrailersAreAll` | api/src/stream.rs:279-289 | successful trailers are all trailer fields of all frames in order, and only of a body without an error |
| `ReaderPromises.CompletionKeptExactly` | api/src/stream.rs:220-241 | in every reachable state a successful completion is kept by all continuations if and only if the worker has stopped, and then unchanged |
| `ReaderPromises.EndIsForGood` | api/src/stream.rs:254-289 | once a read that had sent its command returned the end, in every continuation `trailers` answers all trailer fields and each read that finds no other under way returns the end at once |
| `ReaderPromises.DroppedLastReadTakesEndBack` | api/src/stream.rs:224-239 | a run from the start in which a read returns the end and the trailers succeed, and then the next read fails and so do the trailers |
| `ReaderPromises.CancelledCompletesExactly` | api/src/stream.rs:193-240 | a reachable state that is cancelled and not successfully complete can still complete if and only if a poll of the worker is under way, no data or error is left, and the worker serves a read or can be given one by a poll that began before; otherwise `trailers` answers an error in every continuation |
| `ReaderPromises.PollOutrunsCancellation` | api/src/stream.rs:220-226 | a run from the start in which `trailers` is answered with the cancellation and, after the poll of the worker that began before it, with success |
| `ReaderBridge.BodyReader.PollWorker` | api/src/stream.rs:192-241 | the worker's loop does as much as there is to do without waiting, and stops with the first error |
| `ReaderBridge.BodyReader.Drop` | api/src/stream.rs:301-308 | dropping the reader cancels unless the end was told successfully |
| `Scopes.OperationState.Fail` | api/src/lifecycle.rs:49-52 | the first failure is kept and the error it reports does not change |
| `Scopes.CancelledForGood` | api/src/lifecycle.rs:49-74 | in every history of failures and cancellations a poll answers the first failure, or else the cancellation of the owner, and what is ready only if there was neither |
| `Scopes.Scope.Register` | api/src/lifecycle.rs:94-105 | a closed scope creates nothing, an open one an operation of its own |
| `OwnedBodies.OwnedBody.PollFrame` | api/src/server.rs:103-126 | body and operation are held together and dropped together |
| `OwnedBodies.HeldUntilFinal` | api/src/server.rs:87-131 | over any polls the operation is held exactly as long as no answer was final, afterwards there is nothing |
| `OwnedBodies.CancellationComesFirst` | api/src/server.rs:114-126 | a poll answers a cancellation before it looks at the native body |
| `Lifecycle.CloseReturnsWhenAllIsGone` | api/src/client.rs:147-152 | when closing may return, every operation of client and listeners is gone and nothing is registered |
| `Lifecycle.WithdrawnBeforeCancelled` | api/src/server.rs:194-199 | a listener's handlers are cancelled only after its registration was withdrawn |
| `Lifecycle.ClosedForGood` | api/src/lifecycle.rs:94-116 | in every run a closed scope takes no operation more and a first failure is never replaced |
| `Lifecycle.NothingAfterClose` | api/src/lifecycle.rs:107-116 | after closing has returned nothing ever lives again |
| `LogEscaping.QuotedReadsBack` | log/src/record.rs:132-143 | escaped text reads back to its bytes, up to the closing quote and not further |
| `LogEscaping.EscapedText` | log/src/record.rs:119-130 | the escaped text has exactly the precomputed length and is printable |
| `LogEscaping.QuotedSuffix` | log/src/compact.rs:45-62 | a quoted field at the end of a text can be told from everything before it |
| `LogRecords.RecordBuilder.AppendPlain` | log/src/record.rs:107-117 | the bytes are appended, or the first refused byte is reported and nothing is written |
| `LogRecords.RecordBuilder.AppendQuoted` | log/src/record.rs:119-145 | the escaped bytes are appended in place, or nothing is when they do not fit |
| `LogRecords.RecordBuilder.Finish` | log/src/record.rs:101-105 | one line feed ends the record |
| `LogRecords.ElementWriter.Write` | log/src/compact.rs:38-62 | elements are written by mode, and a quoted element inside a quoted one is refused |
| `LogRecords.RenderedExactly` | log/src/record.rs:107-166 | an element is written exactly when it is sound and fits, and then as its output |
| `LogRecords.RecordsArePhysical` | log/src/record.rs:8-17 | every finished record is printable ASCII with one final line feed and at most 65536 bytes |
| `AccessLines.FormatWithClient` | log/src/access/formatter.rs:30-59 | the fields appended one by one make the record of the whole line, with the first error |
| `AccessLines.FormattedExactly` | log/src/access/formatter.rs:30-59 | a line is formatted exactly when client and time are plain, the version has a name, and it fits |
| `AccessLines.LineDeterminesFields` | log/src/access/formatter.rs:30-116 | a line determines method, target, version, status, byte count, referer and user agent, up to missing being the same as "-" |
| `AccessLines.MissingLooksLikeADash` | log/src/compact.rs:92-106 | missing and "-" give one line, in each of the optional fields |
| `IdentitySave.IdentityProfile.WriteMaterialFile` | home/src/identity/management.rs:228-247 | files are created anew and hold a prefix of their contents until they are complete |
| `IdentitySave.IdentityProfile.SaveIdentityTransaction` | home/src/identity/management.rs:142-226 | success leaves the new pair, any error but Rollback the exact old directory, Rollback the old set in the backup |
| `IdentitySave.SavedSafe` | home/src/identity/management.rs:142-226 | for every pattern of failures each state on the way is safe, and success and Rollback happen exactly when the listed steps pass or fail |
| `ConcurrentSaves.NeverPartial` | home/src/identity/management.rs:155-226 | with any number of saves at once the live directory is the first material, one complete pair, or absent while a whole set is kept in a backup |

## Left out

- Regular expression and glob compilation, and matching of patterns against text: a compiled automaton and a validity oracle are parameters.
- `SearchMeaning.ValidateReachable`: that a compiled automaton is closed, that nothing leaves its dead states, and that it reports a match one byte late are properties of the regular expression library, taken as preconditions.
- SQL, the object-relational layer and transactions: tables are sequences of rows, a transaction is one step; its branches for conflicts with concurrent writers are not modelled.
- `replace_rule_by_id`: it changes action and expression of a row and keeps its creation time, and so its priority; a second row with one key is refused by the unique index, if there is one. The removal of whole rule sets.
- Token positions and the wording of errors; parse errors carry only which check refused.
- `Display` of a whole location rule, clap arguments, evaluation of single atoms on HTTP requests: every leaf has any outcome.
- Dock, QUIC protocol and address book: finite maps with small contracts (an insertion fails on an existing endpoint and changes nothing; the entries of the QUIC registry belong to sockets that the dock holds). Inner and outer publications share one map.
- `NatMappings.ApplyOuterMappings`: one step with respect to other owners of the registries; what they can do in between is modelled for the QUIC registry alone, in `NatRaces`.
- Interface name policy, enumeration of addresses, STUN exchanges, server discovery, timers and wakers: what they come up with is a parameter or a step.
- `UploadPromises.DeliveredInLockOrder`: a poll checks for cancellation once, when it begins; how tasks are woken, and fairness, are not modelled.
- Trailers are lists of name and value pairs; how a header map groups the values of one name is not modelled.
- `UploadWriter::closed` and `BodyReader::closed`: they only wait.
- `Lifecycle.CloseReturnsWhenAllIsGone`: a listener's service admits requests only once listening has succeeded; what the endpoint accepts before that is in foreign code. The two registrations of one request are separate steps.
- The request exchange itself (connecting, pumping, deadlines), request handlers and their 500 responses, `reload`.
- Integer width: byte counts and lengths are unbounded; sums that would overflow are refused as too long in any case.
- Timestamps, IP addresses and HTTP methods of log records: their texts are parameters; a method is a token without spaces.
- Certificate log records, the certificate parser, OCSP, transport, N-API and Python wrappers.
- `IdentitySave.SavedSafe`: renames take effect at once, writes and removals may stop anywhere; durability of directory entries after a power loss is not modelled.
- Loading identities and listing profile candidates.
