# A verified model of the external caller

This project models the private protocol stack of the external caller and its qualification
adapter in Dafny, and proves what that stack relies on. `dafny verify dfyconfig.toml` checks all of
it.

The model takes the source's form: what the source updates in place is a class or a loop with a
contract. The methods of the store, the encoder, the phase machine, the adapter, the caller, the
decoder and the framing are each proved equal to a specification function, and the properties are
lemmas about those functions, over every input, every interleaving or every run. The Gateway's
methods are each proved to be one step of the Gateway machine, or the row of steps that
`GatewayCalls` names, taken when no other thread comes between; a run goes on with them. The
service object, the child's command loop, the caller session and the executor have contracts over
their own fields, and lemmas beside them say which steps of `GatewayExchange` and `AdapterPipeline`
each outcome of a call is.

## What is modelled

**Gateway grants and permits** (`GatewayState`, `GatewayInvariant`, `GatewaySafety`,
`GatewayHistory`, `GatewayLateWatcher`, `GatewayLockstep`, `GatewayProgress`, `GatewayCalls`, `GatewayObjects`). The
grants map, the permits with their mutexes, flags and transports, the cancellation watcher, `Close`,
`Attach`, `Revoke`, expiry and purging are one state machine whose steps are the critical sections,
channel waits and physical closes of the source; a run is any interleaving. `closeTransports` sets
its flag before it closes, so the physical close is a debt of the thread that set the flag. The
revocation property is stated about the flag, the cancelled context and refused attaches; when the
transports are also physically closed is stated exactly, and a concrete run shows a revocation
acknowledged before they are. A `Close` can always run to its end. Which
requests are taken is said twice: of table, grants and clock, and of what has been asked before. Run in lockstep with a Gateway
that never forgets a grant, the purging one cannot be told from it by anyone who connects.

**Gateway service** (`GatewayServe`, `GatewayTunnel`, `GatewayDrain`, `GatewayWaiting`). The closing gate, the
handlers with their permits and tunnels, the two copy threads of each tunnel and the stop command,
around the same Gateway state machine; that a good request gets its tunnel, what holds once "stopped" is written, that it can always be
reached, and that the handlers already there can always let a waiting `Revoke` return.

**Canonical JSON** (`JcsUtf8`, `JcsOrder`, `JcsStrings`, `JcsNumbers`, `JcsTree`, `JcsRoundTrip`,
`JcsGrammar`, `JcsScan`, `JcsCanonical`, `JcsForm`, `JcsPermutation`, `JcsIntegers`, `JcsDoubles`,
`JcsMagnitude`, `JcsMachine`, `JcsDecoder`). Bytes, UTF-8, UTF-16 order, byte-level escapes, the
surrogate scanner, the printing of numbers and the depth bound of RFC 8785 as the source implements
them, and a reader and a printer. Documents are also described from outside, by a grammar of spelled
strings, number literals, white space and nesting and by the rules of the canonical form, without
the reader or the printer: the reader takes exactly that grammar, and Canonicalize gives exactly the
one document in canonical form that means the same. `JcsMachine` and `JcsDecoder` are the loops,
proved equal to those functions.

**Durable store** (`StoreState`, `StorePlan`, `StoreDisk`, `Store`, `StoreWrite`, `StoreSafety`,
`StoreService`, `StoreBindings`, `StoreReach`, `StoreCodec`, `StoreTree`, `StoreKeys`, `StoreDocument`,
`StoreMembers`, `StoreLaw`, `StoreObjects`) **and the caller process over it** (`CallerRun`,
`CallerSuccess`, `CallerObjects`). A directory with what processes see and what a power loss may
leave; every file operation may work, fail with or without having taken effect, or be the last one of
the process. The six-stage state, its validity, the five bindings and where each of their arguments
goes, the document member by member, the atomic write, exactly what the disk must answer for a call
to succeed, and the gates of `runScenario` around an executor that may make any calls of the store's
interface, with exactly the runs they let through.

**Adapter** (`OutputStream`, `Phase`, `PhaseTranscript`, `PhaseObject`, `AdapterRun`,
`AdapterTranscript`, `AdapterObjects`). The output encoder over a stream that writes short, fails or misreports, the
phase machine under any order of calls, the grammar of its transcripts, and the adapter's drive of
it: its whole output and its exit code in closed form, for any surroundings and any stream.

**Processes in composition** (`AdapterPipeline`, `SessionObjects`, `Qualification`,
`GatewayExchange`, `GatewayExchangeObjects`, `GatewayChild`, `Framing`). The adapter, its supervised
caller session, the caller and its executor over two pipes; the caller's threads and the Gateway
child over a numbered command stream; and the line framing under both. `Qualification` drives the
adapter's phase machine and the caller's store by the steps of that pipeline, so that what the
adapter reports is a statement about the store. `GatewayChild` drives the live service by the
commands of that stream, so that what the caller is answered is a statement about the child's
Gateway.

**Admissions** (`AdmissionRoutes`, `Admission`, `AdmissionWitness`). Building an admission from a nanosecond clock, its
re-validation in whole seconds, and which endpoint an operation stands for.

## What turned out not to hold

- A revocation can be acknowledged while the cancellation watcher still owes the physical close:
  `GatewayLateWatcher.AcknowledgedBeforePhysicalClose` is such a run and
  `GatewaySafety.RevokedTransportsClosedIff` says exactly when both transports are closed.
- `boundedDeadline` grants deadlines of a little over 100 ms, for which the builder succeeds and the
  client refuses. `Admission.BoundedDeadlineServesIff` is the exact condition, over the three clock
  readings the source takes: the deadline is in a later second than the client's check, so the
  admission is accepted at once exactly when the deadline is in a later second than the building.
  A look at the clock when the deadline is granted is not enough.
  `AdmissionWitness.SubSecondDeadlineCanBeRefused` is an instance, and in
  `AdmissionWitness.LaterSecondThanTheGrantCanBeRefused` the deadline is in a later second than its
  grant and the admission is refused because it was built in the deadline's own second.
- A purged grant is not found by `Revoke`, which would find it in a Gateway that keeps it: the one
  call that can tell the two apart, as `GatewayLockstep.PurgingCannotBeSeen` says.

## Model

| member | source | states |
|---|---|---|
| GatewayInvariant.StepKeepsInv | internal/gateway/grant.go:77-308 | every step of every thread (issue, connect, revoke and its wait, attach, context end, watcher, close, each physical close) keeps the invariant relating grants, permits, threads, attach calls, revokers and the count of physical closes |
| GatewayInvariant.KeepsTable | internal/gateway/grant.go:106-131 | the lookup table never holds more than 64 grants and always points at grants |
| GatewayInvariant.KeepsAccounts | internal/gateway/grant.go:253-308 | for each transport handed to an attach call, closes done plus closes still owed by some thread is always one |
| GatewayInvariant.KeepsRevokers | internal/gateway/grant.go:179-211 | while a revoker waits, every permit of its grant is cancelled, and each one no longer waited for has had its close pass the grant's list |
| GatewaySafety.RevocationIsFinal | internal/gateway/grant.go:136-211 | once Revoke has returned nil, then and in every later state of every run each permit ever made from the grant has its context cancelled and its flag set, refuses attaches, no attach is between its check and its store, and no BeginConnect accepts the grant |
| GatewaySafety.NoAttachAfterRevocation | internal/gateway/grant.go:253-268 | the attach calls that have ever succeeded on a revoked grant's permits are those that had succeeded when Revoke returned |
| GatewaySafety.RevokedTransportsClosedIff | internal/gateway/grant.go:270-290 | after an acknowledged revocation both attached transports are physically closed exactly when `Close` was the thread that set the flag, or the watcher, having set it, has returned from both its closes |
| GatewayLateWatcher.AcknowledgedBeforePhysicalClose | internal/gateway/grant.go:275-290 | a reachable state in which Revoke has been acknowledged and the watcher has closed neither transport |
| GatewaySafety.TransportsClosedExactlyOnce | internal/gateway/grant.go:253-308 | in every run each transport is closed at most once, exactly once when its threads have settled, and an attached pair of a closed permit is closed or owed by one thread, never left |
| GatewaySafety.GrantIsOneUse | internal/gateway/grant.go:136-174 | over any run at most one BeginConnect consumes a given grant |
| GatewaySafety.PermitCarriesItsAuthority | internal/gateway/grant.go:136-174 | the permit of a consuming BeginConnect carries the presented subject, that subject's policy tenant, and an expiry after the connect time and at most five minutes after issue |
| GatewaySafety.PermitsShareTenantIff | internal/gateway/grant.go:77-174 | under a policy that New accepts, any two permits ever made in a run have one tenant exactly when they have one subject |
| GatewayLockstep.PurgingCannotBeSeen | internal/gateway/grant.go:224-230 | with fresh tokens, for every run there is a run of a Gateway that never purges, of the same steps but for the numbering of revokers, in which every grant request is answered the same and at every moment permits, attach calls and closes are the same and the same connects would be taken, on the same grants |
| GatewayLockstep.TwinsConnectAlike | internal/gateway/grant.go:136-174 | in any two states of such runs BeginConnect is taken by both or by neither, on the same grant |
| GatewayLockstep.TwinsIssueAlike | internal/gateway/grant.go:100-132 | and a grant request gets the same key or the same refusal in both, the key never having been issued before |
| GatewaySafety.PurgeKeepsLivePermits | internal/gateway/grant.go:224-230 | purging drops no grant that lists a permit |
| GatewayHistory.IssuedIff | internal/gateway/grant.go:100-132 | a grant is issued exactly to a well-formed request for a policy subject and its tenant, with more than nothing and at most five minutes to run, while fewer than 64 grants are of use, under the first of four draws that is no key of those; it is then in the table, as asked for, unused and unrevoked |
| GatewayHistory.ConnectedIff | internal/gateway/grant.go:136-174 | a connect is taken exactly on a key in the table whose grant has that subject, is not revoked, not expired and not used; the grant is then used and lists one new open permit |
| GatewayHistory.ConnectRefusals | internal/gateway/grant.go:136-174 | which of the four errors a refused connect gets, each exactly when |
| GatewayHistory.RevokedIff | internal/gateway/grant.go:179-198 | Revoke finds its grant exactly when the key is in the table and the grant has that subject, used or not; then the grant is revoked, exactly its listed permits are cancelled and waited for, and nobody connects with that key |
| GatewayHistory.AttachedIff | internal/gateway/grant.go:253-268 | Attach gets its transports exactly on a permit whose flag is not set, whose context lives and that holds neither transport |
| GatewayHistory.ConnectsIff | internal/gateway/grant.go:100-211 | with fresh tokens, at any moment of any run a subject can connect with a key exactly when a grant was issued to it under that key, its time is not over, and no connect with that key has been taken and no revocation of it found its grant before |
| GatewayHistory.RevokesWhileItLasts | internal/gateway/grant.go:179-198 | and the subject can revoke it, used or not, as long as its time is not over and it is not revoked yet |
| GatewayProgress.CloseCanFinish | internal/gateway/grant.go:275-308 | from every state with the invariant the Close of any permit can run to its end, each step lowering what is left to do, with no new request |
| GatewayCalls.ClosingLeads | internal/gateway/grant.go:275-290 | closeTransports without interruption is its locked half, one step for each transport held, and the return; it leaves the flag set, the winner named and what was held closed |
| GatewayCalls.AttachLeads | internal/gateway/grant.go:253-268 | Attach without interruption is check and store, or check and the two closes, on a permit whose mutex is free |
| GatewayCalls.FinishLeads | internal/gateway/grant.go:292-308 | the first Close without interruption is the row of steps that cancels, closes, drops the permit from its grant and signals, and its outcome in every field |
| GatewayCalls.WatcherLeads | internal/gateway/grant.go:270-273 | the watcher of an ended context, without interruption, is its wake-up and the steps of closeTransports |
| GatewayCalls.RunGoesOn | internal/gateway/grant.go:253-308 | any run of the machine can be continued by such a row of steps, so what is proved of every run is proved after it |
| GatewayObjects.New | internal/gateway/grant.go:77-96 | the seen-tenants loop accepts a policy exactly when it has two subjects with valid names and tenants and no tenant twice, and then starts from the machine's initial state |
| GatewayObjects.Gateway.Purge | internal/gateway/grant.go:224-230 | deleting while ranging over the keys leaves exactly the table without purgeable grants |
| GatewayObjects.Gateway.DrawKey | internal/gateway/grant.go:116-131 | at most four draws, the first that does not collide wins, a failed draw ends the attempt |
| GatewayObjects.Gateway.IssueGrant | internal/gateway/grant.go:100-132 | the object's issue is the Issue step of the state machine, with its verdict |
| GatewayObjects.Gateway.BeginConnect | internal/gateway/grant.go:136-174 | the object's connect is the Begin step; it succeeds exactly on a key in the table whose grant has that subject and is neither revoked, expired nor used, and returns the new permit with the grant's binding |
| GatewayObjects.Gateway.MarkRevoked | internal/gateway/grant.go:179-198 | the locked half of Revoke is the Revoke step; it succeeds exactly when the presented key is in the table and its grant has that subject, used or not, and then the grant is revoked, its listed permits are cancelled and returned to be waited for; else nothing changes |
| GatewayObjects.Gateway.CancelListed | internal/gateway/grant.go:190-198 | exactly the listed permits are cancelled and no other changes |
| GatewayObjects.Gateway.Unlist | internal/gateway/grant.go:292-308 | the locked part of Close is the step that drops the permit from its grant |
| GatewayObjects.Gateway.Attach | internal/gateway/grant.go:253-268 | succeeds exactly on two transports and a permit that is open, lives and holds none, which then holds them; else both are closed and nothing else changes; it is the machine's row of attach steps, and a missing transport changes nothing |
| GatewayObjects.Gateway.CloseTransports | internal/gateway/grant.go:275-290 | is the machine's row of closing steps: the first caller closes each held transport once, later callers close nothing |
| GatewayObjects.Gateway.ClosePermit | internal/gateway/grant.go:292-308 | the first time it is the machine's row of finishing steps, the second time nothing |
| GatewayObjects.Gateway.WatcherRuns | internal/gateway/grant.go:270-273 | is the machine's row of watcher steps |
| GatewayServe.ServeKeepsInv | internal/gatewayservice/serve.go:96-190 | every step of handlers, copy threads, the command loop and the Gateway under it keeps the service invariant |
| GatewayServe.StoppedMeansQuiet | internal/gatewayservice/serve.go:96-133 | from the moment "stopped" is written no handler is or comes past the closing gate, every permit ever returned is closed, cancelled and done, and both copy threads of every tunnel have ended |
| GatewayTunnel.GoodRequestIsServed | internal/gatewayservice/serve.go:143-190 | while no stop is served, a request with the token of a usable grant of its own subject can get its tunnel: the grant is used up, its one new permit carries both transports, both copies run, and nothing else has changed but the count of requests |
| GatewayDrain.NextMovesOn | internal/gateway/server.go:26-85 | whatever an active handler is waiting for, some step other than an arrival can be taken that brings it nearer its end and moves no other handler |
| GatewayDrain.StopCanAlwaysBeAnswered | internal/gatewayservice/serve.go:96-133 | in every run, from every moment after the stop command was read, steps that are no new request lead to "stopped" |
| GatewayWaiting.RevokeCanReturn | internal/gateway/grant.go:179-211 | in every run of the live service a Revoke that waits can still be acknowledged, by steps of what is already there: backends and clients that end, the handlers' own code with its Close calls, attach calls under way and the wait itself; no request, no command, and no handler past the gate in between |
| JcsOrder.LessIsStrictTotal | internal/jcs/jcs.go:221-230 | comparison by UTF-16 code units is a strict total order on valid Unicode strings (section 3.2.3 of RFC 8785) |
| JcsOrder.LessIsBefore | internal/jcs/jcs.go:221-230 | one name is less than another exactly when its UTF-16 code units are a proper prefix of the other's or are smaller at the first place where they differ |
| JcsOrder.Utf16Transcodes | internal/jcs/jcs.go:221-223 | the units are those of each character in turn, one below 10000 hex and else the surrogate pair that stands for it |
| JcsUtf8.ValidIffEncoded | internal/jcs/jcs.go:29-32 | valid bytes are exactly the encodings of scalar values one after the other, so no surrogate, no longer encoding and nothing past 10FFFF hex |
| JcsOrder.SortedIsUnique | internal/jcs/jcs.go:178-194 | a set of names has only one strictly sorted sequence |
| JcsStrings.UnquoteEscape | internal/jcs/jcs.go:232-261 | reading back a printed string gives the string and stops right after its closing quote (section 3.2.2 of RFC 8785) |
| JcsStrings.UnquoteSpelled | internal/jcs/jcs.go:92-147 | a string spelled with any mixture of plain characters, two-character escapes, four-digit escapes of either case and surrogate pairs is read as what it means, up to its closing quote |
| JcsStrings.UnquoteWasSpelled | internal/jcs/jcs.go:92-147 | and every string the strict reader takes is such a spelling of what it reads |
| JcsStrings.EscapeIsCanonical | internal/jcs/jcs.go:232-261 | a printed string is the canonical spelling: the five letters, the quote and the backslash escaped by one character, other controls by lower-case digits, everything else as itself |
| JcsScan.ScannerIsExact | internal/jcs/jcs.go:263-305 | on valid UTF-8 the surrogate scanner passes a readable document exactly when a reader that refuses lone surrogates accepts it, and then both read the same value |
| JcsNumbers.NumberStops | internal/jcs/jcs.go:92-147 | a number literal is read no further in front of a delimiter than on its own |
| JcsRoundTrip.ReadRender | internal/jcs/jcs.go:92-199 | a document of the grammar, however spelled and spaced and whatever follows it, is read as its value, with what follows left over, exactly when it repeats no member name and stays within the depth bound |
| JcsRoundTrip.ParseRender | internal/jcs/jcs.go:92-199 | parsing any document of the grammar gives its value, whatever its spelling, white space and member order, unless it repeats a name in an object or nests deeper than 64; then it is refused |
| JcsGrammar.ParseIsTheGrammar | internal/jcs/jcs.go:92-199 | the strict reader accepts exactly the documents of the grammar that repeat no name and are shallow enough, and reads each as what it means |
| JcsCanonical.CanonicalRoundTrip | internal/jcs/jcs.go:29-47 | the canonical form of a value parses to that value, and Canonicalize accepts it unchanged |
| JcsCanonical.CanonicalizeIsIdempotent | internal/jcs/jcs.go:29-47 | Canonicalize accepts its own output and gives it back |
| JcsCanonical.CanonicalIsInjective | internal/jcs/jcs.go:149-200 | two values have equal canonical forms exactly when they are equal |
| JcsCanonical.SameBytesSameMeaning | internal/jcs/jcs.go:29-47 | two accepted documents have the same canonical bytes exactly when they mean the same value |
| JcsForm.CanonicalIsTheForm | internal/jcs/jcs.go:149-261 | the canonical bytes of a value are a document in canonical form (no white space, canonical strings and numbers, names ascending in UTF-16 units) that means it, and the only one |
| JcsForm.CanonicalizeIsTheForm | internal/jcs/jcs.go:29-47 | any bytes are accepted exactly when they are UTF-8 and an allowed document of the grammar whose numbers can all be printed; the result is then the one document in canonical form that means the same |
| JcsPermutation.MemberOrderIsIrrelevant | internal/jcs/jcs.go:178-194 | permuting the members of a document's objects, at any depth, and spelling or spacing it otherwise changes neither its meaning nor its canonical form |
| JcsCanonical.NoSurrogateIsReplaced | internal/jcs/jcs.go:29-47 | a document is accepted as JSON exactly when the strict reader accepts it, and then nothing was replaced |
| JcsCanonical.PreimagesAgreeIff | internal/jcs/jcs.go:59-77 | the preimages DigestExcluding hashes are equal exactly when the two objects have the same other member names and agree on every member but the excluded one, up to the form of numbers |
| JcsDoubles.PrintedIsRead | internal/jcs/jcs.go:202-219 | whatever the size and sign of a number, appendNumber's text (format 'f' or 'e' with the exponent's extra zero taken out) is a number literal, and its value is the number printed (section 3.2.2.3 of RFC 8785) |
| JcsDoubles.NumbersAreLiterals | internal/jcs/jcs.go:158-166 | number literals are exactly sign, whole part, fraction and exponent of the grammar, in any letter case and with any sign of the exponent, and each is worth what its parts say |
| JcsMagnitude.LiteralIsWorth | internal/jcs/jcs.go:158-166 | what a literal is worth, as a real number: the digits of both parts times ten to the exponent less the length of the fraction |
| JcsMagnitude.PrintsInForm | internal/jcs/jcs.go:202-219 | a number other than zero is printed in one of two shapes, the one with an exponent exactly when it is below 1e-6 or at least 1e21 in size, without leading or trailing zeros |
| JcsDoubles.TrimmedIsEcma | internal/jcs/jcs.go:212-216 | taking out the byte after the exponent's sign leaves format 'e' with the exponent in plain decimal, for one digit and for more |
| JcsDoubles.DoubleFormatIsLawful | internal/jcs/jcs.go:158-166 | if the shortest digits of a double round to it, ParseFloat and appendNumber together meet the law asked of number printing: what is printed is a number and prints as itself |
| JcsDoubles.DoubleFormatIsExact | internal/jcs/jcs.go:202-219 | every integer from 0 to 2^53 - 1 that rounding leaves alone comes out in the decimal form it had |
| JcsMachine.ReadFourHex | internal/jcs/jcs.go:307-326 | the digit loop computes the value of four hexadecimal digits, or refuses |
| JcsMachine.ValidUnicodeEscapes | internal/jcs/jcs.go:263-305 | the index-updating scanner loop decides the scanner predicate |
| JcsMachine.LessUtf16 | internal/jcs/jcs.go:221-230 | the comparison loop decides the UTF-16 order, said of the code units themselves |
| JcsMachine.SortNames | internal/jcs/jcs.go:178-186 | sorting a set of names gives its one sorted sequence, each name before the next in UTF-16 units |
| JcsMachine.AppendJSONString | internal/jcs/jcs.go:232-261 | the escaping loop appends exactly the quoted form |
| JcsMachine.AppendArray | internal/jcs/jcs.go:166-177 | the array loop appends the canonical form of the normal value, or stops at a number that has none |
| JcsMachine.AppendObject | internal/jcs/jcs.go:178-194 | the member loop appends the canonical form of the normal value, members in order |
| JcsMachine.AppendCanonical | internal/jcs/jcs.go:149-200 | succeeds exactly when every number can be printed, and then appends the canonical form |
| JcsDecoder.Decoder.Value | internal/jcs/jcs.go:92-147 | the consuming decoder reads what the parser function reads, with the same depth bound and the same failures |
| JcsDecoder.Decoder.Members | internal/jcs/jcs.go:123-147 | the member loop reads the object the parser function reads, duplicates refused |
| JcsDecoder.IsValidUtf8 | internal/jcs/jcs.go:29-32 | the byte loop decides UTF-8 validity |
| JcsDecoder.Run | internal/jcs/jcs.go:29-47 | the imperative Canonicalize equals the function, errors included |
| StoreState.CheckPlanValues | internal/callerstate/state.go:214-234 | the seen-set loop accepts exactly lists of identifiers without duplicates |
| StoreState.NextIsValidIff | internal/callerstate/store.go:122-181 | from its own stage and with arguments that pass, a binding's next state is valid exactly when the revision has room and the snapshot digest has its printed form; the stage advances by one and the plan stays |
| StoreBindings.BindHolds | internal/callerstate/store.go:122-221 | a Bind that returns no error leaves each argument in its own field, the operation with the plan's three identifiers and the token, BindCapabilities' digest the hash of the snapshot and BindTerminal's that of the reference, and every other field as it was, one revision on; an error changes nothing |
| StoreBindings.BindHoldsOnDisk | internal/callerstate/store.go:183-221 | and the document on the disk, now and after any crash, decodes to a state that holds the arguments so |
| StoreReach.ValidIffReachable | internal/callerstate/state.go:172-234 | with the revision its stage calls for, a state passes validateState exactly when bindings with arguments that pass make it from the first state of a valid plan |
| StoreMembers.StateMembers | internal/callerstate/state.go:41-109 | every field of the state stands under its member name of the contract, absent bindings as null |
| StoreMembers.ExecMembers | internal/callerstate/state.go:41-109 | the exec binding's operation, result digest and usage evidence digest stand under their own names |
| StoreMembers.TerminalMembers | internal/callerstate/state.go:41-109 | so do the terminal binding's operation, session, reference and digest |
| StorePlan.DrawPlan | internal/callerstate/state.go:127-150 | the loop gives each prefix its own random part, or nothing when randomness fails |
| StorePlan.NewPlanIsValid | internal/callerstate/state.go:127-150 | whatever the randomness, the twenty-one identifiers newPlan makes pass validPlan |
| StorePlan.NewPlanFields | internal/callerstate/state.go:127-150 | each of the twenty-one identifiers is its own prefix, a dash and its own random part |
| StorePlan.CreationNeverBlamesThePlan | internal/callerstate/state.go:111-125 | whatever the randomness and the disk do, creating a store with the plan drawn for it never fails with the invalid-state error |
| StoreWrite.WriteIsAtomic | internal/callerstate/store.go:343-385 | stopped or failing anywhere, an atomic write leaves the state file, now and after a crash, an old document or the whole new one; success means it is the new one for good |
| StoreWrite.FillMakesWhole | internal/callerstate/store.go:367-370 | writing, fixing the mode and syncing touch only the temporary file and, when all work, make it whole, private and synced |
| StoreWrite.RenamePublishes | internal/callerstate/store.go:371-374 | the rename alone is all or nothing, with the old document still possible after a crash |
| StoreWrite.SyncSettles | internal/callerstate/store.go:375-384 | syncing the directory makes the new document the only one a crash can leave |
| StoreSafety.CreationIsAtomic | internal/callerstate/store.go:42-66 | creating the store leaves the file absent or whole, and success means memory and disk agree now and after any crash |
| StoreSafety.ApplyKeepsInv | internal/callerstate/store.go:100-221 | in every reachable state the disk holds the state in memory or its one-step successor; a call without error has confirmed them equal |
| StoreSafety.BindOutcomes | internal/callerstate/store.go:183-221 | a Bind that returns no error started from agreement at its own stage and advanced memory and disk by exactly its step; one that returns an error leaves memory as it was |
| StoreService.BindSucceedsIff | internal/callerstate/store.go:183-221 | from a clean root a Bind returns no error exactly when the store is open in the binding's stage, the arguments pass, the next state is valid with a document of a size that is written, and the disk answers every operation well, writes in any number of positive steps; the root is then clean again |
| StoreService.CreationSucceedsIff | internal/callerstate/store.go:42-66 | and creation from an empty root exactly when a plan was drawn, its first state can be written, and the disk answers well |
| StoreService.ConfirmsIff | internal/callerstate/store.go:100-120 | whatever is on the disk, the state in memory is confirmed exactly when its file is alone, private, of that size and decodes to it, and the disk answers well |
| StoreService.AheadSaysChanged | internal/callerstate/store.go:100-120 | a store whose disk is a step ahead says that the state has changed, whenever the disk answers well |
| StoreSafety.AheadRefuses | internal/callerstate/store.go:183-221 | once the disk is ahead of memory every Bind and every ValidateUnchanged fails and neither moves |
| StoreSafety.AheadForever | internal/callerstate/store.go:183-221 | and so it stays over any sequence of calls |
| StoreSafety.CompleteIsFinal | internal/callerstate/store.go:183-190 | no Bind succeeds from initial_complete, and a refused one touches nothing |
| StoreSafety.CallsStayInStep | internal/callerstate/store.go:183-221 | over any calls the revision is one more than the number of bound stages, it grows by the number of successful Binds, and the plan never changes |
| StoreSafety.CrashLeavesACommittedState | internal/callerstate/store.go:343-385 | after a crash at any point of a run the file is the whole document of the state in memory or of its one-step successor |
| StoreSafety.SettledSurvivesCrash | internal/callerstate/store.go:343-385 | what a successful call has confirmed no crash takes back |
| StoreSafety.CompleteReopens | internal/callerstate/store.go:71-90 | after a crash reconstruction opens a confirmed complete state, and no other, exactly when the state file is alone in the root and every operation on the disk works |
| StoreSafety.OpensIff | internal/callerstate/store.go:71-90 | whatever is on the disk, reconstruction opens a state exactly when it is complete and valid, its file is alone, private and of at most 64 KiB, its bytes decode to it, and the disk answers all fifteen operations |
| StoreSafety.CrashDuringCreation | internal/callerstate/store.go:42-66 | a crash during creation leaves no file or the whole first document, and reconstruction refuses both |
| StoreSafety.WhatReconstructionAccepts | internal/callerstate/store.go:71-90 | from an empty root through creation, any calls, any disk answers and a crash anywhere, the file holds a committed state of the run's plan, and reconstruction accepts only its complete revision 6 |
| StoreCodec.CanonicalCodecIsLawful | internal/callerstate/store.go:398-435 | a codec that prints canonical JSON and decodes only bytes equal to their own canonical form reads back every valid state it wrote |
| StoreDocument.PlanReadsBack | internal/callerstate/state.go:57-77 | the plan written member by member is the plan read back, under its thirteen distinct names |
| StoreLaw.StateReadsBack | internal/callerstate/state.go:41-109 | the tree of any valid state, absent bindings as null, is read back as that state |
| StoreLaw.StateTreeIsLawful | internal/callerstate/store.go:398-435 | the trees of valid states are shallow, are their own normal form and read back, for any printing that keeps exact integers |
| StoreLaw.StoreCodecIsLawful | internal/callerstate/store.go:343-435 | with canonical JSON of the state's own members every valid state has a document and reads back from it, as the store's theorems ask |
| StoreLaw.StoreCodecIsLawfulOverDoubles | internal/callerstate/store.go:343-435 | with the source's number printing the only thing left to ask of numbers is that rounding to a double is idempotent and keeps integers up to 2^53 - 1 |
| StoreObjects.Root.WriteWhole | internal/callerstate/store.go:387-396 | the partial-write loop equals its specification for every script of short writes and errors |
| StoreObjects.Root.AtomicWriteState | internal/callerstate/store.go:343-385 | the imperative atomic write, with its deferred removal, equals its specification |
| StoreObjects.Root.Read | internal/callerstate/store.go:398-435 | reading gives a state exactly when all checks work on a private file of sane size that decodes to a valid state |
| StoreObjects.StoreObject.Transition | internal/callerstate/store.go:183-221 | closed, wrong stage, root, contents, changed, invalid next, write and read-back, in the source's order, with the new memory and disk |
| StoreObjects.StoreObject.BindCapabilities | internal/callerstate/store.go:122-133 | checks its arguments and is the binding of its name: without an error the revision, the hash of the snapshot, the policy digest and the time are in the provider binding, and every other field is as before; with one the state is |
| StoreObjects.StoreObject.BindLifecycle | internal/callerstate/store.go:135-144 | checks its arguments and is the binding of its name: without an error the create operation of the plan is bound with the token, and every other field is as before; with one the state is |
| StoreObjects.StoreObject.BindExec | internal/callerstate/store.go:146-156 | checks its arguments and is the binding of its name: without an error the exec operation of the plan is bound with the token, the result digest and the usage digest, each in its own field, and every other field is as before; with one the state is |
| StoreObjects.StoreObject.BindTerminal | internal/callerstate/store.go:158-169 | checks its arguments and is the binding of its name: without an error the terminal operation is bound with the token, session, reference and the reference's hash, and every other field is as before; with one the state is |
| StoreObjects.StoreObject.BindArtifact | internal/callerstate/store.go:171-181 | checks its arguments and is the binding of its name: without an error the artifact operation is bound with the token and the evidence digest, and every other field is as before; with one the state is |
| StoreObjects.StoreObject.ValidateUnchanged | internal/callerstate/store.go:100-120 | refuses a closed store, a foreign root and a changed document, and changes nothing |
| StoreObjects.CreateInitialStore | internal/callerstate/store.go:42-66 | the constructor path equals its specification, with a store exactly on success |
| StoreObjects.OpenReconstructionStore | internal/callerstate/store.go:71-90 | the reopening path equals its specification, with a store exactly on success |
| CallerRun.InitialRunCompletes | internal/callerapp/run.go:84-106 | for any executor behaviour through the store's interface a successful initial run takes planned revision 1 to initial_complete revision 6, one stage per revision and case, on the same plan, with the disk equal to memory |
| CallerRun.ReconstructionChangesNothing | internal/callerapp/run.go:84-106 | a reconstruction run, successful or not, leaves state and root as it opened them, and succeeds only on revision 6 |
| CallerRun.CaseSettles | internal/callerapp/run.go:108-152 | a case that succeeds has passed its gate, ends in its own stage on the same plan, and leaves disk and memory equal |
| CallerRun.GateFixesStage | internal/callerapp/run.go:115-142 | the gate of a case fixes the stage after it, and from the planned stage lets only the capability case through |
| CallerSuccess.GateIff | internal/callerapp/run.go:115-142 | whatever calls a case makes of the store, its gate opens exactly when the case belongs to the phase, started in its own stage and leaves the store in its own stage, the two stages of each case being a table |
| CallerSuccess.CaseSucceedsIff | internal/callerapp/run.go:108-152 | from a clean store in the case's stage, a case whose executor makes its one right binding, or none where none is due, exits 0 exactly when result and output go well and the disk answers well, and with 70, 65 or 74 by what goes wrong; a success leaves the next stage, clean |
| CallerSuccess.InitialRunSucceedsIff | internal/callerapp/run.go:84-106 | from a planned store, clean on disk, a run of the fifteen cases whose executor makes the five right bindings in their own cases and nothing else exits 0 exactly when every turn and the ending go well and the disk answers well, and the state is then what the five bindings make; otherwise the first thing to go wrong decides between 65, 70 and 74 |
| CallerSuccess.ReconstructionRunSucceedsIff | internal/callerapp/run.go:84-106 | and from a complete store a run of the five cases that leaves the store alone exits 0 under the same condition, with the store as it was |
| CallerObjects.RunScenario | internal/callerapp/run.go:108-152 | the imperative case, over a live store, equals its specification with its exit codes |
| CallerObjects.RunWithScenarios | internal/callerapp/run.go:84-106 | the imperative run, with its continuation loop, end-of-input check and final validation, equals its specification |
| OutputStream.PumpWritesHead | internal/protocol/output.go:207-222 | however the stream answers, the write loop puts out a head of the document, and all of it exactly when every answer makes progress |
| OutputStream.TakenIff | internal/protocol/output.go:180-225 | a record is taken exactly when nothing has failed, it fits the 2 MiB and the 64 KiB with the line feed counted in the first, it is one of the first 33, and the stream takes all of it; the stream then holds it and its line feed |
| OutputStream.WriteAllIsExact | internal/protocol/output.go:180-225 | over any records the stream stays whole records and at most one partial one, with exact counters within their limits, and a failed encoder never writes again |
| OutputStream.StreamHoldsWholeRecords | internal/protocol/output.go:168-231 | from a fresh encoder the accepted bytes are the complete records followed by at most one partial record, and the byte and record counts are exact and within 2 MiB and 33 |
| OutputStream.OutputEncoder.WriteLine | internal/protocol/output.go:207-224 | the partial-write loop equals its specification |
| OutputStream.OutputEncoder.Write | internal/protocol/output.go:180-225 | the encoder's checks and loop, in order, equal their specification |
| PhaseTranscript.ApplyKeepsInv | internal/protocol/machine.go:146-366 | every method call in every state keeps the transcript invariant |
| PhaseTranscript.TranscriptFollowsGrammar | internal/protocol/machine.go:146-316 | under any order of calls and any writer the records are a prefix of the grammar over one phase's cases, numbered without gaps, at most 33, and an accepted invocation names the phase of those cases |
| PhaseTranscript.LimitsNeverStopARun | internal/protocol/machine.go:348-359 | neither the sequence limit of 32 nor the record limit is ever what refuses a call |
| PhaseTranscript.NothingFollowsTheEnd | internal/protocol/machine.go:146-366 | after a terminal record or a failure no calls add a record or a byte |
| PhaseTranscript.CompletedIffEveryCaseCompleted | internal/protocol/machine.go:279-298 | the last record says "completed" exactly when the transcript is the one in which every case was started and completed |
| PhaseTranscript.EndIsObserved | internal/protocol/machine.go:318-346 | after its terminal record a run is complete by the end of the output and then a clean exit, and every other call makes it failed |
| PhaseTranscript.BytesAreTheTranscript | internal/protocol/machine.go:146-359 | the stream's bytes are the marshalled records of a grammatical transcript, each with its line feed, and at most one torn record after which the encoder is failed |
| PhaseObject.PhaseMachine.ConsumeInvocation | internal/protocol/machine.go:160-188 | the object's call equals the machine's; it succeeds exactly in its state on an invocation that decodes, matches and is of a known phase, the expected one if there is one, and binds it; a bad one appends exactly the invalid-invocation record |
| PhaseObject.PhaseMachine.Result | internal/protocol/machine.go:245-277 | the object's call equals the machine's; without an error it appends exactly one record, with the next number, the bound invocation and the argument itself, and with one it appends nothing |
| PhaseObject.PhaseMachine.StartScenario | internal/protocol/machine.go:224-243 | the object's call equals the machine's; without an error it appends exactly the start record of the argument |
| PhaseObject.PhaseMachine.Finish | internal/protocol/machine.go:279-298 | the object's call equals the machine's; without an error it appends exactly one finish record, stopped when any case was not executed and else completed |
| PhaseObject.PhaseMachine.Fail | internal/protocol/machine.go:300-316 | the object's call equals the machine's; without an error it appends exactly one error record with the argument's code, one of the five public ones |
| PhaseObject.PhaseMachine.WriteRecord | internal/protocol/machine.go:348-359 | the sequence guard, the record and the next number equal the machine's |
| AdapterRun.ExitZeroMeansOneTerminalRecord | internal/adapterapp/run.go:41-147 | exit code 0 with an empty argument list means exactly one terminal record was written, and it is the last |
| AdapterTranscript.AdapterWritesItsTranscript | internal/adapterapp/run.go:41-171 | for every stream and all surroundings the adapter's records are those its surroundings call for, listed in closed form with their numbers and the data of the caller's own answers, up to the first that the stream does not take; it exits 74 if there is one, and else 70 exactly after a caller that did not close cleanly, or 0 |
| AdapterRun.FinishNeedsEveryAnswer | internal/adapterapp/run.go:88-128 | a supervised run that exits 0 on a finish record had every case answered, completed, valid and for itself, and closed its caller cleanly |
| AdapterRun.NoCallerMeansStopped | internal/adapterapp/run.go:132-146 | without a caller a run that gets to the end says "stopped" |
| AdapterRun.RunIsSound | internal/adapterapp/run.go:41-171 | any condition that every call of the machine keeps holds at the end of every run, and success stands only in the terminal state |
| AdapterObjects.PlayAll | internal/adapterapp/run.go:88-120 | the supervising loop equals its specification |
| AdapterObjects.Run | internal/adapterapp/run.go:41-147 | the imperative process over a live machine equals its specification with its exit codes, and from a new machine it writes the transcript of its surroundings as above |
| AdapterPipeline.ResultsFollowExecution | internal/adapterapp/run.go:88-120 | in every run of adapter, session, caller and executor, when the completed result of the k-th locked case is emitted the executor has run exactly cases 1 to k, once each and in order, each after its announcement, and the log so far is their strict alternation |
| AdapterPipeline.FinishedMeansAllExecuted | internal/callerprocess/runner.go:271-351 | an adapter that gets through every case has a caller that ran them all and exited with code 0 |
| AdapterPipeline.RunsCanFinish | internal/callerprocess/runner.go:271-351 | from every moment of every run in which neither process has failed, steps lead to the finish with every case announced, begun, executed and reported in locked order and the caller gone with code 0 |
| AdapterPipeline.AdapterKeepsInv | internal/callerprocess/runner.go:271-310 | every step of the adapter and its session, failures included, keeps the lockstep |
| AdapterPipeline.CallerKeepsInv | internal/callerapp/run.go:84-106 | every step of the caller and its executor, death included, keeps the lockstep |
| Qualification.StepKeepsPlay | internal/adapterapp/run.go:41-171 | every step of adapter, session, caller and executor keeps: the adapter's machine is where RunCases with the answers heard so far puts it, the store is where the reported turns of RunCases put it, and a turn stands behind every result |
| Qualification.AdapterIsRunCases | internal/adapterapp/run.go:88-171 | in every such run, whatever code the adapter exits with, its machine and its code are those of RunCases on the answers it heard from the session |
| Qualification.FinishedInitialMeansCompleteStore | internal/callerapp/run.go:84-152 | when the adapter has exited with code 0 behind a finish record of the initial phase, the caller's store has gone from planned revision 1 to complete revision 6 on one plan, a stage for every case, with the disk equal to memory |
| Qualification.FinishedReconstructionLeavesStore | internal/callerapp/run.go:84-106 | a finish of the reconstruction phase means that the root held revision 6 and holds the same state unchanged |
| Qualification.ResultsStandOnTheStore | internal/callerapp/run.go:108-152 | when the k-th completed result is emitted the caller has run and reported the cases up to it, each past its gate, and the k-th left the store settled in that case's own stage on the same plan |
| SessionObjects.Session.Run | internal/callerprocess/runner.go:271-310 | only the next locked case is run and answered; anything else ends the session; the last case needs a clean exit |
| SessionObjects.WrittenIsSendCommand | internal/callerprocess/runner.go:271-310 | writing the due command is the machine's SendCommand, and a failed write ends the session in both |
| SessionObjects.ResultIsTaken | internal/callerprocess/runner.go:271-310 | the session's verdict on a result, and on the caller's exit after the last one, is that of the machine's TakeResult and SessionFinish |
| SessionObjects.EndedIsGiveUp | internal/callerprocess/runner.go:271-310 | a session that gives up before it writes, or on a result that never comes, is the machine's GiveUp |
| SessionObjects.Executor.Execute | internal/callerprovider/initial_scenarios.go:79-228 | a case runs exactly when it is the one due and its body succeeds; otherwise nothing advances |
| SessionObjects.Executor.ExecuteAll | internal/callerapp/run.go:84-97 | of any commanded cases the executor runs the longest prefix that is due in order |
| SessionObjects.ExecuteIsTwoSteps | internal/callerprovider/initial_scenarios.go:79-228 | a call of Execute is the machine's ReadCommand and FinishExecute: its body begins exactly if the case is due, and only its success is counted and logged |
| GatewayExchange.StepKeepsInv | internal/gatewayprocess/service.go:386-526 | every step of the callers, the pipes and the child keeps the invariant of one command in flight |
| GatewayExchange.AcceptedRepliesAreOwn | internal/gatewayprocess/service.go:478-526 | with any number of threads the reply an exchange accepts is the child's reply to that very command, and accepted numbers rise |
| GatewayExchange.ChildSeesNoGap | internal/gatewayservice/serve.go:119-140 | the child never reads a command out of turn within its 256 |
| GatewayExchange.StoppedIsLast | internal/gatewayprocess/service.go:386-446 | after a successful stop nothing is in flight and nothing is ever sent or accepted again |
| GatewayExchange.NothingFollowsStopped | internal/gatewayprocess/service.go:427-438 | an accepted "stopped" answers a stop, is the last accepted reply, and leaves nothing in either pipe |
| GatewayExchange.CallReachesTheChild | internal/gatewayprocess/service.go:478-526 | a call on a service that is neither stopped nor aborted, with nothing under way and a number left, can reach the child |
| GatewayExchange.ExchangeCompletes | internal/gatewayprocess/service.go:478-526 | and its reply can be accepted, with nothing aborted and the child ready for the next call until the 256th |
| GatewayExchange.StopCompletes | internal/gatewayprocess/service.go:386-446 | and a stop can succeed, its own reply accepted and the end of the stream seen |
| GatewayExchangeObjects.CommandLoop | internal/gatewayservice/serve.go:119-140 | the loop writes the answers to its commands, and returns gracefully exactly after a "stopped" |
| GatewayExchangeObjects.AnswersInOrder | internal/gatewayservice/serve.go:119-140 | replies are numbered without gaps and answer the commands in order, up to the first stop, the first bad or misplaced command, or the 256th |
| GatewayExchangeObjects.ChildAnswers | internal/gatewayservice/serve.go:119-140 | on any readable commands the loop writes exactly the replies of the machine's child steps |
| GatewayExchangeObjects.ServiceObject.Exchange | internal/gatewayprocess/service.go:478-526 | refused without a trace exactly when stopped, aborted or late; else one number is spent, and a reply is returned exactly when it is within the 256, was written and carries that number; any other outcome aborts the service |
| GatewayExchangeObjects.ServiceObject.StopService | internal/gatewayprocess/service.go:386-446 | graceful exactly when the reply to its own number says stopped and the stream then ends; otherwise aborted |
| GatewayExchangeObjects.UnsentIsSendFails | internal/gatewayprocess/service.go:386-526 | an exchange or stop that cannot be written is the machine's SendFails, whatever of the command got through |
| GatewayExchangeObjects.AnsweredIsReceive | internal/gatewayprocess/service.go:386-526 | an exchange or stop that finds a reply is the machine's Receive, and returns that reply exactly when the machine accepts it |
| GatewayExchangeObjects.RefusedIsRefuse | internal/gatewayprocess/service.go:386-526 | an exchange or stop that is refused before a number is spent is the machine's Refuse |
| GatewayExchangeObjects.SentIsSend | internal/gatewayprocess/service.go:386-526 | a command written in full is the machine's Send |
| GatewayExchangeObjects.UnansweredIsReceiveFails | internal/gatewayprocess/service.go:386-526 | an exchange or stop that finds no readable reply is the machine's ReceiveFails |
| GatewayExchangeObjects.EndIsSeen | internal/gatewayprocess/service.go:427-446 | after its "stopped" a stop succeeds by the machine's SeeEnd at the end of the stream and aborts by MissEnd at anything else |
| GatewayChild.StepKeepsSystem | internal/gatewayservice/serve.go:123-139 | every step of callers, pipes, command loop, handlers and Gateway keeps: one command in flight, the service invariant, the loop's place in the command it serves, and every reply in the pipe or accepted true of the service |
| GatewayChild.RevokeReachesTheChild | internal/gatewayservice/serve.go:227-234 | once the caller has accepted "revoked" for a token, then and ever after no BeginConnect with that token succeeds in the child, for any subject, and every permit of its grant is cancelled and flagged closed (with fresh tokens) |
| GatewayChild.IssueReachesTheChild | internal/gatewayservice/serve.go:206-226 | once the caller has accepted a key for its request, then and ever after BeginConnect with that key succeeds in the child exactly for the request's subject before its expiry, unless the grant has been used or revoked (with fresh tokens) |
| GatewayChild.AnsweredIff | internal/gatewayservice/serve.go:192-234 | when the child answers an issue command with a key, gets as far as revoking, and takes a policy, each exactly when |
| GatewayChild.AnsweredCallCompletes | internal/gatewayservice/serve.go:119-140 | a call that the child's Gateway answers at once can run to its end from every reachable state in which the child waits for one, and the caller then has accepted that very answer |
| GatewayChild.StopReachesTheChild | internal/gatewayprocess/service.go:386-446 | once Stop has returned nil, then and ever after no handler in the child is past the closing gate, every permit it ever made is closed, cancelled and done, and both copy threads of every tunnel have ended |
| Framing.RecordIsNextLine | internal/scenariocontrol/control.go:372-395 | whatever the fragmentation and errors, a record returned is what the stream held up to its next line feed, within the limit, and just that much is consumed |
| Framing.LineIsRead | internal/scenariocontrol/control.go:372-395 | however a source without errors chops it up, with up to ninety-nine empty reads in a row and whatever the buffer size, a line within the limit is read back as it is |
| Framing.SentRecordsAreReceived | internal/gatewayservice/control.go:229-263 | records sent through short writes and read back through any such fragmentation, empty reads included, come out as they went in, in order, with nothing left over |
| Framing.SentAreLines | internal/scenariocontrol/control.go:397-414 | what goes out is exactly the records, each with its line feed, whenever every send succeeds |
| Framing.LineGoesOutIff | internal/scenariocontrol/control.go:397-414 | a record goes out exactly when it fits the limit with its line feed and the stream takes all of it |
| Framing.BufferedReader.ReadBoundedRecord | internal/scenariocontrol/control.go:372-395 | the accumulating loop equals its specification and never holds more than the limit |
| Framing.WriteRecord | internal/scenariocontrol/control.go:397-414 | the write loop equals its specification |
| AdmissionRoutes.TargetTellsOperation | internal/provider/admission.go:385-423 | one endpoint matches at most one operation, on one sandbox or operation identifier |
| AdmissionRoutes.MutationEndpoints | internal/provider/admission.go:385-423 | the one target of each operation that changes something, written out |
| AdmissionRoutes.ReadEndpoints | internal/provider/admission.go:385-423 | the one target of each operation that reads a sandbox, an operation or a result, and of the connect, written out |
| Admission.BuiltEnvelopeOkIff | internal/provider/client.go:406-452 | what the builder assembles passes the client's envelope check exactly when its lifetime survives rounding down to seconds |
| Admission.EnvelopeIffBuilt | internal/provider/client.go:406-452 | the client's check of everything but the clock takes exactly the admissions that BuildAdmission makes of some authority, signer and binding in whole seconds |
| Admission.AcceptedIff | internal/provider/client.go:329-335 | at any time in nanoseconds exactly the admissions such a builder makes are taken whose nbf has come, whose exp has not, and whose own deadline has not |
| Admission.BuildsIff | internal/callerprovider/coordinator.go:372-419 | when the libraries answer, an admission is built of a valid state exactly for one of its two tenants with its own work order and policy, a well-formed request to its own endpoint, a deadline ahead of the clock, an identifier drawn, and a header and authority that pass |
| Admission.AdmittedFields | internal/callerprovider/coordinator.go:372-419 | what is admitted field by field: the request's own terms, the tenant's work order and policy, the provider's revision and time, the access's issuer, subject and audience, in claims and context alike |
| Admission.AcceptedExactlyUntil | internal/callerprovider/coordinator.go:372-419 | iat and nbf are the clock's second, exp is at most sixty later, and the admission is accepted at any time exactly when the deadline is in a later second than the building, that time's second is from nbf on and before exp, and it is before the deadline |
| Admission.AcceptedWithASecondToSpare | internal/provider/client.go:329-335 | with more than a second to the deadline it is accepted at once and at every later time before exp and the deadline |
| AdmissionWitness.SubSecondDeadlineCanBeRefused | internal/callerprovider/exec_terminal.go:16-26 | an exec over a valid lifecycle_bound state and a clock at which boundedDeadline grants a deadline, the builder succeeds, and the client refuses what was built, then and later |
| AdmissionWitness.LaterSecondThanTheGrantCanBeRefused | internal/callerprovider/exec_terminal.go:16-26 | the same exec with a deadline in a later second than its grant: built in the deadline's own second it is refused, built at the grant it would be accepted |
| AdmissionWitness.AttemptServesIff | internal/callerprovider/exec_terminal.go:16-26 | on that state and plan, for all clocks and limits, the exec's admission is built whenever the granted deadline is still ahead, and accepted exactly while the deadline is in a later second |
| Admission.BoundedDeadlineServesIff | internal/callerprovider/exec_terminal.go:167-186 | granted at one reading of the clock, built at a later one and checked at a third, an admission is accepted exactly when the granted deadline is in a later second than the check |
| Admission.NeverIssuedBeforeItsPolicy | internal/callerprovider/coordinator.go:421-426 | no admission's iat precedes a policy decision recorded earlier |
| Admission.ReadAdmissionIsUsable | internal/callerprovider/coordinator.go:333-366 | a read admission built for a descriptor passes the client's check for that descriptor's contract and path, at once and until exp or the deadline |
| Admission.DigestIgnoresItself | internal/provider/admission.go:270-276 | filling the context digest in does not change what the client recomputes |

## Left out

- TLS, X.509, PEM, Ed25519, HTTP, WebSocket and base64: foreign libraries; signing, hashing and encoding are parameters.
- SHA-256 and random tokens: a bearer is named by its digest, draws are inputs, and freshness of draws is a hypothesis where a property needs it.
- Shapes of bearer tokens, subjects, URIs and opaque references in the Gateway: one flag of the request or an absent key.
- One transport handed to Attach as both ends: the model closes two distinct transports.
- GatewayWaiting.RevokeCanReturn: says that a way to the acknowledgement always exists, not that a scheduler takes it; Revoke itself gives up when its context ends first.
- CallerSuccess.InitialRunSucceedsIff: stated for executors that make the five bindings and no other call; what any executor can do at all is CallerRun.InitialRunCompletes and CallerSuccess.GateIff.
- GatewayTunnel.GoodRequestIsServed: says that a good request can get its tunnel, not that a scheduler lets it.
- GatewayExchange.ExchangeCompletes: says that a call can go through, not that a scheduler lets it.
- GatewayDrain.StopCanAlwaysBeAnswered: says that a way to "stopped" always exists, not that a scheduler takes it; a backend or client that never ends is a step never taken.
- The HTTP server's own connection bookkeeping and its closing: the service waits for handlers, whose end is a step that may come at any time.
- strconv: rounding a literal to the nearest double and finding that double's shortest digits are a parameter, which has to be idempotent; the bounds 1e-6 and 1e21 are read off the point of those digits.
- GatewayLockstep.PurgingCannotBeSeen: the Gateway that never purges counts against the limit of 64 what the other would have left in its table.
- The adapter's second check of a result that its session has checked already: in `Qualification` a result that fails it fails in the session.
- The scanner of encoding/json: the reader here is written from what that scanner does, invalid escapes and lone surrogates included; that it takes exactly the grammar of RFC 8259 is proved of the reader.
- encoding/json on typed values: documents start as bytes or trees; DigestExcluding is stated on trees.
- Permission, symlink and same-file checks of the state root and file: read-only operations that may fail; nobody else writes the root.
- StoreLaw.StateReadsBack: encoding/json also matches member names of inner objects that differ in case only; the model refuses them, and no document the store writes has one.
- Schema validation of output records: the marshaller is any function from records to documents or a refusal.
- Decoding of invocations, requests, commands and replies by variant: their verdict is an input.
- Credentials, release identity and capability selection: verdicts that are inputs.
- Process launch, pipes, signals, deadlines and reaping: a step of the other side may fail at any time instead.
- ServiceRunner's ownership flag under concurrent starts: a failed start releases it twice, so it is not claimed to exclude.
- Scenario bodies, polling loops and result literals: the executor is an arbitrary sequence of store calls with an arbitrary outcome.
- Mutation admissions: the same builder and envelope as read admissions, with another field comparison.
- internal/callerphase and the coordinator's phase driver, capability constants, release building, authority locks and the commands: mostly constants and input and output.
