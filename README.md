# Saros: Jupiter document server, stop-activity handshake, resource-delta printer

This project models three parts of Saros, a tool for editing documents together in real time.

- **`Jupiter` (jupiter.dfy).** This is the host-side multiplexer of Jupiter operational transformation for one shared document. The class `JupiterDocumentServer` keeps a table from participant (JID) to that participant's server-side Jupiter proxy. A participant can join, leave, or be reset to a fresh proxy.
  - An inbound edit goes through the sender's proxy. Every other proxy then generates one outbound edit, so the sender never gets its own edit back.
  - `updateVectorTime` seeds one proxy with another's vector time, components swapped.
  - A checksum report is either discarded as stale or re-stamped with each other participant's vector time.
  - The Jupiter proxy itself is abstract. A proxy is a value holding its vector time `(local, remote)` and its pending operations. What `receive`, `generate` and `isCurrent` do is an unknown behaviour (`ProxyBehaviour`), given to the server when it is created. The contracts are about the table's bookkeeping: which keys a result has, which proxies change and how, and what is left untouched.
- **`StopActivity` (stop_activity.dfy).** A request to lock or unlock a participant, with the two-state handshake INITIATED → ACKNOWLEDGED, as immutable values. Every field that Java allows to be null is an `Option`.
- **`ResourceDeltaVisitor` (resource_delta_visitor.dfy).** The debugging visitor that appends one line per resource delta to a text buffer. The line holds a kind code, the flag letters of a content change, the resource path with its version-control information, and a line break.
- `Optional` (optional.dfy) holds the `Option` type the other modules share.

Two preconditions come from unguarded dereferences in the code:
- **The sender must have a proxy.** `transformJupiterActivity` and `withTimestamp` call the sender's proxy without checking that it exists (JupiterDocumentServer.java:54-55 and 118-120). A missing proxy ends in a NullPointerException. Neither is a TransformationException, and neither is a handled outcome.
- **`updateVectorTime` with a missing proxy.** When the *source* proxy is missing, `updateVectorTime` only logs. When the source is present and the destination missing, it dereferences null (line 90). So the precondition is `source in proxies ==> dest in proxies`.

## Model

| member | source | states |
|---|---|---|
| Jupiter.JupiterDocumentServer.constructor | de.fu_berlin.inf.dpp/src/de/fu_berlin/inf/dpp/concurrent/jupiter/internal/JupiterDocumentServer.java:29-35 | A new server has no proxies, remembers its document path, and uses the given proxy behaviour |
| Jupiter.AddedProxy | de.fu_berlin.inf.dpp/src/de/fu_berlin/inf/dpp/concurrent/jupiter/internal/JupiterDocumentServer.java:37-40 | After a join the keys are the old keys plus the id; every existing proxy is kept as it was; a new id gets a fresh proxy |
| Jupiter.JupiterDocumentServer.AddProxyClient | de.fu_berlin.inf.dpp/src/de/fu_berlin/inf/dpp/concurrent/jupiter/internal/JupiterDocumentServer.java:37-40 | The new table is `AddedProxy` of the old one |
| Jupiter.AddIdempotent | de.fu_berlin.inf.dpp/src/de/fu_berlin/inf/dpp/concurrent/jupiter/internal/JupiterDocumentServer.java:37-40 | Joining twice has the same effect as joining once |
| Jupiter.RemovedProxy | de.fu_berlin.inf.dpp/src/de/fu_berlin/inf/dpp/concurrent/jupiter/internal/JupiterDocumentServer.java:42-44 | After a leave the id is absent and every other proxy is unchanged |
| Jupiter.JupiterDocumentServer.RemoveProxyClient | de.fu_berlin.inf.dpp/src/de/fu_berlin/inf/dpp/concurrent/jupiter/internal/JupiterDocumentServer.java:42-44 | Returns true iff the id had a proxy before; the new table is `RemovedProxy` of the old one |
| Jupiter.LeaveUndoesJoin | de.fu_berlin.inf.dpp/src/de/fu_berlin/inf/dpp/concurrent/jupiter/internal/JupiterDocumentServer.java:37-44 | A join of a new participant followed by its leave restores the table exactly |
| Jupiter.ResetProxy | de.fu_berlin.inf.dpp/src/de/fu_berlin/inf/dpp/concurrent/jupiter/internal/JupiterDocumentServer.java:104-107 | A reset keeps the key set; a present id gets a fresh proxy; every other proxy is untouched; an absent id creates nothing |
| Jupiter.JupiterDocumentServer.Reset | de.fu_berlin.inf.dpp/src/de/fu_berlin/inf/dpp/concurrent/jupiter/internal/JupiterDocumentServer.java:104-107 | Implemented, as in the source, by a remove and then a conditional add; the new table is `ResetProxy` of the old one |
| Jupiter.ResetIsRemoveThenAdd | de.fu_berlin.inf.dpp/src/de/fu_berlin/inf/dpp/concurrent/jupiter/internal/JupiterDocumentServer.java:104-107 | Reset equals leave-then-join when the leave removed something, and equals the leave (a no-op) otherwise |
| Jupiter.ResetIdempotent | de.fu_berlin.inf.dpp/src/de/fu_berlin/inf/dpp/concurrent/jupiter/internal/JupiterDocumentServer.java:104-107 | Resetting twice is resetting once |
| Jupiter.AdvancedProxies | de.fu_berlin.inf.dpp/src/de/fu_berlin/inf/dpp/concurrent/jupiter/internal/JupiterDocumentServer.java:53-73 | After a transformation the key set is unchanged; the sender's proxy is what `receive` left; every other proxy has generated exactly once |
| Jupiter.Outbound | de.fu_berlin.inf.dpp/src/de/fu_berlin/inf/dpp/concurrent/jupiter/internal/JupiterDocumentServer.java:57-73 | The outbound activities go exactly to the registered ids minus the sender; each is what that recipient's proxy generated |
| Jupiter.JupiterDocumentServer.TransformJupiterActivity | de.fu_berlin.inf.dpp/src/de/fu_berlin/inf/dpp/concurrent/jupiter/internal/JupiterDocumentServer.java:46-76 | Requires the sender to be registered. If `receive` fails, the error is returned and no proxy changes. Otherwise the result is `Outbound` and the new table is `AdvancedProxies`, both for the canonical operation `receive` produced |
| Jupiter.JupiterDocumentServer.GenerateOutbound | de.fu_berlin.inf.dpp/src/de/fu_berlin/inf/dpp/concurrent/jupiter/internal/JupiterDocumentServer.java:59-73 | The loop over all entries skips the sender and lets each other proxy generate once. The loop invariants prove that it builds exactly `Outbound` and leaves exactly `AdvancedProxies` |
| Jupiter.SenderProxyNotUsed | de.fu_berlin.inf.dpp/src/de/fu_berlin/inf/dpp/concurrent/jupiter/internal/JupiterDocumentServer.java:53-70 | Generating for the others never reads the sender's proxy, so updating that proxy before the loop does not change the outbound activities |
| Jupiter.OutboundCount | de.fu_berlin.inf.dpp/src/de/fu_berlin/inf/dpp/concurrent/jupiter/internal/JupiterDocumentServer.java:57-73 | A registered sender's edit produces exactly one outbound activity for each of the other participants (`|m| - 1` in all) |
| Jupiter.FanOutThree | de.fu_berlin.inf.dpp/src/de/fu_berlin/inf/dpp/concurrent/jupiter/internal/JupiterDocumentServer.java:57-73 | In a three-participant session, an edit from one participant goes to exactly the two others |
| Jupiter.JupiterDocumentServer.IsExist | de.fu_berlin.inf.dpp/src/de/fu_berlin/inf/dpp/concurrent/jupiter/internal/JupiterDocumentServer.java:78-83 | True iff the id has a proxy |
| Jupiter.SeededProxies | de.fu_berlin.inf.dpp/src/de/fu_berlin/inf/dpp/concurrent/jupiter/internal/JupiterDocumentServer.java:85-101 | The destination's time becomes `(source.remote, source.local)` and its pending operations stay; no other proxy and no key changes; without a source proxy the table is unchanged |
| Jupiter.JupiterDocumentServer.UpdateVectorTime | de.fu_berlin.inf.dpp/src/de/fu_berlin/inf/dpp/concurrent/jupiter/internal/JupiterDocumentServer.java:85-101 | Requires a destination proxy whenever a source proxy exists (the unguarded dereference); the new table is `SeededProxies` of the old one |
| Jupiter.SeedBackRestores | de.fu_berlin.inf.dpp/src/de/fu_berlin/inf/dpp/concurrent/jupiter/internal/JupiterDocumentServer.java:85-101 | Seeding `d` from `a` and then `a` from `d` gives `a` back its own time: the swap is its own inverse |
| Jupiter.Stamped | de.fu_berlin.inf.dpp/src/de/fu_berlin/inf/dpp/concurrent/jupiter/internal/JupiterDocumentServer.java:127-142 | The re-stamped checksums go exactly to the ids other than the sender; each is the report with its timestamp replaced by that recipient proxy's time |
| Jupiter.JupiterDocumentServer.WithTimestamp | de.fu_berlin.inf.dpp/src/de/fu_berlin/inf/dpp/concurrent/jupiter/internal/JupiterDocumentServer.java:109-143 | Requires the sender to be registered. A report that is not current gives the empty map; a current one gives one copy per other id, stamped with that id's proxy time. The method changes no state (it has no modifies clause) |
| Jupiter.StampedCount | de.fu_berlin.inf.dpp/src/de/fu_berlin/inf/dpp/concurrent/jupiter/internal/JupiterDocumentServer.java:127-142 | A current report is sent to exactly `|m| - 1` participants |
| StopActivity.Create | de.fu_berlin.inf.dpp/src/de/fu_berlin/inf/dpp/activities/serializable/StopActivityDataObject.java:53-64 | The five-argument constructor stores its arguments and always sets a non-null id (the generated id is a parameter) |
| StopActivity.CreateWithID | de.fu_berlin.inf.dpp/src/de/fu_berlin/inf/dpp/activities/serializable/StopActivityDataObject.java:66-71 | The six-argument constructor stores its arguments, and its id is exactly the given one, overriding the generated one |
| StopActivity.GeneratedIDIsOverwritten | de.fu_berlin.inf.dpp/src/de/fu_berlin/inf/dpp/activities/serializable/StopActivityDataObject.java:66-71 | The object built by the six-argument constructor does not depend on the id the delegated constructor generated |
| StopActivity.NullSafeEquals | de.fu_berlin.inf.dpp/src/de/fu_berlin/inf/dpp/activities/serializable/StopActivityDataObject.java:96-120 | The per-field comparison (null equals only null, otherwise `equals`) holds iff the two values are equal |
| StopActivity.Equals | de.fu_berlin.inf.dpp/src/de/fu_berlin/inf/dpp/activities/serializable/StopActivityDataObject.java:87-122 | `equals`, comparing the inherited source, initiator, state, id, type and user, holds iff the two objects are structurally equal |
| StopActivity.EqualsIsEquivalence | de.fu_berlin.inf.dpp/src/de/fu_berlin/inf/dpp/activities/serializable/StopActivityDataObject.java:87-122 | `equals` is reflexive, symmetric and transitive |
| StopActivity.GetRecipient | de.fu_berlin.inf.dpp/src/de/fu_berlin/inf/dpp/activities/serializable/StopActivityDataObject.java:147-157 | Requires a non-null state; INITIATED goes to the user, ACKNOWLEDGED to the initiator |
| StopActivity.GenerateAcknowledgment | de.fu_berlin.inf.dpp/src/de/fu_berlin/inf/dpp/activities/serializable/StopActivityDataObject.java:163-166 | The reply keeps initiator, user, type and id, is ACKNOWLEDGED, has the given source, and its recipient is the request's initiator |
| StopActivity.AcknowledgmentIdempotent | de.fu_berlin.inf.dpp/src/de/fu_berlin/inf/dpp/activities/serializable/StopActivityDataObject.java:163-166 | Acknowledging an acknowledgment from the same source gives an object that `equals` the first acknowledgment |
| StopActivity.HandshakeRoundTrip | de.fu_berlin.inf.dpp/src/de/fu_berlin/inf/dpp/activities/serializable/StopActivityDataObject.java:147-166 | A new request goes to the user; its acknowledgment goes back to the initiator, carries the same id, and is not equal to the request |
| ResourceDeltaVisitor.MasksAreDistinctBits | de.fu_berlin.inf.dpp/src/de/fu_berlin/inf/dpp/project/ToStringResourceDeltaVisitor.java:23-38 | Each table key is a single bit among the known bits, and no two flags share a bit |
| ResourceDeltaVisitor.LetterInjective | de.fu_berlin.inf.dpp/src/de/fu_berlin/inf/dpp/project/ToStringResourceDeltaVisitor.java:23-38 | No two table entries have the same letter |
| ResourceDeltaVisitor.ToStringResourceDeltaVisitor.constructor | de.fu_berlin.inf.dpp/src/de/fu_berlin/inf/dpp/project/ToStringResourceDeltaVisitor.java:23-40 | A new visitor has an empty buffer and a fixed iteration order that visits each table entry exactly once |
| ResourceDeltaVisitor.ToStringResourceDeltaVisitor.Visit | de.fu_berlin.inf.dpp/src/de/fu_berlin/inf/dpp/project/ToStringResourceDeltaVisitor.java:42-95 | Returns false iff the kind is NO_CHANGE. The buffer only grows, by exactly the line `VisitText` describes |
| ResourceDeltaVisitor.ToStringResourceDeltaVisitor.AppendKind | de.fu_berlin.inf.dpp/src/de/fu_berlin/inf/dpp/project/ToStringResourceDeltaVisitor.java:44-73 | Appends exactly the kind code: `0`, `A `, `R `, `? `, `C(0) ` for a change without flags, or `C(` letters `) ` |
| ResourceDeltaVisitor.ToStringResourceDeltaVisitor.AppendFlagLetters | de.fu_berlin.inf.dpp/src/de/fu_berlin/inf/dpp/project/ToStringResourceDeltaVisitor.java:56-60 | The loop over the table appends exactly `FlagLetters` for the visitor's iteration order |
| ResourceDeltaVisitor.ToStringResourceDeltaVisitor.AppendResource | de.fu_berlin.inf.dpp/src/de/fu_berlin/inf/dpp/project/ToStringResourceDeltaVisitor.java:74-91 | Appends the path, then ` path` and `:revision` when version control reports them, or `No resource` without a resource |
| ResourceDeltaVisitor.ToStringResourceDeltaVisitor.ToString | de.fu_berlin.inf.dpp/src/de/fu_berlin/inf/dpp/project/ToStringResourceDeltaVisitor.java:97-100 | Returns the whole buffer |
| ResourceDeltaVisitor.FlagLettersStep | de.fu_berlin.inf.dpp/src/de/fu_berlin/inf/dpp/project/ToStringResourceDeltaVisitor.java:56-60 | One more table entry adds its letter at the end if its bit is set, and nothing otherwise |
| ResourceDeltaVisitor.FlagLettersMembers | de.fu_berlin.inf.dpp/src/de/fu_berlin/inf/dpp/project/ToStringResourceDeltaVisitor.java:56-60 | A character is written iff it is the letter of an iterated flag whose bit is set in the flag word |
| ResourceDeltaVisitor.FlagLetterWritten | de.fu_berlin.inf.dpp/src/de/fu_berlin/inf/dpp/project/ToStringResourceDeltaVisitor.java:23-60 | Over the whole table, in any iteration order, a flag's letter is written iff its bit is set |
| ResourceDeltaVisitor.FlagLettersOnlySetFlags | de.fu_berlin.inf.dpp/src/de/fu_berlin/inf/dpp/project/ToStringResourceDeltaVisitor.java:56-60 | Every written character is the letter of a flag whose bit is set |
| ResourceDeltaVisitor.LetterOfOtherFlagAbsent | de.fu_berlin.inf.dpp/src/de/fu_berlin/inf/dpp/project/ToStringResourceDeltaVisitor.java:56-60 | The letter of a flag not yet iterated does not appear |
| ResourceDeltaVisitor.FlagLettersNoRepeat | de.fu_berlin.inf.dpp/src/de/fu_berlin/inf/dpp/project/ToStringResourceDeltaVisitor.java:56-60 | When each entry is visited once, no letter is written twice |
| ResourceDeltaVisitor.UnknownBitsIgnored | de.fu_berlin.inf.dpp/src/de/fu_berlin/inf/dpp/project/ToStringResourceDeltaVisitor.java:57-59 | Bits outside the table contribute nothing: the letters depend only on the known bits |
| ResourceDeltaVisitor.EmptyFlagWord | de.fu_berlin.inf.dpp/src/de/fu_berlin/inf/dpp/project/ToStringResourceDeltaVisitor.java:56-60 | A zero flag word gives no letters |
| ResourceDeltaVisitor.OnlyUnknownBits | de.fu_berlin.inf.dpp/src/de/fu_berlin/inf/dpp/project/ToStringResourceDeltaVisitor.java:50-62 | A nonzero flag word with only unknown bits gives no letters, so the change is written `C() ` and not `C(0) ` |
| ResourceDeltaVisitor.ChangedLine | de.fu_berlin.inf.dpp/src/de/fu_berlin/inf/dpp/project/ToStringResourceDeltaVisitor.java:50-62 | A change with nonzero flags writes `C(`, its letters, `) `, the resource text and a line break |
| ResourceDeltaVisitor.KindCodes | de.fu_berlin.inf.dpp/src/de/fu_berlin/inf/dpp/project/ToStringResourceDeltaVisitor.java:44-92 | Each line starts with the fixed code of its kind (`0`, `A `, `R `, `C(`, `C(0) ` without flags, `? ` for any other kind) and ends with a line break |

## Left out

- **The Jupiter proxy.** Its transformation algorithm, its operation types and its timestamps are not part of this model. `receive`, `generate` and `isCurrent` are abstract functions in `ProxyBehaviour`, fixed for a server.
  - A fresh proxy (`new Jupiter(false)`) is taken to have vector time (0, 0) and no pending operations.
  - `getTimestamp` is read as the proxy's vector time.
  - `updateVectorTime` on a proxy is read as replacing its vector time.
- Jupiter.JupiterDocumentServer.TransformJupiterActivity: when `receive` throws, the model leaves every proxy as it was. What a failing Java proxy leaves behind internally is not modelled.
- Jupiter.JupiterDocumentServer.UpdateVectorTime: the destination proxy's own `updateVectorTime` may throw a TransformationException (JupiterDocumentServer.java:88-96). The server would then only log and leave that proxy as the Java proxy left it. The model assumes the update always succeeds. `SeededProxies` and `SeedBackRestores` hold only under that assumption. The logging is left out.
- Jupiter.JupiterDocumentServer.WithTimestamp: a TransformationException thrown by `isCurrent` is not modelled; `isCurrent` is a total test.
- **`synchronized`.** This is concurrency. The server is modelled sequentially; `transformJupiterActivity` and `withTimestamp` are not synchronized in the source either.
- **HashMap iteration order.** The loops of the server pick keys in an unspecified order. Their results do not depend on that order, because each step writes only its own key.
- **Participants, paths and activity types.** JIDs and the document path (`IPath`) are strings compared by value. Activities and checksum reports are records holding only the fields the server reads or writes.
- **The stop activity's generated id.** The five-argument constructor builds it from the clock and a random number. Here it is a parameter. `hashCode`, `toString`, `dispatch` and the XStream annotations are left out.
- StopActivity.Equals: it compares two stop activities. An argument of another class, or null, is not modelled. The activity base class is not part of this model: its `equals` is taken to compare the `source` field null-safely.
- StopActivity.GetRecipient: the `default` branch that throws IllegalStateException cannot be reached with the two-valued enum. A null state makes the switch throw NullPointerException, so a non-null state is a precondition.
- **IResourceDelta constants.** IResourceDelta is not part of this model. The kinds use Eclipse's values 0, 1, 2 and 4, and the flag masks use Eclipse's published constants. The proofs use only that the masks are distinct single bits.
- **Resource lookups.** The resource's `getFullPath().toPortableString()` and the lookups through the version-control adapter are inputs: a path string, and an optional pair of optional strings for the path and the revision. A project without an adapter and a resource without a project both appear as no version-control information. A null `info` (the code dereferences it unchecked) and CoreException are not modelled.
- **The visitor's `visit`.** It is split into three helper methods (kind, flag loop, resource) so that each proof stays small. The text it appends is the same as the source's single method.
